/** Values shared by the OSAL adapter model: fixed-width integers, the two-valued
    status, the blocks handed out by the memory allocator and the kernel calls the
    adapter issues. */
module OsalTypes {

  type u8 = x: int | 0 <= x < 0x100
  type u32 = x: int | 0 <= x < 0x1_0000_0000
  type u64 = x: int | 0 <= x < 0x1_0000_0000_0000_0000

  const U32_MODULUS: int := 0x1_0000_0000

  /** The kernel's "block until the event occurs" timeout: the all-ones 64-bit tick count. */
  const WAIT_FOREVER: u64 := 0xFFFF_FFFF_FFFF_FFFF

  /** Time slice, in ticks, given to every task the adapter creates. */
  const TASK_TIME_SLICE: nat := 50

  datatype Option<+T> = None | Some(value: T)

  /** TLS_OS_SUCCESS / TLS_OS_ERROR: every kernel result collapses to one of these. */
  datatype Status = Success | Error

  function StatusOf(kernelOk: bool): (st: Status)
    ensures st == Success <==> kernelOk
  {
    if kernelOk then Success else Error
  }

  /** The address of a block returned by the memory allocator. */
  type BlockId = nat

  /** What a live block holds, as far as the adapter is concerned. */
  datatype Block =
    | TaskBlock                                  // a task control block
    | SemBlock                                   // a semaphore control block
    | TimerBlock(first: nat, round: nat)         // a timer control block and its reload ticks
    | QueueBlock                                 // a queue control block
    | StorageBlock(bytes: nat)                   // the message-slot array behind a queue
    | WrapperBlock(queue: Option<BlockId>, mem: Option<BlockId>) // the adapter's queue wrapper

  /** The kernel primitives the adapter calls, with the arguments it computes, and
      the caller's clean-up callback run by delete-by-priority. */
  datatype KernelCall =
    | KTaskCreate(tcb: BlockId, name: string, prio: nat, timeSlice: nat, stackWords: nat, autoRun: bool)
    | KTaskDel(tcb: BlockId)
    | KSemCreate(sem: BlockId, name: string, count: nat)
    | KSemDel(sem: BlockId)
    | KSemTake(handle: Option<BlockId>, wait: u64)
    | KQueueCreate(queue: BlockId, name: string, mem: BlockId, slots: nat)
    | KQueueDel(queue: BlockId)
    | KQueueSend(queue: BlockId)
    | KQueueRecv(queue: BlockId, wait: u64)
    | KQueueFlush(queue: BlockId)
    | KTimerCreate(timer: BlockId, name: string, first: nat, round: nat, autoRun: bool)
    | KTimerStop(timer: BlockId)
    | KTimerChange(timer: BlockId, first: nat, round: nat)
    | KTimerStart(timer: BlockId)
    | KTimerDel(timer: BlockId)
    | FreeFun                                    // the clean-up callback passed to delete-by-priority
}
