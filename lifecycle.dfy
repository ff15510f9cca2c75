/** Callers' view of the adapter: what sequences of calls guarantee, proved from the
    operations' contracts alone. */
module Lifecycle {
  import opened OsalTypes
  import opened Registry
  import opened Osal

  /** A task created at a well-known priority can be deleted by that priority exactly
      once: the first delete succeeds and empties the slot, the second fails, and the
      other two slots are as they were. */
  method TaskLifecycle(os: Osal, prio: u8, tcb: BlockId) returns (st1: Status, st2: Status)
    requires os.Valid() && IsWellKnown(prio) && tcb !in os.heap
    modifies os
    ensures os.Valid()
    ensures st1 == Success && st2 == Error
    ensures forall q :: Slot(os.slots, q) == if q == prio then None else Slot(old(os.slots), q)
  {
    var st, task := os.TaskCreate(None, 1024, prio, Some(tcb), true);
    assert Slot(os.slots, prio) == Some(tcb);
    st1 := os.TaskDel(prio, true, true);
    st2 := os.TaskDel(prio, true, true);
  }

  /** Creating a queue and deleting it again leaves exactly the blocks that were live
      before. */
  method QueueLifecycle(os: Osal, queueSize: u32, w: BlockId, q: BlockId, m: BlockId)
    requires os.Valid()
    requires w !in os.heap && q !in os.heap && m !in os.heap && w != q && w != m && q != m
    modifies os
    ensures os.Valid() && os.heap == old(os.heap)
  {
    var st, queue := os.QueueCreate(queueSize, Some(w), Some(q), Some(m), true);
    assert queue == Some(w) && os.heap[w] == WrapperBlock(Some(q), Some(m));
    var st2 := os.QueueDelete(queue, true);
  }

  /** Creating a semaphore and deleting it again leaves exactly the blocks that were
      live before. */
  method SemLifecycle(os: Osal, cnt: u32, b: BlockId)
    requires os.Valid() && b !in os.heap
    modifies os
    ensures os.Valid() && os.heap == old(os.heap)
  {
    var st, sem := os.SemCreate(cnt, Some(b), true);
    var st2 := os.SemDelete(sem, true);
  }

  /** Creating a timer and deleting it again leaves exactly the blocks that were live
      before. */
  method TimerLifecycle(os: Osal, period: u32, repeat: bool, b: BlockId)
    requires os.Valid() && b !in os.heap
    modifies os
    ensures os.Valid() && os.heap == old(os.heap)
  {
    var st, timer := os.TimerCreate(None, period, repeat, Some(b), true);
    var st2 := os.TimerDelete(timer, true);
  }

  /** Two nested critical sections entered from an outermost context: interrupts are
      off until the second leave and back on after it. */
  method NestedCritical(os: Osal) returns (halted: bool, irqAfterFirst: bool)
    requires os.cnter == 0
    modifies os
    ensures !halted && !irqAfterFirst
    ensures os.cnter == 0 && os.irqEnabled
  {
    var sr1 := os.SetCritical();
    var sr2 := os.SetCritical();
    var h1 := os.ReleaseCritical(sr2);
    irqAfterFirst := os.irqEnabled;
    var h2 := os.ReleaseCritical(sr1);
    halted := h1 || h2;
  }
}
