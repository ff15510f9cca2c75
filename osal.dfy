/** The adapter's own state and bookkeeping: the well-known task slots, the critical
    section counter, the blocks it holds from the memory allocator, and the kernel
    calls it issues. Every kernel result and every allocation outcome is a parameter
    chosen by the caller, so each success and failure branch is covered. */
module Osal {
  import opened OsalTypes
  import opened Translate
  import opened Registry
  import opened Critical

  /** What the allocator guarantees of a block it returns: it is not live. */
  predicate Unused(heap: map<BlockId, Block>, alloc: Option<BlockId>)
  {
    alloc.Some? ==> alloc.value !in heap
  }

  /** Two blocks obtained while both are held are different blocks. */
  predicate Distinct(a: Option<BlockId>, b: Option<BlockId>)
  {
    a.Some? && b.Some? ==> a.value != b.value
  }

  /** A recorded task handle names a live task control block. */
  predicate SlotLive(h: Option<BlockId>, heap: map<BlockId, Block>)
  {
    h.Some? ==> h.value in heap && heap[h.value] == TaskBlock
  }

  /** A queue wrapper points at a live queue control block and a live storage block. */
  predicate WrapperComplete(b: Block, heap: map<BlockId, Block>)
    requires b.WrapperBlock?
  {
    && b.queue.Some? && b.queue.value in heap && heap[b.queue.value] == QueueBlock
    && b.mem.Some? && b.mem.value in heap && heap[b.mem.value].StorageBlock?
  }

  predicate IsWrapper(heap: map<BlockId, Block>, w: BlockId)
  {
    w in heap && heap[w].WrapperBlock?
  }

  /** Every live wrapper is complete, and no two wrappers share a block. */
  ghost predicate QueuesWellFormed(heap: map<BlockId, Block>)
  {
    && (forall w :: IsWrapper(heap, w) ==> WrapperComplete(heap[w], heap))
    && (forall w1, w2 :: IsWrapper(heap, w1) && IsWrapper(heap, w2) && w1 != w2 ==>
          heap[w1].queue != heap[w2].queue && heap[w1].mem != heap[w2].mem)
  }

  /** Every recorded task handle names a live task control block. */
  predicate SlotsLive(s: Slots, heap: map<BlockId, Block>)
  {
    SlotLive(s.task2, heap) && SlotLive(s.task8, heap) && SlotLive(s.task9, heap)
  }

  /** Recording a live task control block keeps every slot pointing at one. */
  lemma RecordKeepsLive(s: Slots, heap: map<BlockId, Block>, prio: int, tcb: BlockId)
    requires SlotsLive(s, heap) && tcb in heap && heap[tcb] == TaskBlock
    ensures SlotsLive(Record(s, prio, tcb), heap)
  {
  }

  /** Emptying a slot keeps every slot pointing at a live task control block. */
  lemma ClearKeepsLive(s: Slots, heap: map<BlockId, Block>, prio: int)
    requires SlotsLive(s, heap)
    ensures SlotsLive(Clear(s, prio), heap)
  {
  }

  /** Allocating a block that is not a wrapper keeps the heap well formed. */
  lemma AddBlockKeepsWellFormed(heap: map<BlockId, Block>, s: Slots, b: BlockId, blk: Block)
    requires QueuesWellFormed(heap) && SlotsLive(s, heap)
    requires b !in heap && !blk.WrapperBlock?
    ensures QueuesWellFormed(heap[b := blk]) && SlotsLive(s, heap[b := blk])
  {
    var h := heap[b := blk];
    forall w | w in h && h[w].WrapperBlock? ensures WrapperComplete(h[w], h) {
      assert w in heap && WrapperComplete(heap[w], heap);
    }
  }

  /** Freeing a semaphore or timer block keeps the heap well formed: no wrapper and no
      slot refers to one. */
  lemma RemoveBlockKeepsWellFormed(heap: map<BlockId, Block>, s: Slots, b: BlockId)
    requires QueuesWellFormed(heap) && SlotsLive(s, heap)
    requires b in heap && (heap[b] == SemBlock || heap[b].TimerBlock?)
    ensures QueuesWellFormed(heap - {b}) && SlotsLive(s, heap - {b})
  {
    var h := heap - {b};
    forall w | w in h && h[w].WrapperBlock? ensures WrapperComplete(h[w], h) {
      assert WrapperComplete(heap[w], heap);
    }
  }

  /** Reconfiguring a timer block in place keeps the heap well formed. */
  lemma RewriteTimerKeepsWellFormed(heap: map<BlockId, Block>, s: Slots, b: BlockId, first: nat, round: nat)
    requires QueuesWellFormed(heap) && SlotsLive(s, heap)
    requires b in heap && heap[b].TimerBlock?
    ensures QueuesWellFormed(heap[b := TimerBlock(first, round)]) && SlotsLive(s, heap[b := TimerBlock(first, round)])
  {
    var h := heap[b := TimerBlock(first, round)];
    forall w | w in h && h[w].WrapperBlock? ensures WrapperComplete(h[w], h) {
      assert WrapperComplete(heap[w], heap);
    }
  }

  /** Freeing a block that was just allocated restores the heap. */
  lemma FreeNew(heap: map<BlockId, Block>, b: BlockId, blk: Block)
    requires b !in heap
    ensures heap[b := blk] - {b} == heap
  {
  }

  /** Undoing the first two steps: freeing the control block and the wrapper. */
  lemma FreeWrapperAndQueue(heap: map<BlockId, Block>, w: BlockId, q: BlockId, wb: Block, wb': Block)
    requires w !in heap && q !in heap && w != q
    ensures heap[w := wb][q := QueueBlock][w := wb'] - {q, w} == heap
  {
  }

  /** Undoing all three steps: freeing control block, storage and wrapper. */
  lemma FreeAllThree(heap: map<BlockId, Block>, w: BlockId, q: BlockId, m: BlockId, wb: Block, wb': Block, sb: Block)
    requires w !in heap && q !in heap && m !in heap && w != q && w != m && q != m
    ensures heap[w := wb][q := QueueBlock][w := wb'][m := sb] - {q, m, w} == heap
  {
  }

  /** The heap after a successful queue creation. */
  function AddQueue(heap: map<BlockId, Block>, w: BlockId, q: BlockId, m: BlockId, bytes: nat): map<BlockId, Block>
  {
    heap[w := WrapperBlock(Some(q), Some(m))][q := QueueBlock][m := StorageBlock(bytes)]
  }

  /** The three allocation steps of a queue creation, the wrapper's fields filled in as
      the blocks arrive, end in AddQueue. */
  lemma AddQueueSteps(heap: map<BlockId, Block>, w: BlockId, q: BlockId, m: BlockId, bytes: nat)
    requires w != q && w != m && q != m
    ensures heap[w := WrapperBlock(Some(q), None)][q := QueueBlock][w := WrapperBlock(Some(q), Some(m))][m := StorageBlock(bytes)]
         == AddQueue(heap, w, q, m, bytes)
  {
  }

  /** Adding a complete queue on three fresh blocks keeps the heap well formed. */
  lemma AddQueueKeepsWellFormed(heap: map<BlockId, Block>, s: Slots, w: BlockId, q: BlockId, m: BlockId, bytes: nat)
    requires QueuesWellFormed(heap) && SlotsLive(s, heap)
    requires w !in heap && q !in heap && m !in heap && w != q && w != m && q != m
    ensures QueuesWellFormed(AddQueue(heap, w, q, m, bytes)) && SlotsLive(s, AddQueue(heap, w, q, m, bytes))
  {
    var h := AddQueue(heap, w, q, m, bytes);
    forall v | v in h && h[v].WrapperBlock? ensures WrapperComplete(h[v], h) {
      if v != w {
        assert WrapperComplete(heap[v], heap);
      }
    }
    forall v1, v2 | v1 in h && v2 in h && v1 != v2 && h[v1].WrapperBlock? && h[v2].WrapperBlock?
      ensures h[v1].queue != h[v2].queue && h[v1].mem != h[v2].mem
    {
      if v1 != w && v2 != w {
        assert heap[v1] == h[v1] && heap[v2] == h[v2];
      } else if v1 == w {
        assert WrapperComplete(heap[v2], heap);
      } else {
        assert WrapperComplete(heap[v1], heap);
      }
    }
  }

  /** Freeing a complete queue's three blocks keeps the heap well formed. */
  lemma RemoveQueueKeepsWellFormed(heap: map<BlockId, Block>, s: Slots, w: BlockId)
    requires QueuesWellFormed(heap) && SlotsLive(s, heap)
    requires w in heap && heap[w].WrapperBlock?
    ensures WrapperComplete(heap[w], heap)
    ensures var h := heap - {w, heap[w].queue.value, heap[w].mem.value};
      QueuesWellFormed(h) && SlotsLive(s, h)
  {
    var b := heap[w];
    assert WrapperComplete(b, heap);
    var h := heap - {w, b.queue.value, b.mem.value};
    forall v | v in h && h[v].WrapperBlock? ensures WrapperComplete(h[v], h) {
      assert WrapperComplete(heap[v], heap);
      assert heap[v].queue != b.queue && heap[v].mem != b.mem;
    }
  }

  class Osal {
    /** g_wm_task2, g_wm_task8, g_wm_task9 */
    var slots: Slots
    /** os_cnter */
    var cnter: u32
    /** Whether interrupts are enabled. */
    var irqEnabled: bool
    /** The live blocks this adapter obtained from the allocator, by address. */
    var heap: map<BlockId, Block>
    /** The kernel calls and clean-up callbacks made so far, oldest first. */
    var trace: seq<KernelCall>

    ghost predicate Valid()
      reads this
    {
      SlotsLive(slots, heap) && QueuesWellFormed(heap)
    }

    function Crit(): CritState
      reads this
    {
      CritState(cnter, irqEnabled)
    }

    /** The state at start-up: no task recorded, counter zero, nothing allocated. */
    constructor (irq: bool)
      ensures Valid()
      ensures slots == EmptySlots && Crit() == CritState(0, irq)
      ensures heap == map[] && trace == []
    {
      slots := EmptySlots;
      cnter, irqEnabled := 0, irq;
      heap := map[];
      trace := [];
    }

    /** tls_os_task_create: allocate a control block, pick the name, create the kernel task;
        on success record a well-known priority, on failure free the block. */
    method TaskCreate(name: Option<string>, stkSize: u32, prio: u32, alloc: Option<BlockId>, kernelOk: bool)
      returns (st: Status, task: Option<BlockId>)
      requires Valid()
      requires Unused(heap, alloc)
      modifies this`slots, this`heap, this`trace
      ensures Valid()
      ensures st == Success <==> alloc.Some? && kernelOk
      ensures st == Success ==> task == alloc && heap == old(heap)[alloc.value := TaskBlock]
      ensures st == Success ==> slots == Record(old(slots), prio, alloc.value)
      ensures st == Error ==> task == None && heap == old(heap) && slots == old(slots)
      ensures trace == old(trace) + if alloc.None? then [] else
        [KTaskCreate(alloc.value, NameOr(name, DefaultTaskName(prio)), prio, TASK_TIME_SLICE, StackWords(stkSize), true)]
    {
      if alloc.None? {
        return Error, None;
      }
      var tcb := alloc.value;
      AddBlockKeepsWellFormed(heap, slots, tcb, TaskBlock);
      heap := heap[tcb := TaskBlock];
      var pname := NameOr(name, DefaultTaskName(prio));
      trace := trace + [KTaskCreate(tcb, pname, prio, TASK_TIME_SLICE, StackWords(stkSize), true)];
      if kernelOk {
        RecordKeepsLive(slots, heap, prio, tcb);
        slots := Record(slots, prio, tcb);
        st, task := Success, Some(tcb);
      } else {
        FreeNew(old(heap), tcb, TaskBlock);
        heap := heap - {tcb};
        st, task := Error, None;
      }
    }

    /** tls_os_task_del: delete the kernel task recorded for a well-known priority, clear its
        slot and run the clean-up callback. The control block stays allocated. */
    method TaskDel(prio: u8, hasFreeFun: bool, kernelOk: bool) returns (st: Status)
      requires Valid()
      modifies this`slots, this`trace
      ensures Valid()
      ensures var r := DelByPriority(old(slots), prio, kernelOk, hasFreeFun);
        && st == r.status && slots == r.slots
        && trace == old(trace) + (if r.killed.Some? then [KTaskDel(r.killed.value)] else [])
                               + (if r.callsFreeFun then [FreeFun] else [])
    {
      var ptask := Slot(slots, prio);
      if ptask.Some? {
        trace := trace + [KTaskDel(ptask.value)];
        if kernelOk {
          ClearKeepsLive(slots, heap, prio);
          slots := Clear(slots, prio);
          if hasFreeFun {
            trace := trace + [FreeFun];
          }
          return Success;
        } else {
          return Error;
        }
      }
      return Error;
    }

    /** tls_os_set_critical */
    method SetCritical() returns (cpuSr: u32)
      modifies this`cnter, this`irqEnabled
      ensures cpuSr == 1
      ensures Crit() == Enter(old(Crit()))
    {
      irqEnabled := false;
      cnter := (cnter + 1) % U32_MODULUS;
      return 1;
    }

    /** tls_os_release_critical: `halts` is the diagnostic-and-spin path taken when the
        counter is already zero; the calling context never continues after it. The
        saved state argument is ignored. */
    method ReleaseCritical(cpuSr: u32) returns (halts: bool)
      modifies this`cnter, this`irqEnabled
      ensures halts <==> Release(old(Crit())).None?
      ensures halts ==> Crit() == old(Crit())
      ensures !halts ==> Crit() == Release(old(Crit())).value
    {
      if cnter == 0 {
        return true;
      }
      cnter := cnter - 1;
      if cnter == 0 {
        irqEnabled := true;
      }
      return false;
    }

    /** tls_os_sem_create, without kernel dynamic allocation. */
    method SemCreate(cnt: u32, alloc: Option<BlockId>, kernelOk: bool) returns (st: Status, sem: Option<BlockId>)
      requires Valid()
      requires Unused(heap, alloc)
      modifies this`heap, this`trace
      ensures Valid()
      ensures st == Success <==> alloc.Some? && kernelOk
      ensures st == Success ==> sem == alloc && heap == old(heap)[alloc.value := SemBlock]
      ensures st == Error ==> sem == None && heap == old(heap)
      ensures trace == old(trace) + if alloc.None? then [] else [KSemCreate(alloc.value, SEM_NAME, cnt)]
    {
      if alloc.None? {
        return Error, None;
      }
      var psem := alloc.value;
      AddBlockKeepsWellFormed(heap, slots, psem, SemBlock);
      heap := heap[psem := SemBlock];
      trace := trace + [KSemCreate(psem, SEM_NAME, cnt)];
      if kernelOk {
        return Success, Some(psem);
      }
      FreeNew(old(heap), psem, SemBlock);
      heap := heap - {psem};
      return Error, None;
    }

    /** tls_os_sem_delete, without kernel dynamic allocation: a null handle is a
        successful no-op; otherwise the block is freed once the kernel lets go of it. */
    method SemDelete(sem: Option<BlockId>, kernelOk: bool) returns (st: Status)
      requires Valid()
      requires sem.Some? ==> sem.value in heap && heap[sem.value] == SemBlock
      modifies this`heap, this`trace
      ensures Valid()
      ensures st == Error <==> sem.Some? && !kernelOk
      ensures heap == if sem.Some? && kernelOk then old(heap) - {sem.value} else old(heap)
      ensures trace == old(trace) + if sem.Some? then [KSemDel(sem.value)] else []
    {
      if sem.None? {
        return Success;
      }
      trace := trace + [KSemDel(sem.value)];
      if kernelOk {
        RemoveBlockKeepsWellFormed(heap, slots, sem.value);
        heap := heap - {sem.value};
        return Success;
      }
      return Error;
    }

    /** tls_os_sem_acquire: a wait time of 0 becomes an unbounded wait. The handle,
        null or not, goes to the kernel unchecked. */
    method SemAcquire(sem: Option<BlockId>, waitTime: u32, kernelOk: bool) returns (st: Status)
      modifies this`trace
      ensures st == Success <==> kernelOk
      ensures trace == old(trace) + [KSemTake(sem, WaitTicks(waitTime))]
    {
      trace := trace + [KSemTake(sem, WaitTicks(waitTime))];
      st := StatusOf(kernelOk);
    }

    /** tls_os_queue_create, without kernel dynamic allocation: wrapper, control block
        and storage are allocated in that order, and every failure frees whatever was
        allocated before it. */
    method QueueCreate(queueSize: u32, a1: Option<BlockId>, a2: Option<BlockId>, a3: Option<BlockId>, kernelOk: bool)
      returns (st: Status, queue: Option<BlockId>)
      requires Valid()
      requires Unused(heap, a1) && Unused(heap, a2) && Unused(heap, a3)
      requires Distinct(a1, a2) && Distinct(a1, a3) && Distinct(a2, a3)
      modifies this`heap, this`trace
      ensures Valid()
      ensures st == Success <==> a1.Some? && a2.Some? && a3.Some? && kernelOk
      ensures st == Success ==> queue == a1
      ensures st == Success ==> heap == AddQueue(old(heap), a1.value, a2.value, a3.value, StorageBytes(queueSize))
      ensures st == Error ==> queue == None && heap == old(heap)
      ensures trace == old(trace) + if a1.Some? && a2.Some? && a3.Some?
        then [KQueueCreate(a2.value, QUEUE_NAME, a3.value, queueSize)] else []
    {
      if a1.None? {
        return Error, None;
      }
      // h is the heap as the blocks are obtained; it is written back on every exit.
      var h := heap;
      var w := a1.value;
      h := h[w := WrapperBlock(a2, None)];
      if a2.None? {
        FreeNew(heap, w, WrapperBlock(a2, None));
        h := h - {w};
        heap := h;
        return Error, None;
      }
      var q := a2.value;
      h := h[q := QueueBlock][w := WrapperBlock(a2, a3)];
      if a3.None? {
        FreeWrapperAndQueue(heap, w, q, WrapperBlock(a2, None), WrapperBlock(a2, a3));
        h := h - {q, w};
        heap := h;
        return Error, None;
      }
      var m := a3.value;
      h := h[m := StorageBlock(StorageBytes(queueSize))];
      trace := trace + [KQueueCreate(q, QUEUE_NAME, m, queueSize)];
      if kernelOk {
        AddQueueSteps(heap, w, q, m, StorageBytes(queueSize));
        AddQueueKeepsWellFormed(heap, slots, w, q, m, StorageBytes(queueSize));
        heap := h;
        return Success, Some(w);
      }
      FreeAllThree(heap, w, q, m, WrapperBlock(a2, None), WrapperBlock(a2, a3), StorageBlock(StorageBytes(queueSize)));
      h := h - {q, m, w};
      heap := h;
      return Error, None;
    }

    method QueueDelete(queue: Option<BlockId>, kernelOk: bool) returns (st: Status)
      requires Valid()
      requires queue.Some? ==> queue.value in heap && heap[queue.value].WrapperBlock?
      modifies this`heap, this`trace
      ensures Valid()
      ensures st == Error <==> queue.Some? && !kernelOk
      ensures queue.None? ==> heap == old(heap) && trace == old(trace)
      ensures queue.Some? ==>
        var b := old(heap)[queue.value];
        && trace == old(trace) + [KQueueDel(b.queue.value)]
        && heap == if kernelOk then old(heap) - {queue.value, b.queue.value, b.mem.value} else old(heap)
    {
      if queue.None? {
        return Success;
      }
      var w := queue.value;
      var pqueue := heap[w];
      RemoveQueueKeepsWellFormed(heap, slots, w);
      trace := trace + [KQueueDel(pqueue.queue.value)];
      if kernelOk {
        heap := heap - {pqueue.queue.value} - {pqueue.mem.value} - {w};
        assert heap == old(heap) - {w, pqueue.queue.value, pqueue.mem.value};
        return Success;
      }
      return Error;
    }

    /** tls_os_queue_send, without kernel dynamic allocation: a null handle reports
        success without sending; otherwise the message goes to the wrapped control block. */
    method QueueSend(queue: Option<BlockId>, kernelOk: bool) returns (st: Status)
      requires Valid()
      requires queue.Some? ==> queue.value in heap && heap[queue.value].WrapperBlock?
      modifies this`trace
      ensures queue.None? ==> st == Success && trace == old(trace)
      ensures queue.Some? ==> (st == Success <==> kernelOk)
      ensures queue.Some? ==> trace == old(trace) + [KQueueSend(heap[queue.value].queue.value)]
    {
      if queue.None? {
        return Success;
      }
      var pqueue := heap[queue.value];
      assert WrapperComplete(pqueue, heap);
      trace := trace + [KQueueSend(pqueue.queue.value)];
      st := StatusOf(kernelOk);
    }

    /** tls_os_queue_flush, without kernel dynamic allocation: the wrapper is unwrapped
        without a null check, so the handle must be a live queue. */
    method QueueFlush(queue: BlockId, kernelOk: bool) returns (st: Status)
      requires Valid()
      requires queue in heap && heap[queue].WrapperBlock?
      modifies this`trace
      ensures st == Success <==> kernelOk
      ensures trace == old(trace) + [KQueueFlush(heap[queue].queue.value)]
    {
      var pqueue := heap[queue];
      assert WrapperComplete(pqueue, heap);
      trace := trace + [KQueueFlush(pqueue.queue.value)];
      st := StatusOf(kernelOk);
    }

    /** tls_os_queue_receive, without kernel dynamic allocation: a null handle reports
        success without waiting; a wait time of 0 becomes an unbounded wait. */
    method QueueReceive(queue: Option<BlockId>, waitTime: u32, kernelOk: bool) returns (st: Status)
      requires Valid()
      requires queue.Some? ==> queue.value in heap && heap[queue.value].WrapperBlock?
      modifies this`trace
      ensures queue.None? ==> st == Success && trace == old(trace)
      ensures queue.Some? ==> (st == Success <==> kernelOk)
      ensures queue.Some? ==>
        trace == old(trace) + [KQueueRecv(heap[queue.value].queue.value, WaitTicks(waitTime))]
    {
      if queue.None? {
        return Success;
      }
      var pqueue := heap[queue.value];
      assert WrapperComplete(pqueue, heap);
      trace := trace + [KQueueRecv(pqueue.queue.value, WaitTicks(waitTime))];
      st := StatusOf(kernelOk);
    }

    /** tls_os_timer_create, without kernel dynamic allocation. */
    method TimerCreate(name: Option<string>, period: u32, repeat: bool, alloc: Option<BlockId>, kernelOk: bool)
      returns (st: Status, timer: Option<BlockId>)
      requires Valid()
      requires Unused(heap, alloc)
      modifies this`heap, this`trace
      ensures Valid()
      ensures st == Success <==> alloc.Some? && kernelOk
      ensures st == Success ==> timer == alloc
      ensures st == Success ==> heap == old(heap)[alloc.value := TimerBlock(FirstExpiry(period), CreateRound(FirstExpiry(period), repeat))]
      ensures st == Error ==> timer == None && heap == old(heap)
      ensures trace == old(trace) + if alloc.None? then [] else
        [KTimerCreate(alloc.value, NameOr(name, DEFAULT_TIMER_NAME), FirstExpiry(period),
                      CreateRound(FirstExpiry(period), repeat), false)]
    {
      if alloc.None? {
        return Error, None;
      }
      var ptimer := alloc.value;
      var first := FirstExpiry(period);
      var round := CreateRound(first, repeat);
      var pname := NameOr(name, DEFAULT_TIMER_NAME);
      AddBlockKeepsWellFormed(heap, slots, ptimer, TimerBlock(first, round));
      heap := heap[ptimer := TimerBlock(first, round)];
      trace := trace + [KTimerCreate(ptimer, pname, first, round, false)];
      if kernelOk {
        return Success, Some(ptimer);
      }
      FreeNew(old(heap), ptimer, TimerBlock(first, round));
      heap := heap - {ptimer};
      return Error, None;
    }

    /** tls_os_timer_change: stop, reconfigure from the timer's current reload ticks,
        restart. `changeOk` is the kernel's (unchecked) result of the reconfiguration. */
    method TimerChange(timer: BlockId, ticks: u32, changeOk: bool)
      requires Valid()
      requires timer in heap && heap[timer].TimerBlock?
      modifies this`heap, this`trace
      ensures Valid()
      ensures var first, round := FirstExpiry(ticks), ChangeRound(old(heap)[timer].round, ticks);
        && trace == old(trace) + [KTimerStop(timer), KTimerChange(timer, first, round), KTimerStart(timer)]
        && heap == if changeOk then old(heap)[timer := TimerBlock(first, round)] else old(heap)
    {
      var first := FirstExpiry(ticks);
      var round := ChangeRound(heap[timer].round, ticks);
      trace := trace + [KTimerStop(timer)];
      trace := trace + [KTimerChange(timer, first, round)];
      if changeOk {
        RewriteTimerKeepsWellFormed(heap, slots, timer, first, round);
        heap := heap[timer := TimerBlock(first, round)];
      }
      trace := trace + [KTimerStart(timer)];
    }

    /** tls_os_timer_delete, without kernel dynamic allocation: a null handle is a
        successful no-op; otherwise the block is freed once the kernel lets go of it. */
    method TimerDelete(timer: Option<BlockId>, kernelOk: bool) returns (st: Status)
      requires Valid()
      requires timer.Some? ==> timer.value in heap && heap[timer.value].TimerBlock?
      modifies this`heap, this`trace
      ensures Valid()
      ensures st == Error <==> timer.Some? && !kernelOk
      ensures heap == if timer.Some? && kernelOk then old(heap) - {timer.value} else old(heap)
      ensures trace == old(trace) + if timer.Some? then [KTimerDel(timer.value)] else []
    {
      if timer.None? {
        return Success;
      }
      trace := trace + [KTimerDel(timer.value)];
      if kernelOk {
        RemoveBlockKeepsWellFormed(heap, slots, timer.value);
        heap := heap - {timer.value};
        return Success;
      }
      return Error;
    }
  }
}
