/** The well-known priority table: three slots, for priorities 2, 8 and 9, each
    holding the control block of the last task created at that priority. */
module Registry {
  import opened OsalTypes

  datatype Slots = Slots(task2: Option<BlockId>, task8: Option<BlockId>, task9: Option<BlockId>)

  const EmptySlots: Slots := Slots(None, None, None)

  predicate IsWellKnown(prio: int) {
    prio == 2 || prio == 8 || prio == 9
  }

  /** The slot a priority reads from; every other priority reads as empty. */
  function Slot(s: Slots, prio: int): (h: Option<BlockId>)
    ensures !IsWellKnown(prio) ==> h == None
  {
    if prio == 2 then s.task2
    else if prio == 8 then s.task8
    else if prio == 9 then s.task9
    else None
  }

  /** Records a newly created task: a well-known priority overwrites its own slot,
      any other priority leaves the table as it is. */
  function Record(s: Slots, prio: int, tcb: BlockId): (r: Slots)
    ensures forall q :: Slot(r, q) == if q == prio && IsWellKnown(prio) then Some(tcb) else Slot(s, q)
    ensures !IsWellKnown(prio) ==> r == s
  {
    if prio == 2 then s.(task2 := Some(tcb))
    else if prio == 8 then s.(task8 := Some(tcb))
    else if prio == 9 then s.(task9 := Some(tcb))
    else s
  }

  /** Empties the slot of a priority and no other. */
  function Clear(s: Slots, prio: int): (r: Slots)
    ensures forall q :: Slot(r, q) == if q == prio then None else Slot(s, q)
  {
    if prio == 2 then s.(task2 := None)
    else if prio == 8 then s.(task8 := None)
    else if prio == 9 then s.(task9 := None)
    else s
  }

  /** Two tables are equal when every priority reads the same from both. */
  lemma SlotsExtensional(s: Slots, t: Slots)
    requires forall q :: Slot(s, q) == Slot(t, q)
    ensures s == t
  {
    assert Slot(s, 2) == Slot(t, 2) && Slot(s, 8) == Slot(t, 8) && Slot(s, 9) == Slot(t, 9);
  }

  /** What delete-by-priority does to the table: the status, the new table, the
      control block handed to the kernel (if any) and whether the clean-up callback
      runs. */
  datatype DelOutcome = DelOutcome(status: Status, slots: Slots, killed: Option<BlockId>, callsFreeFun: bool)

  function DelByPriority(s: Slots, prio: u8, kernelOk: bool, hasFreeFun: bool): (r: DelOutcome)
    ensures r.killed == Slot(s, prio)
    ensures r.status == Success <==> Slot(s, prio).Some? && kernelOk
    ensures r.status == Success ==> r.slots == Clear(s, prio)
    ensures r.status == Error ==> r.slots == s
    ensures r.callsFreeFun <==> r.status == Success && hasFreeFun
  {
    match Slot(s, prio)
    case None => DelOutcome(Error, s, None, false)
    case Some(h) =>
      if kernelOk then DelOutcome(Success, Clear(s, prio), Some(h), hasFreeFun)
      else DelOutcome(Error, s, Some(h), false)
  }

  /** Only the three well-known priorities can ever be deleted by priority. */
  lemma DelOtherPriorityFails(s: Slots, prio: u8, kernelOk: bool, hasFreeFun: bool)
    requires !IsWellKnown(prio)
    ensures DelByPriority(s, prio, kernelOk, hasFreeFun) == DelOutcome(Error, s, None, false)
  {
  }

  /** A second delete in a row at the same priority fails, whatever the kernel does. */
  lemma DelTwiceFails(s: Slots, prio: u8, ok1: bool, ok2: bool, f1: bool, f2: bool)
    requires DelByPriority(s, prio, ok1, f1).status == Success
    ensures DelByPriority(DelByPriority(s, prio, ok1, f1).slots, prio, ok2, f2).status == Error
  {
  }

  /** Creating a task at a well-known priority and then deleting it by priority
      deletes exactly that task and restores the slot to empty. */
  lemma CreateThenDel(s: Slots, prio: u8, tcb: BlockId, hasFreeFun: bool)
    requires IsWellKnown(prio)
    ensures DelByPriority(Record(s, prio, tcb), prio, true, hasFreeFun)
         == DelOutcome(Success, Clear(s, prio), Some(tcb), hasFreeFun)
  {
    var r := Record(s, prio, tcb);
    forall q ensures Slot(Clear(r, prio), q) == Slot(Clear(s, prio), q) { }
    SlotsExtensional(Clear(r, prio), Clear(s, prio));
  }
}
