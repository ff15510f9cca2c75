/** The argument translations the adapter performs before calling the kernel:
    default task names, stack units, wait times, timer reload ticks and queue
    storage size. */
module Translate {
  import opened OsalTypes

  /** The table of default task names, keyed by priority. */
  const NamedPriorities: map<int, string> := map[
    4 := "wm_mlme", 5 := "wm_scan", 7 := "wm_rx", 9 := "wm_litepoint",
    10 := "wm_bss", 13 := "wm_supplicant", 14 := "wm_supplicant_timer", 28 := "wm_plcp"]

  const GENERIC_TASK_NAME: string := "wm_task"
  const DEFAULT_TIMER_NAME: string := "wmtimer"
  const SEM_NAME: string := "wmsem"
  const QUEUE_NAME: string := "wmqueue"

  /** The name given to a task created without one: an if-chain over the priority. */
  function DefaultTaskName(prio: u32): (name: string)
    ensures prio in NamedPriorities ==> name == NamedPriorities[prio]
    ensures prio !in NamedPriorities ==> name == GENERIC_TASK_NAME
  {
    if prio == 4 then "wm_mlme"
    else if prio == 5 then "wm_scan"
    else if prio == 7 then "wm_rx"
    else if prio == 9 then "wm_litepoint"
    else if prio == 10 then "wm_bss"
    else if prio == 13 then "wm_supplicant"
    else if prio == 14 then "wm_supplicant_timer"
    else if prio == 28 then "wm_plcp"
    else GENERIC_TASK_NAME
  }

  /** No priority in the table shares the generic name, so the generic name identifies
      exactly the priorities outside the table, and distinct table entries give
      distinct names. */
  lemma DefaultTaskNameDistinct(p: u32, q: u32)
    ensures DefaultTaskName(p) == GENERIC_TASK_NAME <==> p !in NamedPriorities
    ensures p in NamedPriorities && q in NamedPriorities && p != q ==> DefaultTaskName(p) != DefaultTaskName(q)
  {
    if p in NamedPriorities {
      assert DefaultTaskName(p) != GENERIC_TASK_NAME by {
        assert DefaultTaskName(p)[3] != GENERIC_TASK_NAME[3] || |DefaultTaskName(p)| != |GENERIC_TASK_NAME|;
      }
    }
    if p in NamedPriorities && q in NamedPriorities && p != q {
      var a, b := DefaultTaskName(p), DefaultTaskName(q);
      assert |a| != |b| || a[3] != b[3] || a[4] != b[4] || a[5] != b[5];
    }
  }

  /** A supplied name is used unchanged; only a missing one falls back. */
  function NameOr(name: Option<string>, fallback: string): (r: string)
    ensures name.Some? ==> r == name.value
    ensures name.None? ==> r == fallback
  {
    match name
    case Some(n) => n
    case None => fallback
  }

  /** Stack size in bytes converted to 4-byte stack words, rounding down. */
  function StackWords(stkSize: u32): (w: u32)
    ensures 4 * w <= stkSize < 4 * w + 4
  {
    stkSize / 4
  }

  /** Wait time as passed to the kernel: 0 means wait forever. */
  function WaitTicks(waitTime: u32): (t: u64)
    ensures t == WAIT_FOREVER <==> waitTime == 0
    ensures waitTime != 0 ==> t == waitTime
  {
    if waitTime == 0 then WAIT_FOREVER else waitTime
  }

  /** Distinct wait times reach the kernel as distinct timeouts. */
  lemma WaitTicksInjective(a: u32, b: u32)
    requires WaitTicks(a) == WaitTicks(b)
    ensures a == b
  {
    if a != 0 && b != 0 {
      assert WaitTicks(a) == a && WaitTicks(b) == b;
    }
  }

  /** First expiry of a timer: the given tick count, or 1 if it is 0. */
  function FirstExpiry(ticks: u32): (first: u32)
    ensures first >= 1
    ensures ticks != 0 ==> first == ticks
    ensures ticks == 0 ==> first == 1
  {
    if ticks != 0 then ticks else 1
  }

  /** Reload ticks at creation: the first expiry for a repeating timer, 0 for a one-shot. */
  function CreateRound(first: u32, repeat: bool): (round: u32)
    ensures repeat ==> round == first
    ensures !repeat ==> round == 0
  {
    if repeat then first else 0
  }

  /** A timer created with a zero period fires after one tick and, when repeating,
      every tick; it is never left without an expiry. */
  lemma CreateZeroPeriod(repeat: bool)
    ensures FirstExpiry(0) == 1
    ensures CreateRound(FirstExpiry(0), repeat) == (if repeat then 1 else 0)
  {
  }

  /** Reload ticks after a change: the raw new tick count if the timer was periodic,
      0 otherwise. Note it is the raw count, not the first expiry. */
  function ChangeRound(prevRound: nat, ticks: u32): (round: u32)
    ensures prevRound != 0 ==> round == ticks
    ensures prevRound == 0 ==> round == 0
    ensures round == 0 <==> prevRound == 0 || ticks == 0
  {
    if prevRound != 0 then ticks else 0
  }

  /** A change with a non-zero tick count keeps the timer's one-shot or periodic
      nature, and the new period equals the new first expiry. */
  lemma ChangeKeepsNature(prevRound: nat, ticks: u32)
    requires ticks != 0
    ensures (ChangeRound(prevRound, ticks) != 0) == (prevRound != 0)
    ensures prevRound != 0 ==> ChangeRound(prevRound, ticks) == FirstExpiry(ticks)
  {
  }

  /** A change to 0 ticks turns a periodic timer into a one-shot one that fires after
      one tick: the reload count differs from the first expiry. */
  lemma ChangeZeroMakesOneShot(prevRound: nat)
    requires prevRound != 0
    ensures FirstExpiry(0) == 1 && ChangeRound(prevRound, 0) == 0
  {
  }

  /** Bytes requested for a queue's message slots: queue_size * sizeof(void *), computed
      in 32-bit unsigned arithmetic on this 32-bit target. */
  function StorageBytes(queueSize: u32): (bytes: u32)
    ensures queueSize < 0x4000_0000 ==> bytes == 4 * queueSize
    ensures queueSize >= 0x4000_0000 ==> bytes < 4 * queueSize
    ensures (4 * queueSize - bytes) % U32_MODULUS == 0
  {
    (queueSize * 4) % U32_MODULUS
  }

  /** For 2^30 slots or more the byte count wraps, so the storage holds fewer pointers
      than the kernel queue is told it has: 2^30 + 1 slots get 4 bytes, one pointer. */
  lemma StorageBytesWraps()
    ensures StorageBytes(0x4000_0001) == 4
    ensures StorageBytes(0x4000_0000) == 0
  {
  }
}
