/** The critical-section nesting counter and the interrupt-enable flag, as a pure
    state machine: entering always disables interrupts and bumps the 32-bit counter;
    leaving halts on a zero counter, otherwise decrements and re-enables interrupts
    when the counter reaches zero. */
module Critical {
  import opened OsalTypes

  datatype CritState = CritState(cnter: u32, irqEnabled: bool)

  /** Enter: interrupts are disabled on every call, not only the outermost one, and the
      unsigned 32-bit counter is incremented (wrapping at 2^32). */
  function Enter(c: CritState): (r: CritState)
    ensures !r.irqEnabled
    ensures c.cnter + 1 < U32_MODULUS ==> r.cnter == c.cnter + 1
    ensures c.cnter + 1 == U32_MODULUS ==> r.cnter == 0
  {
    CritState((c.cnter + 1) % U32_MODULUS, false)
  }

  /** Leave: None stands for the diagnostic-and-halt path taken on a zero counter. */
  function Release(c: CritState): (r: Option<CritState>)
    ensures r.None? <==> c.cnter == 0
    ensures r.Some? ==> r.value.cnter + 1 == c.cnter
    ensures r.Some? ==> r.value.irqEnabled == (c.irqEnabled || r.value.cnter == 0)
  {
    if c.cnter == 0 then None
    else
      var n := c.cnter - 1;
      Some(CritState(n, c.irqEnabled || n == 0))
  }

  /** n enters in a row. */
  function Enters(c: CritState, n: nat): CritState
  {
    if n == 0 then c else Enter(Enters(c, n - 1))
  }

  /** n leaves in a row; None once any of them halts. */
  function Releases(c: CritState, n: nat): Option<CritState>
    decreases n
  {
    if n == 0 then Some(c)
    else match Release(c)
      case None => None
      case Some(c') => Releases(c', n - 1)
  }

  /** After n enters the counter has grown by n modulo 2^32, and interrupts are off
      unless n is 0. */
  lemma {:induction false} EntersState(c: CritState, n: nat)
    ensures Enters(c, n).cnter == (c.cnter + n) % U32_MODULUS
    ensures Enters(c, n).irqEnabled == (n == 0 && c.irqEnabled)
  {
    if n > 0 {
      EntersState(c, n - 1);
      var m := (c.cnter + n - 1) % U32_MODULUS;
      assert Enters(c, n).cnter == (m + 1) % U32_MODULUS;
      assert (m + 1) % U32_MODULUS == (c.cnter + n) % U32_MODULUS by {
        var k := (c.cnter + n - 1) / U32_MODULUS;
        assert c.cnter + n - 1 == k * U32_MODULUS + m;
        assert c.cnter + n == k * U32_MODULUS + (m + 1);
      }
    }
  }

  /** 2^32 nested enters from a zero counter wrap it back to zero. */
  lemma EntersWrap(irq: bool)
    ensures Enters(CritState(0, irq), U32_MODULUS).cnter == 0
  {
    EntersState(CritState(0, irq), U32_MODULUS);
  }

  /** k leaves from a counter of at least k succeed, leave the counter k lower, and
      turn interrupts on only if the k-th of them brought the counter to zero. */
  lemma {:induction false} ReleasesState(c: CritState, k: nat)
    requires k <= c.cnter
    decreases k
    ensures Releases(c, k) == Some(CritState(c.cnter - k, c.irqEnabled || (k > 0 && k == c.cnter)))
  {
    if k > 0 {
      var c' := Release(c).value;
      ReleasesState(c', k - 1);
    }
  }

  /** More leaves than the counter holds reach the halt. */
  lemma {:induction false} ReleasesHalt(c: CritState, k: nat)
    requires k > c.cnter
    decreases k
    ensures Releases(c, k) == None
  {
    if c.cnter > 0 {
      ReleasesHalt(Release(c).value, k - 1);
    }
  }

  /** n enters followed by n leaves restore the counter; from an outermost section
      (counter 0) interrupts end up enabled, from a nested one they stay disabled. */
  lemma Balanced(c: CritState, n: nat)
    requires 0 < n && c.cnter + n < U32_MODULUS
    ensures Releases(Enters(c, n), n) == Some(CritState(c.cnter, c.cnter == 0))
  {
    EntersState(c, n);
    ReleasesState(Enters(c, n), n);
  }

  /** From a zero counter, after n enters interrupts stay disabled through the first
      n - 1 leaves and are enabled by the n-th; one leave more halts. */
  lemma OutermostSection(irq: bool, n: nat, k: nat)
    requires 0 < n < U32_MODULUS && k <= n
    ensures Releases(Enters(CritState(0, irq), n), k) == Some(CritState(n - k, k == n))
    ensures Releases(Enters(CritState(0, irq), n), n + 1) == None
  {
    var c := CritState(0, irq);
    EntersState(c, n);
    ReleasesState(Enters(c, n), k);
    ReleasesHalt(Enters(c, n), n + 1);
  }
}
