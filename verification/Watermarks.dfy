/** Derivation of the admission watermarks (`derive_admission_watermarks` and its use in `main`,
    grok_register/register.py). */
module Watermarks {
  import opened Prelude
  import opened Admission

  /** The settings, after environment defaults have been filled in; any integers. */
  datatype Settings = Settings(
    tSlot: int, qPending: int, tTarget: int, qTarget: int,
    tHigh: Option<int>, tLow: Option<int>, qHigh: Option<int>, qLow: Option<int>)

  function Derive(physicalCap: int, s: Settings): (m: Marks)
  {
    var tHigh :=
      match s.tHigh
      case None => Min(Max(1, s.tSlot), Max(1, Max(s.tTarget, physicalCap)))
      case Some(v) => Max(1, Min(Max(1, s.tSlot), v));
    var tLow := Max(0, Min(tHigh, match s.tLow case None => tHigh / 2 case Some(v) => v));
    var qHigh :=
      match s.qHigh
      case None => Max(1, s.qPending)
      case Some(v) => Max(1, Min(Max(1, s.qPending), v));
    var qLow :=
      match s.qLow
      case None => Max(0, Min(qHigh, Min(s.qTarget, qHigh / 2)))
      case Some(v) => Max(0, Min(qHigh, v));
    Marks(tLow, tHigh, qLow, qHigh)
  }

  /** `main` raises the T high mark when tokens are minted outside the browser. */
  function AtStartUp(physicalCap: int, sWorkers: int, browserMint: bool, s: Settings): (m: Marks)
  {
    var m := Derive(physicalCap, s);
    if browserMint || s.tHigh.Some? then m
    else
      var tHigh := Max(m.tHigh, Min(s.tSlot, Max(s.tTarget, Max(sWorkers, physicalCap))));
      m.(tHigh := tHigh, tLow := if m.tLow > tHigh then Max(0, tHigh / 2) else m.tLow)
  }

  /** For all integer settings the gate accepts the marks, and neither high mark exceeds its cap
      (taken as at least one). */
  lemma MarksWithinCaps(physicalCap: int, sWorkers: int, browserMint: bool, s: Settings)
    ensures var m := AtStartUp(physicalCap, sWorkers, browserMint, s);
            && m.Valid() && m.tHigh <= Max(1, s.tSlot) && m.qHigh <= Max(1, s.qPending)
    ensures AtStartUp(physicalCap, sWorkers, browserMint, s).qHigh <= s.qPending <==> s.qPending >= 1
  {
  }

  // ---------------------------------------------------------------- what the marks are

  /** `m` is `v`, or the end of the range lo..hi on whose far side `v` lies. */
  predicate IsCut(m: int, v: int, lo: int, hi: int)
  {
    lo <= m <= hi && (lo <= v <= hi ==> m == v) && (v < lo ==> m == lo) && (v > hi ==> m == hi)
  }

  /** `m` is the largest of the numbers. */
  predicate IsLargest(m: int, ns: seq<int>) { m in ns && forall n | n in ns :: n <= m }

  /** Without an override the Q mark is the pending capacity, of which one is always granted; the T mark is what
      the target and the physical capacity want, as far as the slots allow. An override counts within its cap. */
  lemma HighMarks(physicalCap: int, s: Settings, wanted: int)
    requires IsLargest(wanted, [1, s.tTarget, physicalCap])
    ensures var m := Derive(physicalCap, s);
            && (s.qHigh.None? ==> m.qHigh >= 1 && (s.qPending >= 1 ==> m.qHigh == s.qPending)
                                  && (s.qPending < 1 ==> m.qHigh == 1))
            && (s.qHigh.Some? ==> IsCut(m.qHigh, s.qHigh.value, 1, if s.qPending >= 1 then s.qPending else 1))
            && (s.tHigh.None? ==> IsCut(m.tHigh, wanted, 1, if s.tSlot >= 1 then s.tSlot else 1))
            && (s.tHigh.Some? ==> IsCut(m.tHigh, s.tHigh.value, 1, if s.tSlot >= 1 then s.tSlot else 1))
  {
    assert 1 in [1, s.tTarget, physicalCap] && s.tTarget in [1, s.tTarget, physicalCap];
    assert physicalCap in [1, s.tTarget, physicalCap];
  }

  /** A low mark is its override, cut to what lies between nothing and the high mark; without one it is the
      largest number that is at most half of the high mark, for Q also at most the target, if that is not
      negative: the numbers `n` up to the mark are those that are. */
  lemma LowMarks(physicalCap: int, s: Settings, n: nat)
    ensures var m := Derive(physicalCap, s);
            && (s.tLow.Some? ==> IsCut(m.tLow, s.tLow.value, 0, m.tHigh))
            && (s.qLow.Some? ==> IsCut(m.qLow, s.qLow.value, 0, m.qHigh))
            && (s.tLow.None? ==> (n <= m.tLow <==> n + n <= m.tHigh))
            && (s.qLow.None? && s.qTarget >= 0 ==> (n <= m.qLow <==> n + n <= m.qHigh && n <= s.qTarget))
            && (s.qLow.None? && s.qTarget < 0 ==> m.qLow == 0)
  {
  }

  /** For tokens minted outside the browser, and without an override, the T mark is raised as far as the slots
      allow to what the target, the S workers or the physical capacity want, and never lowered; the other marks
      stay. In every other case the marks are the derived ones. */
  lemma RaisedMarks(physicalCap: int, sWorkers: int, browserMint: bool, s: Settings, wanted: int)
    requires IsLargest(wanted, [s.tTarget, sWorkers, physicalCap])
    ensures var (m, d) := (AtStartUp(physicalCap, sWorkers, browserMint, s), Derive(physicalCap, s));
            && (browserMint || s.tHigh.Some? ==> m == d)
            && m.qHigh == d.qHigh && m.qLow == d.qLow && m.tLow == d.tLow
            && (!browserMint && s.tHigh.None? ==>
                  IsLargest(m.tHigh, [d.tHigh, if wanted <= s.tSlot then wanted else s.tSlot]))
  {
    assert s.tTarget in [s.tTarget, sWorkers, physicalCap] && sWorkers in [s.tTarget, sWorkers, physicalCap];
    assert physicalCap in [s.tTarget, sWorkers, physicalCap];
  }

  /** With larger capacities and targets, and the same overrides, no high mark is smaller. */
  lemma MarksGrow(physicalCap: int, more: int, sWorkers: int, browserMint: bool, s: Settings, t: Settings)
    requires physicalCap <= more && s.tSlot <= t.tSlot && s.qPending <= t.qPending && s.tTarget <= t.tTarget
    requires s.tHigh == t.tHigh && s.qHigh == t.qHigh
    ensures var m, n := AtStartUp(physicalCap, sWorkers, browserMint, s), AtStartUp(more, sWorkers, browserMint, t);
            m.tHigh <= n.tHigh && m.qHigh <= n.qHigh
  {
  }
}
