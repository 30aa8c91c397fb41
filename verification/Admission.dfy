/** Watermark admission of T and Q producers (grok_register/core/admission.py). */
module Admission {
  import opened Prelude

  datatype Marks = Marks(tLow: int, tHigh: int, qLow: int, qHigh: int) {
    /** What the constructor of the gate accepts. */
    predicate Valid()
    {
      0 <= tLow <= tHigh && 0 <= qLow <= qHigh && tHigh > 0 && qHigh > 0
    }
  }

  datatype Gate = Gate(tInProgress: int, qInflight: int, tPaused: bool, qPaused: bool)

  const IDLE_GATE := Gate(0, 0, false, false)

  /** The pause flag after a waiter has looked at `total`. */
  function Pause(paused: bool, total: int, low: int, high: int): bool
  {
    var seen := paused || total >= high;
    seen && !(total <= low)
  }

  /** One look by `acquire_t_production` when `depth` T are in stock. */
  function TryT(m: Marks, g: Gate, depth: int): (r: (Gate, bool))
  {
    var total := depth + g.tInProgress;
    var paused := Pause(g.tPaused, total, m.tLow, m.tHigh);
    var granted := !paused && total < m.tHigh;
    (g.(tPaused := paused, tInProgress := g.tInProgress + if granted then 1 else 0), granted)
  }

  /** One look by `acquire_q_batch` when `depth` Q are in stock. */
  function TryQ(m: Marks, g: Gate, depth: int, maxBatch: int): (r: (Gate, Option<nat>))
    requires maxBatch > 0
  {
    var total := depth + g.qInflight;
    var paused := Pause(g.qPaused, total, m.qLow, m.qHigh);
    var demand := m.qHigh - total;
    if !paused && demand > 0 then
      var count := Min(maxBatch, demand);
      (g.(qPaused := total + count >= m.qHigh, qInflight := g.qInflight + count), Some(count))
    else
      (g.(qPaused := paused), None)
  }

  // ---------------------------------------------------------------- hysteresis over runs

  /** Everything that can happen to a gate, with the stock depth that a waiter sees. */
  datatype GateEvent =
    | LookT(depth: nat)
    | LookQ(depth: nat, maxBatch: nat)
    | EndT
    | EndQ(count: nat)

  function Apply(m: Marks, g: Gate, e: GateEvent): Gate
  {
    match e
    case LookT(d) => TryT(m, g, d).0
    case LookQ(d, max) => if max == 0 then g else TryQ(m, g, d, max).0
    case EndT => g.(tInProgress := g.tInProgress - 1)
    case EndQ(n) => g.(qInflight := g.qInflight - n)
  }

  function Run(m: Marks, g: Gate, es: seq<GateEvent>): Gate
    decreases |es|
  {
    if es == [] then g else Run(m, Apply(m, g, es[0]), es[1..])
  }

  predicate GrantsT(m: Marks, g: Gate, e: GateEvent) { e.LookT? && TryT(m, g, e.depth).1 }

  predicate GrantsQ(m: Marks, g: Gate, e: GateEvent)
  {
    e.LookQ? && e.maxBatch > 0 && TryQ(m, g, e.depth, e.maxBatch).1.Some?
  }

  /** A waiter that sees a total at or below the low mark. */
  predicate SeesLowT(m: Marks, g: Gate, e: GateEvent)
  {
    e.LookT? && e.depth + g.tInProgress <= m.tLow
  }

  predicate SeesLowQ(m: Marks, g: Gate, e: GateEvent)
  {
    e.LookQ? && e.maxBatch > 0 && e.depth + g.qInflight <= m.qLow
  }

  /** A waiter that sees the high mark (and not the low mark, should the two coincide). */
  predicate ReachesHighT(m: Marks, g: Gate, e: GateEvent)
  {
    e.LookT? && e.depth + g.tInProgress >= m.tHigh && !SeesLowT(m, g, e)
  }

  /** The same for Q, where a grant that takes the total up to the high mark counts too. */
  predicate ReachesHighQ(m: Marks, g: Gate, e: GateEvent)
  {
    && e.LookQ? && e.maxBatch > 0
    && (|| (e.depth + g.qInflight >= m.qHigh && !SeesLowQ(m, g, e))
        || (GrantsQ(m, g, e) && e.depth + TryQ(m, g, e.depth, e.maxBatch).0.qInflight >= m.qHigh))
  }

  /** No waiter of the run sees the low mark. */
  predicate NoLowT(m: Marks, g: Gate, es: seq<GateEvent>)
    decreases |es|
  {
    es == [] || (!SeesLowT(m, g, es[0]) && NoLowT(m, Apply(m, g, es[0]), es[1..]))
  }

  predicate NoLowQ(m: Marks, g: Gate, es: seq<GateEvent>)
    decreases |es|
  {
    es == [] || (!SeesLowQ(m, g, es[0]) && NoLowQ(m, Apply(m, g, es[0]), es[1..]))
  }

  lemma {:induction false} NoLowSnoc(m: Marks, g: Gate, es: seq<GateEvent>, e: GateEvent)
    ensures NoLowT(m, g, es + [e]) <==> NoLowT(m, g, es) && !SeesLowT(m, Run(m, g, es), e)
    ensures NoLowQ(m, g, es + [e]) <==> NoLowQ(m, g, es) && !SeesLowQ(m, Run(m, g, es), e)
    decreases |es|
  {
    if es == [] {
      assert es + [e] == [e];
    } else {
      assert (es + [e])[1..] == es[1..] + [e];
      NoLowSnoc(m, Apply(m, g, es[0]), es[1..], e);
    }
  }

  /** A paused side stays paused, and grants nothing, for as long as no waiter sees the low mark. */
  lemma {:induction false} PausedStays(m: Marks, g: Gate, es: seq<GateEvent>)
    ensures g.tPaused && NoLowT(m, g, es) ==> Run(m, g, es).tPaused
    ensures g.qPaused && NoLowQ(m, g, es) ==> Run(m, g, es).qPaused
    decreases |es|
  {
    if es != [] {
      PausedStays(m, Apply(m, g, es[0]), es[1..]);
    }
  }

  /** Hysteresis: once `first` has seen (or, for Q, a grant has reached) the high mark, whatever
      `between` does, `last` grants nothing unless some waiter has meanwhile seen the low mark. */
  lemma Hysteresis(m: Marks, g: Gate, first: GateEvent, between: seq<GateEvent>, last: GateEvent)
    requires m.Valid()
    ensures var g' := Apply(m, g, first);
            ReachesHighT(m, g, first) && NoLowT(m, g', between + [last])
            ==> !GrantsT(m, Run(m, g', between), last)
    ensures var g' := Apply(m, g, first);
            ReachesHighQ(m, g, first) && NoLowQ(m, g', between + [last])
            ==> !GrantsQ(m, Run(m, g', between), last)
  {
    var g' := Apply(m, g, first);
    NoLowSnoc(m, g', between, last);
    PausedStays(m, g', between);
  }

  /** The other half: a waiter that sees the low mark (below the high one) is always served. */
  lemma LowMarkServes(m: Marks, g: Gate, e: GateEvent)
    requires m.Valid()
    ensures SeesLowT(m, g, e) && m.tLow < m.tHigh ==> GrantsT(m, g, e)
    ensures SeesLowQ(m, g, e) && m.qLow < m.qHigh ==> GrantsQ(m, g, e)
    ensures GrantsT(m, g, e) ==> e.depth + TryT(m, g, e.depth).0.tInProgress <= m.tHigh
    ensures GrantsQ(m, g, e) ==> e.depth + TryQ(m, g, e.depth, e.maxBatch).0.qInflight <= m.qHigh
  {
  }

  /** A side that is not paused serves every waiter that sees a total below the high mark: with one production,
      or with a batch as large as asked for unless it reaches the high mark. */
  lemma BelowHighServes(m: Marks, g: Gate, e: GateEvent)
    requires m.Valid()
    ensures e.LookT? && !g.tPaused && e.depth + g.tInProgress < m.tHigh ==>
              GrantsT(m, g, e) && TryT(m, g, e.depth).0 == g.(tInProgress := g.tInProgress + 1)
    ensures e.LookQ? && e.maxBatch > 0 && !g.qPaused && e.depth + g.qInflight < m.qHigh ==>
              && GrantsQ(m, g, e)
              && var (h, n) := (TryQ(m, g, e.depth, e.maxBatch).0, TryQ(m, g, e.depth, e.maxBatch).1.value);
                 && 1 <= n <= e.maxBatch && h.qInflight == g.qInflight + n && h.tInProgress == g.tInProgress
                 && (n == e.maxBatch || e.depth + h.qInflight == m.qHigh)
  {
  }
}
