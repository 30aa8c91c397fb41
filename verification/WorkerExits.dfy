/** What the ways out of a C worker's consumption do to the circuit and to the pair
    (grok_register/register.py, `_consume_pair` and `c_worker`). */
module WorkerExits {
  import opened Prelude
  import opened Slots
  import opened Stock
  import opened RegistrationCircuit
  import opened Workers

  /** The worker has left the consumption: its pair is settled, both slots given back, and the physical
      permit with them if it held one. */
  ghost predicate PairSettled(c: Cfg, s: Shared, p: Pair, phys: bool, t: Shared)
  {
    && p.t.id !in t.store.tPool.live && p.q.id !in t.store.qPool.live
    && t.store.tPool.Total() == s.store.tPool.Total() && t.store.qPool.Total() == s.store.qPool.Total()
    && t.store.shelf == s.store.shelf && t.lobby == s.lobby
    && t.permits == if phys then s.permits.(phys := s.permits.phys + 1) else s.permits
  }

  lemma SettledPair(s: Shared, d: Circuit, p: Pair, k: Arg, phys: bool, dying: bool, c: Cfg)
    ensures PairSettled(c, s, p, phys, Leave(s, d, p, k, phys, dying).shared)
  {
    ReleaseConserves(s.store.tPool, {p.t.id});
    ReleaseConserves(s.store.qPool, {p.q.id});
    hide Pool.Total;
    assert p.t.id !in s.store.tPool.Release(p.t.id).live;
  }

  predicate HoldsPhysical(c: Cfg, h: Holding) { !c.http && (h.Verify? || h.Register? || h.Persist?) }

  /** Every step out of the consumption or out of the wait before it, on success, failure, expiry, rate
      limit, timeout or cancellation, settles the pair and gives the physical permit back. */
  lemma PairAlwaysSettled(c: Cfg, s: Shared, a: Actor, st: Step, m: Move)
    requires Act(c, s, a, st) == Some(m) && a.Hold? && !m.actor.Hold?
    ensures m.actor.CLeave? && PairSettled(c, s, a.p, HoldsPhysical(c, a.h), m.shared)
    ensures m.actor.dying == st.ev.Cancel?
  {
    SettledPair(s, m.shared.circuit, a.p, m.actor.k, HoldsPhysical(c, a.h), st.ev.Cancel?, c);
    hide PairSettled, Store.Settled, Poll, Retire, Trip, ConsumeRecovery, CanSubmit, PairExpired, GiveUp;
  }
}
