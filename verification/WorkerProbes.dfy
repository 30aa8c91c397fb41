/** The recovery probe over every step of the worker system: it is never lost, and never taken
    from the worker that answers for it. */
module WorkerProbes {
  import opened Prelude
  import opened Slots
  import opened Stock
  import opened Admission
  import opened RegistrationCircuit
  import opened Workers
  import opened WorkerWeights
  import opened WorkerPermits

  /** A current token has exactly one worker that answers for it; no token has two. */
  ghost predicate Probed(c: Cfg, s: Sys)
  {
    var d := s.shared.circuit;
    && (d.probeActive <==> d.probe.Some?)
    && (d.probe.Some? ==> d.probe.value < d.next)
    && (forall t: nat :: Sum(c, Probe(t), s.actors) <= 1)
    && (forall t: nat :: t >= d.next ==> Sum(c, Probe(t), s.actors) == 0)
    && (d.probe.Some? ==> Sum(c, Probe(d.probe.value), s.actors) == 1)
  }

  /** What a step may do to the probe, given the actor that takes it: leave everything, let the
      actor's own token go, retire whatever token is current by a trip, or obtain a new one. */
  ghost predicate Handles(s: Shared, a: Actor, st: Step, m: Move)
  {
    var d, d', k, k' := s.circuit, m.shared.circuit, ProbeOf(a), ProbeOf(m.actor);
    && (d'.probeActive <==> d'.probe.Some?)
    && (m.spawned.Some? ==> ProbeOf(m.spawned.value) == FalseArg)
    && (|| (d'.next == d.next && d'.probe == d.probe
            && (k' == k || (!k'.Token? && (k.Token? ==> d.probe != Some(k.id)))))
        || (d'.next == d.next && d'.probe.None? && (k' == k || !k'.Token?)
            && (st.ev.Limited? || (k.Token? && d.probe == Some(k.id))))
        || (d'.next == d.next + 1 && d.probe.None? && !k.Token?
            && d'.probe == (if k'.Token? then Some(k'.id) else None)
            && (k'.Token? ==> k'.id == d.next)))
  }

  lemma ProbeFree(c: Cfg, s: Shared, a: Actor, st: Step, m: Move)
    requires !a.Mint? && !a.Batch? && !a.Settle? && !a.Hold? && !a.CLeave?
    requires StepFree(c, s, a, st) == Some(m)
    requires Staged(c, a) && (s.circuit.probeActive <==> s.circuit.probe.Some?)
    ensures Handles(s, a, st, m)
  {
    hide TryT, TryQ, TryPop, Store.Cleaned, Store.Settled, Fresh, Stale, Ids, Expired;
  }

  lemma ProbeMint(c: Cfg, s: Shared, a: Actor, st: Step, m: Move)
    requires a.Mint?
    requires StepMint(c, s, a.m, st) == Some(m)
    requires Staged(c, a) && (s.circuit.probeActive <==> s.circuit.probe.Some?)
    ensures Handles(s, a, st, m)
  {
    hide Lobby.EndT, Store.StoreT, Store.DropT, Store.NewT;
  }

  lemma ProbeReserve(c: Cfg, s: Shared, a: Actor, st: Step, m: Move)
    requires a.Batch? && PhaseOf(a.b).Reserving?
    requires StepReserve(c, s, a.l, a.owned, a.b, st) == Some(m)
    requires Staged(c, a) && (s.circuit.probeActive <==> s.circuit.probe.Some?)
    ensures Handles(s, a, st, m)
  {
    hide Lobby.ReleaseOne;
  }

  lemma ProbeQueue(c: Cfg, s: Shared, a: Actor, st: Step, m: Move)
    requires a.Batch? && PhaseOf(a.b).Queueing?
    requires StepQueue(c, s, a.l, a.owned, a.b, st) == Some(m)
    requires Staged(c, a) && (s.circuit.probeActive <==> s.circuit.probe.Some?)
    ensures Handles(s, a, st, m)
  {
  }

  lemma ProbeSend(c: Cfg, s: Shared, a: Actor, st: Step, m: Move)
    requires a.Batch? && PhaseOf(a.b).Posting?
    requires StepSend(c, s, a.l, a.owned, a.b, st) == Some(m)
    requires Staged(c, a) && (s.circuit.probeActive <==> s.circuit.probe.Some?)
    ensures Handles(s, a, st, m)
  {
  }

  lemma ProbeHandOver(c: Cfg, s: Shared, a: Actor, st: Step, m: Move)
    requires a.Batch? && PhaseOf(a.b).HandingOver?
    requires StepHandOver(c, s, a.l, a.owned, a.b, st) == Some(m)
    requires Staged(c, a) && (s.circuit.probeActive <==> s.circuit.probe.Some?)
    ensures Handles(s, a, st, m)
  {
    hide Lobby.ReleaseOne;
  }

  lemma ProbeSettle(c: Cfg, s: Shared, a: Actor, st: Step, m: Move)
    requires a.Settle?
    requires StepSettle(c, s, a.l, a.t, st) == Some(m)
    requires Staged(c, a) && (s.circuit.probeActive <==> s.circuit.probe.Some?)
    ensures Handles(s, a, st, m)
  {
    hide Lobby.ReleaseOne, Store.StoreQ, Store.DropQ, Store.NewQ;
  }

  lemma ProbePass(c: Cfg, s: Shared, a: Actor, st: Step, m: Move)
    requires a.Hold? && !Consuming(a.h)
    requires StepPass(c, s, a.p, a.k, a.h, st) == Some(m)
    requires Staged(c, a) && (s.circuit.probeActive <==> s.circuit.probe.Some?)
    ensures Handles(s, a, st, m)
  {
    hide IsOpen, RemainingSeconds, Permits.FreePhys, Store.Cleaned, Store.Settled, Fresh, Stale, Ids, Expired;
  }

  lemma ProbeConsume(c: Cfg, s: Shared, a: Actor, st: Step, m: Move)
    requires a.Hold? && Consuming(a.h)
    requires StepConsume(c, s, a.p, a.k, a.h, st) == Some(m)
    requires Staged(c, a) && (s.circuit.probeActive <==> s.circuit.probe.Some?)
    ensures Handles(s, a, st, m)
  {
    hide IsOpen, RemainingSeconds, Permits.FreePhys, Store.Cleaned, Store.Settled, Fresh, Stale, Ids, Expired;
  }

  lemma ProbeLeave(c: Cfg, s: Shared, a: Actor, st: Step, m: Move)
    requires a.CLeave?
    requires StepLeave(c, s, a.k, a.dying, st) == Some(m)
    requires Staged(c, a) && (s.circuit.probeActive <==> s.circuit.probe.Some?)
    ensures Handles(s, a, st, m)
  {
  }

  lemma ProbeLocal(c: Cfg, s: Shared, a: Actor, st: Step, m: Move)
    requires Act(c, s, a, st) == Some(m)
    requires Staged(c, a) && (s.circuit.probeActive <==> s.circuit.probe.Some?)
    ensures Handles(s, a, st, m)
  {
    hide StepFree, StepMint, StepReserve, StepQueue, StepSend, StepHandOver, StepSettle, StepPass, StepConsume,
      StepLeave,
      Handles;
    match a {
      case Mint(_) => ProbeMint(c, s, a, st, m);
      case Batch(_, _, b) =>
        match PhaseOf(b) {
          case Reserving => ProbeReserve(c, s, a, st, m);
          case Queueing => ProbeQueue(c, s, a, st, m);
          case Posting => ProbeSend(c, s, a, st, m);
          case HandingOver => ProbeHandOver(c, s, a, st, m);
        }
      case Settle(_, _) => ProbeSettle(c, s, a, st, m);
      case Hold(_, _, h) =>
        if Consuming(h) {
          ProbeConsume(c, s, a, st, m);
        } else {
          ProbePass(c, s, a, st, m);
        }
      case CLeave(_, _) => ProbeLeave(c, s, a, st, m);
      case _ => ProbeFree(c, s, a, st, m);
    }
  }

  lemma ProbesStep(c: Cfg, s: Sys, st: Step, m: Move)
    requires st.i < |s.actors| && Probed(c, s)
    requires Handles(s.shared, s.actors[st.i], st, m)
    ensures Probed(c, Sys(m.shared, Joined(s.actors[st.i := m.actor], m.spawned)))
  {
    hide Sum, Joined;
    var d, d' := s.shared.circuit, m.shared.circuit;
    var actors' := Joined(s.actors[st.i := m.actor], m.spawned);
    forall t: nat
      ensures Sum(c, Probe(t), actors') <= 1
      ensures t >= d'.next ==> Sum(c, Probe(t), actors') == 0
      ensures d'.probe == Some(t) ==> Sum(c, Probe(t), actors') == 1
    {
      StepSum(c, Probe(t), s.actors, st.i, m);
    }
  }
}
