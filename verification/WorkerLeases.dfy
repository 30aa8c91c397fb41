/** The admission gate over every step of the worker system: what is in flight covers every lease
    share and permit, and stock never outgrows the watermarks. */
module WorkerLeases {
  import opened Prelude
  import opened Slots
  import opened Stock
  import opened Admission
  import opened RegistrationCircuit
  import opened Workers
  import opened WorkerWeights

  ghost predicate Leased(c: Cfg, s: Sys)
  {
    var p, lobby := s.shared.permits, s.shared.lobby;
    && (forall i :: 0 <= i < |s.actors| ==> Placed(lobby, s.actors[i]))
    // Each lease still owes at least the shares that its holders will release ...
    && (forall l :: 0 <= l < |lobby.leases| ==> Sum(c, ShareOf(l), s.actors) <= lobby.leases[l])
    // ... and what is in flight covers every share and every permit that was kept or lost.
    && Sum(c, Share, s.actors) + p.pendKept + p.pendLost <= lobby.gate.qInflight
    && lobby.gate.qInflight <= Max(0, c.marks.qHigh)
    && Sum(c, LeaseT, s.actors) <= lobby.gate.tInProgress
  }

  predicate Placed(lobby: Lobby, a: Actor) { HasLease(a) ==> a.l < |lobby.leases| }

  /** The lease shares that nobody will release any more after the step: those of a batch cancelled while its
      permits are acquired or in the worker's handler, one whose release is cut short, and one of a cancelled
      poll. */
  function ShedQ(a: Actor, ev: Event): nat
  {
    if !ev.Cancel? then 0
    else
      match a
      case Batch(_, _, b) =>
        if b.Acquire? || b.UndoRel? then ShareCount(a) else if b.MailboxRel? || b.ResultRel? then 1 else 0
      case Settle(_, t) => if t.PollCode? || t.ShareRel? then 1 else 0
      case _ => 0
  }

  /** The same for T leases: the release is cut short after its flag is set. */
  function ShedT(a: Actor, ev: Event): nat
  {
    if ev.Cancel? && a.Mint? && (a.m.FailRel? || a.m.EndRel?) then 1 else 0
  }

  /** The step leaves every lease alone; no share appears, and none goes but those that are shed. */
  ghost predicate SameLeases(s: Shared, a: Actor, ev: Event, m: Move)
  {
    var p, p', born := s.permits, m.shared.permits, m.spawned;
    && m.shared.lobby.leases == s.lobby.leases
    && m.shared.lobby.gate.qInflight == s.lobby.gate.qInflight
    && (HasLease(m.actor) ==> HasLease(a) && m.actor.l == a.l)
    && (born.Some? ==> HasLease(a) && born.value == Settle(a.l, PollCode))
    && ShareCount(m.actor) + (if born.Some? then 1 else 0) + ShedQ(a, ev) == ShareCount(a)
    && p'.pendKept + p'.pendLost <= p.pendKept + p.pendLost + ShedQ(a, ev)
  }

  /** The step releases one of the actor's shares. */
  ghost predicate OneReleased(s: Shared, a: Actor, ev: Event, m: Move)
  {
    && ShedQ(a, ev) == 0
    && HasLease(a) && m.shared.lobby == s.lobby.ReleaseOne(a.l)
    && (HasLease(m.actor) ==> m.actor.l == a.l)
    && m.spawned.None? && ShareCount(m.actor) + 1 == ShareCount(a)
    && m.shared.permits.pendKept == s.permits.pendKept
    && m.shared.permits.pendLost == s.permits.pendLost
  }

  /** The step is granted a new lease, within the high mark. */
  ghost predicate Granted(c: Cfg, s: Shared, a: Actor, m: Move)
  {
    var gate, gate' := s.lobby.gate, m.shared.lobby.gate;
    && a.PGate? && m.actor.Batch? && m.actor.b.Acquire?
    && m.actor == Batch(|s.lobby.leases|, 0, Acquire(m.actor.b.want))
    && m.spawned.None? && m.shared == s.(lobby := m.shared.lobby)
    && m.shared.lobby.leases == s.lobby.leases + [m.actor.b.want]
    && gate'.tInProgress == gate.tInProgress
    && gate'.qInflight == gate.qInflight + m.actor.b.want
    && |s.store.shelf.q| + gate'.qInflight <= c.marks.qHigh
  }

  ghost predicate Accounted(c: Cfg, s: Shared, a: Actor, ev: Event, m: Move)
  {
    && (SameLeases(s, a, ev, m) || OneReleased(s, a, ev, m) || Granted(c, s, a, m))
    && m.shared.lobby.gate.tInProgress + LeaseTOf(a)
       == s.lobby.gate.tInProgress + LeaseTOf(m.actor) + ShedT(a, ev)
  }

  lemma ReleaseKeepsT(o: Lobby, l: nat)
    ensures o.ReleaseOne(l).gate.tInProgress == o.gate.tInProgress
  {
  }

  /** What one look at the gate can do. */
  lemma GateKeeps(c: Cfg, s: Shared)
    ensures var (g', granted) := TryT(c.marks, s.lobby.gate, |s.store.shelf.t|);
            && g'.qInflight == s.lobby.gate.qInflight
            && g'.tInProgress == s.lobby.gate.tInProgress + (if granted then 1 else 0)
            && (granted ==> |s.store.shelf.t| + g'.tInProgress <= c.marks.tHigh)
    ensures c.maxBatch > 0 ==>
              var (g', grant) := TryQ(c.marks, s.lobby.gate, |s.store.shelf.q|, c.maxBatch);
              && g'.tInProgress == s.lobby.gate.tInProgress
              && g'.qInflight == s.lobby.gate.qInflight + (if grant.Some? then grant.value else 0)
              && (grant.Some? ==> |s.store.shelf.q| + g'.qInflight <= c.marks.qHigh)
  {
  }

  lemma LeasesFree(c: Cfg, s: Shared, a: Actor, st: Step, m: Move)
    requires !a.Mint? && !a.Batch? && !a.Settle? && !a.Hold? && !a.CLeave?
    requires StepFree(c, s, a, st) == Some(m)
    ensures Accounted(c, s, a, st.ev, m)
  {
    hide TryT, TryQ, TryPop, Store.Cleaned;
    GateKeeps(c, s);
    if a.PGate? && st.ev.Run? && c.maxBatch > 0 {
      var (g, grant) := TryQ(c.marks, s.lobby.gate, |s.store.shelf.q|, c.maxBatch);
      if grant.Some? {
        assert m.shared.lobby == Lobby(g, s.lobby.leases + [grant.value]);
        assert Granted(c, s, a, m);
      }
    }
  }

  lemma LeasesMint(c: Cfg, s: Shared, a: Actor, st: Step, m: Move)
    requires a.Mint?
    requires StepMint(c, s, a.m, st) == Some(m)
    ensures Accounted(c, s, a, st.ev, m)
  {
    hide Store.StoreT, Store.DropT, Store.NewT;
  }

  lemma LeasesReserve(c: Cfg, s: Shared, a: Actor, st: Step, m: Move)
    requires a.Batch? && PhaseOf(a.b).Reserving?
    requires StepReserve(c, s, a.l, a.owned, a.b, st) == Some(m)
    ensures Accounted(c, s, a, st.ev, m)
  {
    hide Lobby.ReleaseOne;
    ReleaseKeepsT(s.lobby, a.l);
  }

  lemma LeasesQueue(c: Cfg, s: Shared, a: Actor, st: Step, m: Move)
    requires a.Batch? && PhaseOf(a.b).Queueing?
    requires StepQueue(c, s, a.l, a.owned, a.b, st) == Some(m)
    ensures Accounted(c, s, a, st.ev, m)
  {
  }

  lemma LeasesSend(c: Cfg, s: Shared, a: Actor, st: Step, m: Move)
    requires a.Batch? && PhaseOf(a.b).Posting?
    requires StepSend(c, s, a.l, a.owned, a.b, st) == Some(m)
    ensures Accounted(c, s, a, st.ev, m)
  {
  }

  lemma LeasesHandOver(c: Cfg, s: Shared, a: Actor, st: Step, m: Move)
    requires a.Batch? && PhaseOf(a.b).HandingOver?
    requires StepHandOver(c, s, a.l, a.owned, a.b, st) == Some(m)
    ensures Accounted(c, s, a, st.ev, m)
  {
    hide Lobby.ReleaseOne;
    ReleaseKeepsT(s.lobby, a.l);
  }

  lemma LeasesSettle(c: Cfg, s: Shared, a: Actor, st: Step, m: Move)
    requires a.Settle?
    requires StepSettle(c, s, a.l, a.t, st) == Some(m)
    ensures Accounted(c, s, a, st.ev, m)
  {
    hide Store.StoreQ, Store.DropQ, Store.NewQ, Lobby.ReleaseOne;
    ReleaseKeepsT(s.lobby, a.l);
  }

  lemma LeasesPass(c: Cfg, s: Shared, a: Actor, st: Step, m: Move)
    requires a.Hold? && !Consuming(a.h)
    requires StepPass(c, s, a.p, a.k, a.h, st) == Some(m)
    ensures Accounted(c, s, a, st.ev, m)
  {
    hide Store.Settled, Poll, GiveUp, PairExpired;
  }

  lemma LeasesConsume(c: Cfg, s: Shared, a: Actor, st: Step, m: Move)
    requires a.Hold? && Consuming(a.h)
    requires StepConsume(c, s, a.p, a.k, a.h, st) == Some(m)
    ensures Accounted(c, s, a, st.ev, m)
  {
    hide Retire, Trip, ConsumeRecovery, CanSubmit, PairExpired, Store.Settled;
  }

  lemma LeasesLeave(c: Cfg, s: Shared, a: Actor, st: Step, m: Move)
    requires a.CLeave?
    requires StepLeave(c, s, a.k, a.dying, st) == Some(m)
    ensures Accounted(c, s, a, st.ev, m)
  {
    hide Retire;
  }

  lemma LeasesLocal(c: Cfg, s: Shared, a: Actor, st: Step, m: Move)
    requires Act(c, s, a, st) == Some(m)
    ensures Accounted(c, s, a, st.ev, m)
  {
    hide StepFree, StepMint, StepReserve, StepQueue, StepSend, StepHandOver, StepSettle, StepPass, StepConsume,
      StepLeave,
      Accounted;
    match a {
      case Mint(_) => LeasesMint(c, s, a, st, m);
      case Batch(_, _, b) =>
        match PhaseOf(b) {
          case Reserving => LeasesReserve(c, s, a, st, m);
          case Queueing => LeasesQueue(c, s, a, st, m);
          case Posting => LeasesSend(c, s, a, st, m);
          case HandingOver => LeasesHandOver(c, s, a, st, m);
        }
      case Settle(_, _) => LeasesSettle(c, s, a, st, m);
      case Hold(_, _, h) =>
        if Consuming(h) {
          LeasesConsume(c, s, a, st, m);
        } else {
          LeasesPass(c, s, a, st, m);
        }
      case CLeave(_, _) => LeasesLeave(c, s, a, st, m);
      case _ => LeasesFree(c, s, a, st, m);
    }
  }

  // ---------------------------------------------------------------- the three ways, over all actors

  lemma SameStep(c: Cfg, s: Sys, i: nat, ev: Event, m: Move)
    requires i < |s.actors| && Leased(c, s) && SameLeases(s.shared, s.actors[i], ev, m)
    requires Accounted(c, s.shared, s.actors[i], ev, m)
    ensures Leased(c, Sys(m.shared, Joined(s.actors[i := m.actor], m.spawned)))
  {
    forall l | 0 <= l < |s.shared.lobby.leases|
      ensures Sum(c, ShareOf(l), Joined(s.actors[i := m.actor], m.spawned))
              <= m.shared.lobby.leases[l]
    {
      StepSum(c, ShareOf(l), s.actors, i, m);
    }
    StepSum(c, Share, s.actors, i, m);
    StepSum(c, LeaseT, s.actors, i, m);
  }

  /** The guard of `release_one` never refuses: the lease still has the share being released. */
  lemma ShareThere(c: Cfg, s: Sys, i: nat)
    requires i < |s.actors| && Leased(c, s) && HasLease(s.actors[i])
    ensures s.actors[i].l < |s.shared.lobby.leases|
    ensures ShareCount(s.actors[i]) <= s.shared.lobby.leases[s.actors[i].l]
  {
    SumUpdate(c, ShareOf(s.actors[i].l), s.actors, i, Dead);
  }

  lemma ReleaseStep(c: Cfg, s: Sys, i: nat, ev: Event, m: Move)
    requires i < |s.actors| && Leased(c, s) && OneReleased(s.shared, s.actors[i], ev, m)
    requires Accounted(c, s.shared, s.actors[i], ev, m)
    ensures Leased(c, Sys(m.shared, Joined(s.actors[i := m.actor], m.spawned)))
  {
    ShareThere(c, s, i);
    forall l | 0 <= l < |s.shared.lobby.leases|
      ensures Sum(c, ShareOf(l), Joined(s.actors[i := m.actor], m.spawned))
              <= m.shared.lobby.leases[l]
    {
      StepSum(c, ShareOf(l), s.actors, i, m);
    }
    StepSum(c, Share, s.actors, i, m);
    StepSum(c, LeaseT, s.actors, i, m);
  }

  lemma GrantStep(c: Cfg, s: Sys, i: nat, ev: Event, m: Move)
    requires i < |s.actors| && Leased(c, s) && Granted(c, s.shared, s.actors[i], m)
    requires Accounted(c, s.shared, s.actors[i], ev, m)
    ensures Leased(c, Sys(m.shared, Joined(s.actors[i := m.actor], m.spawned)))
  {
    var n := |s.shared.lobby.leases|;
    forall l | 0 <= l <= n
      ensures Sum(c, ShareOf(l), Joined(s.actors[i := m.actor], m.spawned))
              <= m.shared.lobby.leases[l]
    {
      StepSum(c, ShareOf(l), s.actors, i, m);
      if l == n {
        SumNone(c, ShareOf(n), s.actors);
      }
    }
    StepSum(c, Share, s.actors, i, m);
    StepSum(c, LeaseT, s.actors, i, m);
  }

  lemma LeasesStep(c: Cfg, s: Sys, st: Step, s': Sys)
    requires Next(c, s, st) == Some(s') && Leased(c, s)
    ensures Leased(c, s')
  {
    hide Act, SameLeases, OneReleased, Granted, Leased;
    var m := Act(c, s.shared, s.actors[st.i], st).value;
    LeasesLocal(c, s.shared, s.actors[st.i], st, m);
    if SameLeases(s.shared, s.actors[st.i], st.ev, m) {
      SameStep(c, s, st.i, st.ev, m);
    } else if OneReleased(s.shared, s.actors[st.i], st.ev, m) {
      ReleaseStep(c, s, st.i, st.ev, m);
    } else {
      GrantStep(c, s, st.i, st.ev, m);
    }
  }
}
