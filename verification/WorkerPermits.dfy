/** Conservation of permits over every step of the worker system. */
module WorkerPermits {
  import opened Prelude
  import opened Slots
  import opened Stock
  import opened Admission
  import opened RegistrationCircuit
  import opened Workers
  import opened WorkerWeights

  function SendCap(c: Cfg): nat { if c.sendCap.Some? then c.sendCap.value else 0 }

  /** Free, lost, deliberately kept and held permits always add up to the capacity. */
  ghost predicate Conserved(c: Cfg, s: Sys)
  {
    var p := s.shared.permits;
    && (forall i :: 0 <= i < |s.actors| ==> Staged(c, s.actors[i]))
    && p.phys + p.physLost + Sum(c, Phys, s.actors) == c.physCap
    && p.send + p.sendLost + Sum(c, Send, s.actors) == SendCap(c)
    && p.pend + p.pendKept + p.pendLost + Sum(c, Pend, s.actors) == c.pendCap
  }

  /** What a stage implies about the configuration and about the counts next to it. */
  predicate Staged(c: Cfg, a: Actor)
  {
    match a
    case Mint(m) => m.Physical? ==> c.browserMint
    case Batch(_, owned, b) =>
      && (b.PhysicalP? || b.Page? || b.Closing? ==> !c.http)
      && (b.Acquire? ==> 0 < b.want)
      && (b.Mailbox? ==> 0 < b.left <= owned)
      && (b.MailboxRel? ==> b.left <= owned)
    case Hold(_, k, h) =>
      && (h.PhysicalC? ==> !c.http)
      && (h.NotifyC? || h.Breaker? ==> k == FalseArg)
      && !k.NoArg?
    case CLeave(k, _) => !k.NoArg?
    case _ => true
  }

  /** A step moves permits only between the idle ones and the actors it touches. */
  ghost predicate Balanced(c: Cfg, s: Shared, a: Actor, m: Move)
  {
    var p, p', born := s.permits, m.shared.permits, m.spawned;
    && Staged(c, m.actor)
    && (born.Some? ==> born.value.Settle? && born.value.t.PollCode?)
    && p'.phys + p'.physLost + PhysOf(c, m.actor) == p.phys + p.physLost + PhysOf(c, a)
    && p'.send + p'.sendLost + SendOf(c, m.actor) == p.send + p.sendLost + SendOf(c, a)
    && p'.pend + p'.pendKept + p'.pendLost + PendOf(m.actor) + (if born.Some? then 1 else 0)
       == p.pend + p.pendKept + p.pendLost + PendOf(a)
  }

  /** What the handlers of `p_worker` do with `n` permits still owned. */
  ghost predicate Undone(c: Cfg, s: Shared, n: nat, m: Move)
  {
    && m.spawned.None? && Staged(c, m.actor)
    && m.shared == s.(permits := s.permits.(pend := m.shared.permits.pend))
    && m.shared.permits.pend + PendOf(m.actor) == s.permits.pend + n
    && PhysOf(c, m.actor) == SendOf(c, m.actor) == 0
  }

  lemma UndoKeeps(c: Cfg, s: Shared, l: nat, n: nat, dying: bool)
    ensures Undone(c, s, n, Undo(s, l, n, dying))
  {
  }

  lemma AfterSendKeeps(c: Cfg, s: Shared, l: nat, n: nat, fate: Fate)
    ensures Undone(c, s, n, AfterSend(s, l, n, fate))
  {
    UndoKeeps(c, s, l, n, fate.Cancelled?);
  }

  lemma PermitsFree(c: Cfg, s: Shared, a: Actor, st: Step, m: Move)
    requires !a.Mint? && !a.Batch? && !a.Settle? && !a.Hold? && !a.CLeave?
    requires StepFree(c, s, a, st) == Some(m)
    requires Staged(c, a)
    ensures Balanced(c, s, a, m)
  {
    hide TryT, TryPop, Store.Cleaned;
  }

  lemma PermitsMint(c: Cfg, s: Shared, a: Actor, st: Step, m: Move)
    requires a.Mint?
    requires StepMint(c, s, a.m, st) == Some(m)
    requires Staged(c, a)
    ensures Balanced(c, s, a, m)
  {
    hide Store.StoreT, Store.DropT, Store.NewT, Lobby.EndT;
  }

  lemma PermitsReserve(c: Cfg, s: Shared, a: Actor, st: Step, m: Move)
    requires a.Batch? && PhaseOf(a.b).Reserving?
    requires StepReserve(c, s, a.l, a.owned, a.b, st) == Some(m)
    requires Staged(c, a)
    ensures Balanced(c, s, a, m)
  {
    hide Lobby.ReleaseOne;
  }

  lemma PermitsQueue(c: Cfg, s: Shared, a: Actor, st: Step, m: Move)
    requires a.Batch? && PhaseOf(a.b).Queueing?
    requires StepQueue(c, s, a.l, a.owned, a.b, st) == Some(m)
    requires Staged(c, a)
    ensures Balanced(c, s, a, m)
  {
    hide Undo;
    UndoKeeps(c, s, a.l, a.owned, true);
    UndoKeeps(c, s.(permits := s.permits.FreeSend(c)), a.l, a.owned, true);
  }

  lemma PermitsSend(c: Cfg, s: Shared, a: Actor, st: Step, m: Move)
    requires a.Batch? && PhaseOf(a.b).Posting?
    requires StepSend(c, s, a.l, a.owned, a.b, st) == Some(m)
    requires Staged(c, a)
    ensures Balanced(c, s, a, m)
  {
    hide Undo, AfterSend;
    var p := s.permits;
    var freed := s.(permits := p.FreeSend(c).FreePhys(true));
    match a.b
    case Page =>
      UndoKeeps(c, freed, a.l, a.owned, st.ev.Cancel?);
    case Sending =>
      AfterSendKeeps(c, s.(permits := p.FreeSend(c)), a.l, a.owned, FateOf(st.ev));
    case Closing(fate) =>
      AfterSendKeeps(c, freed, a.l, a.owned, fate);
      UndoKeeps(c, s.(permits := p.LosePage(c)), a.l, a.owned, true);
  }

  lemma PermitsHandOver(c: Cfg, s: Shared, a: Actor, st: Step, m: Move)
    requires a.Batch? && PhaseOf(a.b).HandingOver?
    requires StepHandOver(c, s, a.l, a.owned, a.b, st) == Some(m)
    requires Staged(c, a)
    ensures Balanced(c, s, a, m)
  {
    hide Lobby.ReleaseOne;
  }

  lemma PermitsSettle(c: Cfg, s: Shared, a: Actor, st: Step, m: Move)
    requires a.Settle?
    requires StepSettle(c, s, a.l, a.t, st) == Some(m)
    requires Staged(c, a)
    ensures Balanced(c, s, a, m)
  {
    hide Store.StoreQ, Store.DropQ, Store.NewQ, Lobby.ReleaseOne;
  }

  lemma PermitsPass(c: Cfg, s: Shared, a: Actor, st: Step, m: Move)
    requires a.Hold? && !Consuming(a.h)
    requires StepPass(c, s, a.p, a.k, a.h, st) == Some(m)
    requires Staged(c, a)
    ensures Balanced(c, s, a, m)
  {
    hide Store.Settled, Poll, GiveUp, PairExpired;
  }

  lemma PermitsConsume(c: Cfg, s: Shared, a: Actor, st: Step, m: Move)
    requires a.Hold? && Consuming(a.h)
    requires StepConsume(c, s, a.p, a.k, a.h, st) == Some(m)
    requires Staged(c, a)
    ensures Balanced(c, s, a, m)
  {
    hide Retire, Trip, ConsumeRecovery, CanSubmit, PairExpired, Store.Settled;
  }

  lemma PermitsLeave(c: Cfg, s: Shared, a: Actor, st: Step, m: Move)
    requires a.CLeave?
    requires StepLeave(c, s, a.k, a.dying, st) == Some(m)
    requires Staged(c, a)
    ensures Balanced(c, s, a, m)
  {
    hide Retire;
  }

  lemma PermitsLocal(c: Cfg, s: Shared, a: Actor, st: Step, m: Move)
    requires Act(c, s, a, st) == Some(m)
    requires Staged(c, a)
    ensures Balanced(c, s, a, m)
  {
    hide StepFree, StepMint, StepReserve, StepQueue, StepSend, StepHandOver, StepSettle, StepPass, StepConsume,
      StepLeave,
      Balanced;
    match a {
      case Mint(_) => PermitsMint(c, s, a, st, m);
      case Batch(_, _, b) =>
        match PhaseOf(b) {
          case Reserving => PermitsReserve(c, s, a, st, m);
          case Queueing => PermitsQueue(c, s, a, st, m);
          case Posting => PermitsSend(c, s, a, st, m);
          case HandingOver => PermitsHandOver(c, s, a, st, m);
        }
      case Settle(_, _) => PermitsSettle(c, s, a, st, m);
      case Hold(_, _, h) =>
        if Consuming(h) {
          PermitsConsume(c, s, a, st, m);
        } else {
          PermitsPass(c, s, a, st, m);
        }
      case CLeave(_, _) => PermitsLeave(c, s, a, st, m);
      case _ => PermitsFree(c, s, a, st, m);
    }
  }

  lemma PermitsStep(c: Cfg, s: Sys, st: Step, s': Sys)
    requires Next(c, s, st) == Some(s') && Conserved(c, s)
    ensures Conserved(c, s')
  {
    hide Act;
    var m := Act(c, s.shared, s.actors[st.i], st).value;
    PermitsLocal(c, s.shared, s.actors[st.i], st, m);
    StepSum(c, Phys, s.actors, st.i, m);
    StepSum(c, Send, s.actors, st.i, m);
    StepSum(c, Pend, s.actors, st.i, m);
  }
}
