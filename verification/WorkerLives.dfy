/** The life of a worker: when it ends, in which order it does its work, and the dates of what it makes. */
module WorkerLives {
  import opened Prelude
  import opened Slots
  import opened Stock
  import opened Admission
  import opened RegistrationCircuit
  import opened Workers
  import opened WorkerWeights
  import opened WorkerTheorems

  // ---------------------------------------------------------------- when a worker ends

  /** The worker has been cancelled and is on its way out, or has ended. */
  predicate Dying(a: Actor)
  {
    match a
    case Dead => true
    case Mint(m) => m.EndRel? && m.dying
    case Batch(_, _, b) => (b.UndoRel? && b.dying) || (b.Closing? && b.fate.Cancelled?)
    case CLeave(_, dying) => dying
    case _ => false
  }

  lemma BatchEnds(c: Cfg, s: Shared, a: Actor, st: Step, m: Move)
    requires a.Batch? && Act(c, s, a, st) == Some(m)
    ensures Dying(m.actor) <==> Dying(a) || st.ev.Cancel?
  {
    hide Lobby.ReleaseOne;
    match PhaseOf(a.b) {
      case Reserving =>
      case Queueing =>
      case Posting =>
      case HandingOver =>
    }
  }

  lemma HoldEnds(c: Cfg, s: Shared, a: Actor, st: Step, m: Move)
    requires (a.Hold? || a.CLeave?) && Act(c, s, a, st) == Some(m)
    ensures Dying(m.actor) <==> Dying(a) || st.ev.Cancel?
  {
    hide Store.Settled, Poll, Retire, Trip, ConsumeRecovery, CanSubmit, PairExpired, GiveUp;
  }

  lemma MintEnds(c: Cfg, s: Shared, a: Actor, st: Step, m: Move)
    requires a.Mint? && Act(c, s, a, st) == Some(m)
    ensures Dying(m.actor) <==> Dying(a) || st.ev.Cancel?
  {
    hide Store.StoreT, Store.DropT, Store.NewT;
  }

  /** A worker ends if and only if it has been cancelled: whatever else goes wrong, it goes on with its loop; and
      once cancelled, it does nothing but give back what it holds. */
  lemma EndsIffCancelled(c: Cfg, s: Sys, st: Step, s': Sys)
    requires Next(c, s, st) == Some(s') && !s.actors[st.i].Settle?
    ensures Dying(s'.actors[st.i]) <==> Dying(s.actors[st.i]) || st.ev.Cancel?
  {
    hide StepMint, StepReserve, StepQueue, StepSend, StepHandOver, StepPass, StepConsume, StepLeave, TryT, TryQ, TryPop,
      Store.Cleaned;
    var a := s.actors[st.i];
    var m := Act(c, s.shared, a, st).value;
    match a {
      case Mint(_) =>
        MintEnds(c, s.shared, a, st, m);
      case Batch(_, _, _) =>
        BatchEnds(c, s.shared, a, st, m);
      case Hold(_, _, _) =>
        HoldEnds(c, s.shared, a, st, m);
      case CLeave(_, _) =>
        HoldEnds(c, s.shared, a, st, m);
      case _ =>
    }
  }

  // ---------------------------------------------------------------- C workers

  /** A consumption goes through its stages in their order: past the breaker with a pair that is valid and with
      just the token that was granted; begun with a pair that is valid; submitted with one that is valid still,
      if the circuit allows it; stored after the submission. The pair stays the same throughout. */
  lemma ConsumptionInOrder(c: Cfg, s: Sys, st: Step, s': Sys)
    requires Next(c, s, st) == Some(s') && s.actors[st.i].Hold? && s'.actors[st.i].Hold?
    requires s'.actors[st.i] != s.actors[st.i]
    ensures var (a, a') := (s.actors[st.i], s'.actors[st.i]);
            && st.ev.Run? && a'.p == a.p && (!a.h.Breaker? ==> a'.k == a.k)
            && match a'.h {
                 case NotifyC => false
                 case Breaker => a.h.NotifyC?
                 case Enter =>
                   var decision := Poll(s.shared.circuit, st.mono).1;
                   && a.h.Breaker? && !PairExpired(a.p, st.wall) && !decision.Sleep?
                   && a'.k == if decision.Grant? then Token(decision.token) else FalseArg
                 case PhysicalC => a.h.Enter? && !PairExpired(a.p, st.wall) && !c.http
                 case Verify => a.h.PhysicalC? || (c.http && a.h.Enter? && !PairExpired(a.p, st.wall))
                 case Register =>
                   a.h.Verify? && !PairExpired(a.p, st.wall) && CanSubmit(s.shared.circuit, a.k, st.mono)
                 case Persist => a.h.Register?
               }
  {
    hide Poll, CanSubmit, PairExpired, Store.Settled, Retire, Trip, ConsumeRecovery, GiveUp;
  }

  /** A pair is claimed from the clean stock, its oldest T with its oldest Q, with no token; nothing else makes a
      worker hold one. */
  lemma ClaimedFromStock(c: Cfg, s: Sys, st: Step, s': Sys)
    requires Next(c, s, st) == Some(s') && !s.actors[st.i].Hold? && s'.actors[st.i].Hold?
    ensures var (a', sh) := (s'.actors[st.i], Clean(s.shared.store.shelf, st.wall));
            && s.actors[st.i].CClaim? && st.ev.Run? && a'.h.NotifyC? && a'.k.FalseArg?
            && sh.t != [] && sh.q != [] && a'.p == Pair(sh.t[0], sh.q[0])
            && s'.shared.store.shelf == Shelf(sh.t[1..], sh.q[1..])
  {
    hide Clean, Store.Settled, Lobby.ReleaseOne, Poll, Retire, Trip, ConsumeRecovery, CanSubmit, PairExpired,
      GiveUp, Store.StoreT, Store.StoreQ, TryT, TryQ;
    match s.actors[st.i] {
      case Batch(_, _, b) =>
        match PhaseOf(b) {
          case Reserving =>
          case Queueing =>
          case Posting =>
          case HandingOver =>
        }
      case _ =>
    }
  }

  // ---------------------------------------------------------------- P workers

  /** A batch gets a permit for every request of its lease, then tries one mailbox after the other for each of
      the permits; when all have been tried and one at least has come, it sends, and goes on with the results if
      and only if the sending has succeeded; each request sent gets one settle task of its own. A batch that
      fails gives back what it owns, one after the other, and the worker starts again. */
  lemma BatchInOrder(c: Cfg, s: Sys, st: Step, s': Sys)
    requires Next(c, s, st) == Some(s') && s.actors[st.i].Batch? && !Dying(s.actors[st.i]) && !st.ev.Cancel?
    ensures var (a, a') := (s.actors[st.i], s'.actors[st.i]);
            && (!(a.b.Results? && st.ev.Run? && a.owned > 0) ==> s'.actors == s.actors[st.i := a'])
            && match a.b {
              case Acquire(want) =>
                st.ev.Run? && a'.Batch? && a'.l == a.l && a'.owned == a.owned + 1
                && a'.b == if want == 1 then Mailbox(a.owned + 1) else Acquire(want - 1)
              case Mailbox(left) =>
                if st.ev.Run? then Tried(a', a.l, a.owned, left - 1)
                else st.ev.Fail? && a.owned > 0 && a' == Batch(a.l, a.owned - 1, MailboxRel(left - 1))
              case MailboxRel(left) => st.ev.Run? && Tried(a', a.l, a.owned, left)
              case SendPermit => st.ev.Run? && a' == Batch(a.l, a.owned, if c.http then Sending else PhysicalP)
              case PhysicalP => st.ev.Run? && a' == Batch(a.l, a.owned, Page)
              case Page => if st.ev.Run? then a' == Batch(a.l, a.owned, Sending) else st.ev.Fail? && Undone(a', a)
              case Sending =>
                if !c.http then a' == Batch(a.l, a.owned, Closing(if st.ev.Run? then Sent else Raised))
                else if st.ev.Run? then a' == Batch(a.l, a.owned, Results) else Undone(a', a)
              case Closing(fate) =>
                st.ev.Run? && if fate.Sent? then a' == Batch(a.l, a.owned, Results) else Undone(a', a)
              case Results =>
                if a.owned == 0 then st.ev.Run? && a' == PGather
                else if st.ev.Run? then
                  && a' == Batch(a.l, a.owned - 1, Results)
                  && s'.actors == s.actors[st.i := a'] + [Settle(a.l, PollCode)]
                else st.ev.Fail? && a' == Batch(a.l, a.owned - 1, ResultRel)
              case ResultRel => st.ev.Run? && a' == Batch(a.l, a.owned, Results)
              case UndoRel(_) => st.ev.Run? && Undone(a', a)
            }
  {
    hide Lobby.ReleaseOne;
  }

  /** After a mailbox has been tried: the next one, or sending, or, with nothing to send, another round. */
  predicate Tried(a: Actor, l: nat, owned: nat, left: int)
  {
    if left > 0 then a == Batch(l, owned, Mailbox(left))
    else if owned > 0 then a == Batch(l, owned, SendPermit)
    else a == PIdle
  }

  /** One permit less is owned, its share about to be released; with none left, another round. */
  predicate Undone(a': Actor, a: Actor)
    requires a.Batch?
  {
    if a.owned == 0 then a' == PIdle else a' == Batch(a.l, a.owned - 1, UndoRel(false))
  }

  // ---------------------------------------------------------------- S workers and settle tasks

  /** An S worker solves under its lease, and a physical permit if the browser solves; with a token it waits for a
      slot, stores its T, tells the others, and gives the lease back; without one it gives the lease back. */
  lemma MintInOrder(c: Cfg, s: Sys, st: Step, s': Sys)
    requires Next(c, s, st) == Some(s') && s.actors[st.i].Mint? && !Dying(s.actors[st.i]) && !st.ev.Cancel?
    ensures var a' := s'.actors[st.i];
            match s.actors[st.i].m {
              case Physical => st.ev.Run? && a' == Mint(Solving)
              case Solving =>
                if st.ev.Run? then a' == Mint(Slot(st.wall + c.tMaxAge)) else st.ev.Fail? && a' == Mint(FailRel)
              case FailRel => st.ev.Run? && a' == SIdle
              case Slot(expires) =>
                if st.ev.Run? then a' == Mint(Put(Item(s.shared.store.nextId, Some(expires))))
                else st.ev.Fail? && a' == Mint(EndRel(false))
              case Put(x) => if st.ev.Run? then a' == Mint(Notify(x)) else st.ev.Fail? && a' == Mint(EndRel(false))
              case Notify(_) => st.ev.Run? && a' == Mint(EndRel(false))
              case EndRel(_) => st.ev.Run? && a' == SIdle
            }
  {
    hide Store.StoreT, Store.DropT, Store.NewT;
  }

  /** A settle task polls, waits for a slot, stores its Q and releases its share; it gives up, releasing its share
      too, when there is no code, no slot or no room, and at once when it is cancelled while polling. */
  lemma SettleInOrder(c: Cfg, s: Sys, st: Step, s': Sys)
    requires Next(c, s, st) == Some(s') && s.actors[st.i].Settle?
    ensures var (l, a') := (s.actors[st.i].l, s'.actors[st.i]);
            match s.actors[st.i].t {
              case PollCode =>
                if st.ev.Run? then a' == Settle(l, SlotQ(st.wall + c.qMaxAge))
                else a' == if st.ev.Cancel? then Dead else Settle(l, ShareRel)
              case SlotQ(expires) =>
                a' == Settle(l, if st.ev.Run? then Deposit(Item(s.shared.store.nextId, Some(expires))) else ShareRel)
              case Deposit(_) => a' == Settle(l, ShareRel)
              case ShareRel => a' == Dead
            }
  {
    hide Store.StoreQ, Store.DropQ, Store.NewQ, Lobby.ReleaseOne;
  }

  // ---------------------------------------------------------------- the stock

  /** What is stored goes behind the clean stock, unless it has expired; a claim takes both heads of the clean
      stock or neither. No other step touches the stock. */
  lemma StockMoves(c: Cfg, s: Sys, st: Step, s': Sys)
    requires Next(c, s, st) == Some(s')
    ensures var (a, sh, sh') := (s.actors[st.i], s.shared.store.shelf, s'.shared.store.shelf);
            var t, q := Fresh(sh.t, st.wall), Fresh(sh.q, st.wall);
            if !st.ev.Run? then sh' == sh
            else if a.Mint? && a.m.Put? && !Expired(a.m.x, st.wall) then sh' == Shelf(t + [a.m.x], q)
            else if a.Settle? && a.t.Deposit? && !Expired(a.t.x, st.wall) then sh' == Shelf(t, q + [a.t.x])
            else if a.CClaim? then sh' == if t != [] && q != [] then Shelf(t[1..], q[1..]) else Shelf(t, q)
            else sh' == sh
  {
    hide Fresh, Stale, Pool.ReleaseAll, Lobby.ReleaseOne, Poll, Retire, Trip, ConsumeRecovery, CanSubmit, PairExpired,
      GiveUp, TryT, TryQ, Expired;
    match s.actors[st.i] {
      case Batch(_, _, b) =>
        match PhaseOf(b) {
          case Reserving =>
          case Queueing =>
          case Posting =>
          case HandingOver =>
        }
      case _ =>
    }
  }
}
