/** The S, P and C workers and the background settle tasks as one step system
    (grok_register/register.py, worker loops).

    Every `await` of the source is a stage of an actor below; between two stages an actor runs
    without interruption.  A step picks any actor and one way for its await to end, so a run is
    any interleaving of any number of actors, with failures, timeouts and cancellations
    anywhere.  Foreign calls are reduced to how they end. */
module Workers {
  import opened Prelude
  import opened Slots
  import opened Stock
  import opened Admission
  import opened RegistrationCircuit

  /** The settings `main` fixes at start-up.  `sendCap` is `None` when there is no send semaphore,
      `browserMint` says that S needs a physical permit, `http` that P and C need none. */
  datatype Cfg = Cfg(
    tCap: nat, qCap: nat, pendCap: nat, sendCap: Option<nat>, physCap: nat,
    marks: Marks, maxBatch: nat, browserMint: bool, http: bool, tMaxAge: real, qMaxAge: real)

  /** How the await an actor stands at ends. */
  datatype Event =
    | Run       // normally: the permit, lock or result is there
    | Fail      // the awaited call failed, returned nothing, or raised
    | Limited   // the submission hit the rate limit page
    | Timeout   // the time limit around one consumption expired
    | Cancel    // the task was cancelled

  /** How the `try` block around sending ended, remembered while its page is being closed. */
  datatype Fate = Sent | Raised | Cancelled

  /** An S worker between the grant of its T lease and the release of it. */
  datatype Minting =
    | Physical                  // waits for a physical permit
    | Solving
    | FailRel                   // no token: releasing the lease
    | Slot(expires: real)       // has a token, waits for a T slot
    | Put(x: Item)              // owns the envelope, waits to store it
    | Notify(x: Item)           // has stored it, is in notify_changed
    | EndRel(dying: bool)       // releasing the lease on the way out of the iteration

  /** A P worker with a lease. */
  datatype Batching =
    | Acquire(want: nat)        // _acquire_many: permits still to get
    | Mailbox(left: nat)        // creating mailboxes, `left` to go
    | MailboxRel(left: nat)     // one failed: release_one
    | SendPermit                // waits for the send permit
    | PhysicalP                 // holds it, waits for a physical permit
    | Page                      // holds both, preparing a page
    | Sending                   // sending
    | Closing(fate: Fate)       // closing the page, permits still held
    | Results                   // looking at what was sent
    | ResultRel                 // an unsent one: release_one
    | UndoRel(dying: bool)      // handler: one permit given back, release_one

  /** A settle task. */
  datatype Settling =
    | PollCode
    | SlotQ(expires: real)
    | Deposit(x: Item)
    | ShareRel                  // permit given back, releasing the lease share

  /** A C worker that holds a pair. */
  datatype Holding =
    | NotifyC
    | Breaker                   // waits at the circuit breaker
    | Enter                     // entering _consume_pair
    | PhysicalC                 // waits for a physical permit
    | Verify
    | Register
    | Persist

  /** `l` is a Q lease, `owned` the worker's `pending_owned`, `k` its recovery probe. */
  datatype Actor =
    | SIdle
    | SGate                                        // acquire_t_production
    | Mint(m: Minting)
    | PIdle
    | PGate                                        // acquire_q_batch
    | PGather                                      // waits for its settle tasks
    | Batch(l: nat, owned: nat, b: Batching)
    | Settle(l: nat, t: Settling)
    | CIdle
    | CClaim                                       // claim_pair
    | Hold(p: Pair, k: Arg, h: Holding)
    | CLeave(k: Arg, dying: bool)                  // slots given back, leaving the pair lease
    | Dead

  /** The three semaphores around foreign calls.  `pendKept` counts the permits a settle task keeps
      on purpose when it is cancelled while polling; the `Lost` counters those that no code path
      will ever give back. */
  datatype Permits = Permits(
    pend: nat, send: nat, phys: nat,
    pendKept: nat, pendLost: nat, sendLost: nat, physLost: nat)
  {
    function FreePend(n: nat): Permits { this.(pend := pend + n) }

    function FreePhys(held: bool): Permits { if held then this.(phys := phys + 1) else this }

    function FreeSend(c: Cfg): Permits { if c.sendCap.Some? then this.(send := send + 1) else this }

    function LosePage(c: Cfg): Permits
    {
      this.(physLost := physLost + 1, sendLost := sendLost + if c.sendCap.Some? then 1 else 0)
    }
  }

  /** The gate and what is left of each Q lease it has granted. */
  datatype Lobby = Lobby(gate: Gate, leases: seq<nat>) {
    /** `release_one` of lease `l`. */
    function ReleaseOne(l: nat): Lobby
    {
      if l < |leases| && leases[l] > 0 then
        Lobby(gate.(qInflight := gate.qInflight - 1), leases[l := leases[l] - 1])
      else this
    }

    function EndT(): Lobby { this.(gate := gate.(tInProgress := gate.tInProgress - 1)) }
  }

  /** The inventory with the slot pools of its envelopes. */
  datatype Store = Store(tPool: Pool, qPool: Pool, shelf: Shelf, nextId: nat) {
    /** Both queues are cleaned and the expired envelopes released. */
    function Cleaned(now: real): Store
    {
      Store(tPool.ReleaseAll(Ids(Stale(shelf.t, now))),
            qPool.ReleaseAll(Ids(Stale(shelf.q, now))),
            Clean(shelf, now), nextId)
    }

    function DropT(x: Item): Store { this.(tPool := tPool.Release(x.id)) }

    function DropQ(x: Item): Store { this.(qPool := qPool.Release(x.id)) }

    function StoreT(x: Item, now: real): Store
    {
      if Expired(x, now) then DropT(x) else Cleaned(now).(shelf := PutT(shelf, x, now))
    }

    function StoreQ(x: Item, now: real): Store
    {
      if Expired(x, now) then DropQ(x) else Cleaned(now).(shelf := PutQ(shelf, x, now))
    }

    /** Leaving a pair lease. */
    function Settled(p: Pair): Store { DropT(p.t).DropQ(p.q) }

    function NewT(): Store
      requires tPool.free > 0
    {
      this.(tPool := tPool.Create(nextId), nextId := nextId + 1)
    }

    function NewQ(): Store
      requires qPool.free > 0
    {
      this.(qPool := qPool.Create(nextId), nextId := nextId + 1)
    }
  }

  datatype Shared = Shared(permits: Permits, lobby: Lobby, store: Store, circuit: Circuit)

  datatype Sys = Sys(shared: Shared, actors: seq<Actor>)

  /** The outcome of a step: the shared state, the actor's next stage, and the settle task it
      starts, if any. */
  datatype Move = Move(shared: Shared, actor: Actor, spawned: Option<Actor>)

  /** `wall` is the clock that dates resources, `mono` the one the circuit reads. */
  datatype Step = Step(i: nat, ev: Event, wall: real, mono: real)

  function To(s: Shared, a: Actor): Move { Move(s, a, None) }

  function WithPermits(s: Shared, p: Permits, a: Actor): Move { To(s.(permits := p), a) }

  function WithLobby(s: Shared, l: Lobby, a: Actor): Move { To(s.(lobby := l), a) }

  function WithStore(s: Shared, t: Store, a: Actor): Move { To(s.(store := t), a) }

  // ---------------------------------------------------------------- S worker

  function StepFree(c: Cfg, s: Shared, a: Actor, st: Step): Option<Move>
  {
    match (a, st.ev)
    case (SIdle, Run) => Some(To(s, SGate))
    case (SGate, Run) =>
      var (g, granted) := TryT(c.marks, s.lobby.gate, |s.store.shelf.t|);
      var next := if !granted then SGate else Mint(if c.browserMint then Physical else Solving);
      Some(WithLobby(s, s.lobby.(gate := g), next))
    case (PIdle, Run) => Some(To(s, PGate))
    case (PGate, Run) =>
      if c.maxBatch == 0 then Some(To(s, PIdle))
      else
        var (g, grant) := TryQ(c.marks, s.lobby.gate, |s.store.shelf.q|, c.maxBatch);
        (match grant
         case None => Some(WithLobby(s, s.lobby.(gate := g), PGate))
         case Some(n) =>
           Some(WithLobby(s, Lobby(g, s.lobby.leases + [n]),
                          Batch(|s.lobby.leases|, 0, Acquire(n)))))
    case (PGather, Run) => Some(To(s, PIdle))
    case (CIdle, Run) => Some(To(s, CClaim))
    case (CClaim, Run) =>
      var (sh, got) := TryPop(s.store.shelf, st.wall);
      Some(WithStore(s, s.store.Cleaned(st.wall).(shelf := sh),
                     if got.None? then CClaim else Hold(got.value, FalseArg, NotifyC)))
    case (_, Cancel) => if a.Dead? then None else Some(To(s, Dead))
    case _ => None
  }

  function StepMint(c: Cfg, s: Shared, m: Minting, st: Step): Option<Move>
  {
    var p := s.permits;
    match (m, st.ev)
    case (Physical, Run) =>
      if p.phys > 0 then Some(WithPermits(s, p.(phys := p.phys - 1), Mint(Solving))) else None
    case (Physical, Cancel) => Some(To(s, Mint(EndRel(true))))
    case (Solving, Run) =>
      Some(WithPermits(s, p.FreePhys(c.browserMint), Mint(Slot(st.wall + c.tMaxAge))))
    case (Solving, Fail) => Some(WithPermits(s, p.FreePhys(c.browserMint), Mint(FailRel)))
    case (Solving, Cancel) => Some(WithPermits(s, p.FreePhys(c.browserMint), Mint(EndRel(true))))
    case (FailRel, Run) => Some(WithLobby(s, s.lobby.EndT(), SIdle))
    case (FailRel, Cancel) => Some(To(s, Dead))
    case (Slot(expires), Run) =>
      if s.store.tPool.free > 0 then
        Some(WithStore(s, s.store.NewT(), Mint(Put(Item(s.store.nextId, Some(expires))))))
      else None
    case (Slot(_), Fail) => Some(To(s, Mint(EndRel(false))))
    case (Slot(_), Cancel) => Some(To(s, Mint(EndRel(true))))
    case (Put(x), Run) => Some(WithStore(s, s.store.StoreT(x, st.wall), Mint(Notify(x))))
    case (Put(x), Fail) => Some(WithStore(s, s.store.DropT(x), Mint(EndRel(false))))
    case (Put(x), Cancel) => Some(WithStore(s, s.store.DropT(x), Mint(EndRel(true))))
    case (Notify(x), Run) => Some(To(s, Mint(EndRel(false))))
    // The handler discards the envelope although `put_t` has already handed it over.
    case (Notify(x), Cancel) => Some(WithStore(s, s.store.DropT(x), Mint(EndRel(true))))
    case (EndRel(dying), Run) =>
      Some(WithLobby(s, s.lobby.EndT(), if dying then Dead else SIdle))
    // The lease's flag is already set: nobody will decrement for it any more.
    case (EndRel(_), Cancel) => Some(To(s, Dead))
    case _ => None
  }

  // ---------------------------------------------------------------- P worker

  /** The handlers of `p_worker`: give back the permits still owned, one lease share each. */
  function Undo(s: Shared, l: nat, n: nat, dying: bool): Move
  {
    if n == 0 then To(s, if dying then Dead else PIdle)
    else WithPermits(s, s.permits.FreePend(1), Batch(l, n - 1, UndoRel(dying)))
  }

  /** The loop over mailboxes, at its head. */
  function Mail(l: nat, owned: nat, left: nat): Actor
  {
    if left > 0 then Batch(l, owned, Mailbox(left))
    else if owned == 0 then PIdle
    else Batch(l, owned, SendPermit)
  }

  /** Reserving permits and creating mailboxes. */
  function StepReserve(c: Cfg, s: Shared, l: nat, owned: nat, b: Batching, st: Step): Option<Move>
  {
    var p := s.permits;
    match (b, st.ev)
    case (Acquire(want), Run) =>
      if want > 0 && p.pend > 0 then
        Some(WithPermits(s, p.(pend := p.pend - 1),
                         if want == 1 then Mail(l, owned + 1, owned + 1)
                         else Batch(l, owned + 1, Acquire(want - 1))))
      else None
    // `_acquire_many` rolls back what it has; the lease is not released.
    case (Acquire(_), Cancel) => Some(WithPermits(s, p.FreePend(owned), Dead))
    case (Mailbox(left), Run) => if left > 0 then Some(To(s, Mail(l, owned, left - 1))) else None
    case (Mailbox(left), Fail) =>
      if left > 0 && owned > 0 then
        Some(WithPermits(s, p.FreePend(1), Batch(l, owned - 1, MailboxRel(left - 1))))
      else None
    case (MailboxRel(left), Run) =>
      Some(WithLobby(s, s.lobby.ReleaseOne(l), Mail(l, owned, left)))
    case (_, Cancel) => Some(Undo(s, l, owned, true))
    case _ => None
  }

  /** After the `finally` of `_send_q_request_batch`. */
  function AfterSend(s: Shared, l: nat, owned: nat, fate: Fate): Move
  {
    match fate
    case Sent => To(s, Batch(l, owned, Results))
    case Raised => Undo(s, l, owned, false)
    case Cancelled => Undo(s, l, owned, true)
  }

  function FateOf(ev: Event): Fate
  {
    match ev
    case Run => Sent
    case Cancel => Cancelled
    case _ => Raised
  }

  /** Waiting for the permits to send (`_send_q_request_batch`). */
  function StepQueue(c: Cfg, s: Shared, l: nat, owned: nat, b: Batching, st: Step): Option<Move>
  {
    var p := s.permits;
    match (b, st.ev)
    case (SendPermit, Run) =>
      var next := Batch(l, owned, if c.http then Sending else PhysicalP);
      if c.sendCap.None? then Some(To(s, next))
      else if p.send > 0 then Some(WithPermits(s, p.(send := p.send - 1), next))
      else None
    case (SendPermit, Cancel) => Some(Undo(s, l, owned, true))
    case (PhysicalP, Run) =>
      if p.phys > 0 then Some(WithPermits(s, p.(phys := p.phys - 1), Batch(l, owned, Page)))
      else None
    case (PhysicalP, Cancel) => Some(Undo(s.(permits := p.FreeSend(c)), l, owned, true))
    case _ => None
  }

  /** Sending the batch, with the permits held. */
  function StepSend(c: Cfg, s: Shared, l: nat, owned: nat, b: Batching, st: Step): Option<Move>
  {
    var p := s.permits;
    match (b, st.ev)
    case (Page, Run) => Some(To(s, Batch(l, owned, Sending)))
    case (Page, Fail) => Some(Undo(s.(permits := p.FreeSend(c).FreePhys(true)), l, owned, false))
    case (Page, Cancel) => Some(Undo(s.(permits := p.FreeSend(c).FreePhys(true)), l, owned, true))
    case (Sending, ev) =>
      if ev.Limited? || ev.Timeout? then None
      else if c.http then Some(AfterSend(s.(permits := p.FreeSend(c)), l, owned, FateOf(ev)))
      else Some(To(s, Batch(l, owned, Closing(FateOf(ev)))))
    case (Closing(fate), Run) =>
      Some(AfterSend(s.(permits := p.FreeSend(c).FreePhys(true)), l, owned, fate))
    // The rest of the `finally` is skipped: neither permit is ever released.
    case (Closing(_), Cancel) => Some(Undo(s.(permits := p.LosePage(c)), l, owned, true))
    case _ => None
  }

  /** Handing sent items to settle tasks, and the handlers of the worker. */
  function StepHandOver(c: Cfg, s: Shared, l: nat, owned: nat, b: Batching, st: Step): Option<Move>
  {
    var p := s.permits;
    match (b, st.ev)
    case (Results, Run) =>
      // A sent item moves to a new settle task; after the last one the worker gathers.
      if owned == 0 then Some(To(s, PGather))
      else Some(Move(s, Batch(l, owned - 1, Results), Some(Settle(l, PollCode))))
    case (Results, Fail) =>
      if owned == 0 then None
      else Some(WithPermits(s, p.FreePend(1), Batch(l, owned - 1, ResultRel)))
    case (ResultRel, Run) =>
      Some(WithLobby(s, s.lobby.ReleaseOne(l), Batch(l, owned, Results)))
    case (ResultRel, Cancel) => Some(Undo(s, l, owned, true))
    case (UndoRel(dying), Run) => Some(Undo(s.(lobby := s.lobby.ReleaseOne(l)), l, owned, dying))
    // Cancelled inside its own handler: the permits still owned are lost.
    case (UndoRel(_), Cancel) =>
      Some(WithPermits(s, p.(pendLost := p.pendLost + owned), Dead))
    case _ => None
  }

  // ---------------------------------------------------------------- settle task

  function StepSettle(c: Cfg, s: Shared, l: nat, t: Settling, st: Step): Option<Move>
  {
    var done := s.(permits := s.permits.FreePend(1));
    match (t, st.ev)
    case (PollCode, Run) => Some(To(s, Settle(l, SlotQ(st.wall + c.qMaxAge))))
    case (PollCode, Fail) => Some(To(done, Settle(l, ShareRel)))
    case (PollCode, Cancel) =>
      Some(WithPermits(s, s.permits.(pendKept := s.permits.pendKept + 1), Dead))
    case (SlotQ(expires), Run) =>
      if s.store.qPool.free > 0 then
        Some(WithStore(s, s.store.NewQ(), Settle(l, Deposit(Item(s.store.nextId, Some(expires))))))
      else None
    case (SlotQ(_), Fail) => Some(To(done, Settle(l, ShareRel)))
    case (SlotQ(_), Cancel) => Some(To(done, Settle(l, ShareRel)))
    case (Deposit(x), Run) => Some(WithStore(done, s.store.StoreQ(x, st.wall), Settle(l, ShareRel)))
    case (Deposit(x), Fail) => Some(WithStore(done, s.store.DropQ(x), Settle(l, ShareRel)))
    case (Deposit(x), Cancel) => Some(WithStore(done, s.store.DropQ(x), Settle(l, ShareRel)))
    case (ShareRel, Run) => Some(WithLobby(s, s.lobby.ReleaseOne(l), Dead))
    case (ShareRel, Cancel) => Some(To(s, Dead))
    case _ => None
  }

  // ---------------------------------------------------------------- C worker

  predicate PairExpired(p: Pair, wall: real) { Expired(p.t, wall) || Expired(p.q, wall) }

  /** What `wait` returns to a worker it lets through. */
  function Admitted(d: Decision): Arg
  {
    match d
    case Grant(token) => Token(token)
    case _ => FalseArg
  }

  /** `if recovery_probe:` guards the calls that retire a probe. */
  function Retire(c: Circuit, k: Arg, mono: real): Circuit
  {
    if k.Token? then DeferProbe(c, k, mono) else c
  }

  function GiveUp(c: Circuit, k: Arg): Circuit { if k.Token? then ReleaseProbe(c, k) else c }

  /** Leaving the consumption and then the pair lease; `d` is the circuit afterwards. */
  function Leave(s: Shared, d: Circuit, p: Pair, k: Arg, phys: bool, dying: bool): Move
  {
    To(s.(circuit := d, permits := s.permits.FreePhys(phys), store := s.store.Settled(p)),
       CLeave(k, dying))
  }

  /** From the claim to the beginning of the consumption. */
  function StepPass(c: Cfg, s: Shared, p: Pair, k: Arg, h: Holding, st: Step): Option<Move>
  {
    var dying := st.ev.Cancel?;
    match (h, st.ev)
    case (NotifyC, Run) => Some(To(s, Hold(p, k, Breaker)))
    case (NotifyC, Cancel) => Some(Leave(s, s.circuit, p, k, false, true))
    case (Breaker, Run) =>
      var (d, decision) := Poll(s.circuit, st.mono);
      var got := Admitted(decision);
      if decision.Sleep? then Some(To(s.(circuit := d), Hold(p, k, Breaker)))
      else if PairExpired(p, st.wall) then
        Some(Leave(s, GiveUp(d, got), p, FalseArg, false, false))
      else Some(To(s.(circuit := d), Hold(p, got, Enter)))
    case (Breaker, Cancel) => Some(Leave(s, s.circuit, p, k, false, true))
    case (Enter, Run) =>
      if PairExpired(p, st.wall) then Some(Leave(s, GiveUp(s.circuit, k), p, k, false, false))
      else Some(To(s, Hold(p, k, if c.http then Verify else PhysicalC)))
    // The consumption has not begun: only the worker's own `finally` will retire the probe.
    case (Enter, Cancel) => Some(Leave(s, s.circuit, p, k, false, true))
    case (Enter, Timeout) => Some(Leave(s, s.circuit, p, k, false, false))
    case _ => None
  }

  /** The consumption itself (`_consume_pair`). */
  function StepConsume(c: Cfg, s: Shared, p: Pair, k: Arg, h: Holding, st: Step): Option<Move>
  {
    var aborted :=
      Leave(s, Retire(s.circuit, k, st.mono), p, k, !c.http && !h.PhysicalC?, st.ev.Cancel?);
    match (h, st.ev)
    case (PhysicalC, Run) =>
      if s.permits.phys > 0 then
        Some(WithPermits(s, s.permits.(phys := s.permits.phys - 1), Hold(p, k, Verify)))
      else None
    case (Verify, Run) =>
      if !PairExpired(p, st.wall) && CanSubmit(s.circuit, k, st.mono) then
        Some(To(s, Hold(p, k, Register)))
      else Some(aborted)
    case (Register, Run) => Some(To(s, Hold(p, k, Persist)))
    case (Register, Limited) =>
      var d := Retire(Trip(s.circuit, st.mono), k, st.mono);
      Some(Leave(s, d, p, k, !c.http, false))
    case (Persist, Run) =>
      var d := if k.Token? then ConsumeRecovery(s.circuit, k, st.mono).0 else s.circuit;
      Some(Leave(s, d, p, k, !c.http, false))
    case (PhysicalC, Fail) => None
    case (_, Limited) => None
    case (_, _) => Some(aborted)
  }

  /** The end of an iteration of `c_worker`. */
  function StepLeave(c: Cfg, s: Shared, k: Arg, dying: bool, st: Step): Option<Move>
  {
    if st.ev.Run? || st.ev.Cancel? then
      Some(To(s.(circuit := Retire(s.circuit, k, st.mono)),
              if dying || st.ev.Cancel? then Dead else CIdle))
    else None
  }

  // ---------------------------------------------------------------- the whole system

  datatype Phase = Reserving | Queueing | Posting | HandingOver

  /** Which part of a P worker's iteration a stage belongs to. */
  function PhaseOf(b: Batching): Phase
  {
    match b
    case Acquire(_) => Reserving
    case Mailbox(_) => Reserving
    case MailboxRel(_) => Reserving
    case SendPermit => Queueing
    case PhysicalP => Queueing
    case Results => HandingOver
    case ResultRel => HandingOver
    case UndoRel(_) => HandingOver
    case _ => Posting
  }

  predicate Consuming(h: Holding) { h.PhysicalC? || h.Verify? || h.Register? || h.Persist? }

  function Act(c: Cfg, s: Shared, a: Actor, st: Step): Option<Move>
  {
    match a
    case Mint(m) => StepMint(c, s, m, st)
    case Batch(l, owned, b) =>
      (match PhaseOf(b)
       case Reserving => StepReserve(c, s, l, owned, b, st)
       case Queueing => StepQueue(c, s, l, owned, b, st)
       case Posting => StepSend(c, s, l, owned, b, st)
       case HandingOver => StepHandOver(c, s, l, owned, b, st))
    case Settle(l, t) => StepSettle(c, s, l, t, st)
    case Hold(p, k, h) =>
      if Consuming(h) then StepConsume(c, s, p, k, h, st) else StepPass(c, s, p, k, h, st)
    case CLeave(k, dying) => StepLeave(c, s, k, dying, st)
    case _ => StepFree(c, s, a, st)
  }

  function Next(c: Cfg, s: Sys, st: Step): Option<Sys>
  {
    if st.i >= |s.actors| then None
    else
      match Act(c, s.shared, s.actors[st.i], st)
      case None => None
      case Some(m) => Some(Sys(m.shared, Joined(s.actors[st.i := m.actor], m.spawned)))
  }

  function Joined(actors: seq<Actor>, spawned: Option<Actor>): seq<Actor>
  {
    if spawned.Some? then actors + [spawned.value] else actors
  }

  /** `None` when some step of the run is not possible where it is taken. */
  function Exec(c: Cfg, s: Sys, run: seq<Step>): Option<Sys>
    decreases |run|
  {
    if run == [] then Some(s)
    else
      var n := Next(c, s, run[0]);
      if n.None? then None else Exec(c, n.value, run[1..])
  }

  function Start(c: Cfg, breaker: Circuit, sWorkers: nat, pWorkers: nat, cWorkers: nat): Sys
  {
    Sys(Shared(
          Permits(c.pendCap, if c.sendCap.Some? then c.sendCap.value else 0, c.physCap, 0, 0, 0, 0),
          Lobby(IDLE_GATE, []),
          Store(Pool(c.tCap, {}), Pool(c.qCap, {}), Shelf([], []), 0),
          breaker),
        seq(sWorkers, _ => SIdle) + seq(pWorkers, _ => PIdle) + seq(cWorkers, _ => CIdle))
  }
}
