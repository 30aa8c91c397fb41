/** What holds of every run of the pipeline, over any number of restarts, crashes, operator cancels and
    shutdowns. */
module PipelineTheorems {
  import opened Prelude
  import L = LedgerBook
  import G = RateGate
  import P = Pacing
  import opened Pipeline
  import opened PipelinePlaces
  import opened PipelineRows
  import opened PipelineImports
  import opened PipelineHistory
  import opened PipelineGate
  import opened PipelineQueues

  ghost predicate Inv(s: Sys)
  {
    && (forall fp :: Own(s, fp) && Imports(s, fp) && Budget(s, fp))
    && (forall id :: RowHeld(s, id))
    && Named(s.book.jobs, s.at) && Gated(s) && OnPace(s) && Queues(s)
  }

  lemma InvLaunch(base: real, interval: real, start: real)
    ensures Inv(Launch(base, interval, start))
  {
    var past := Past([], [], [], [], [], [], map[], map[]);
    var s := Launch(base, interval, start);
    assert s.book.jobs == [];
    forall fp
      ensures Own(s, fp) && Imports(s, fp) && Budget(s, fp)
    {
      OwnBooted(L.Blankbook, past, base, interval, start, fp);
    }
    forall id
      ensures RowHeld(s, id)
    {
      NoneHeld(s.at, id);
    }
  }

  lemma InvStep(s: Sys, e: Event)
    requires Inv(s)
    ensures Inv(Step(s, e))
  {
    hide Own, Imports, Budget, RowHeld, Named, Gated, OnPace, Queues, Step;
    forall fp
      ensures Own(Step(s, e), fp) && Imports(Step(s, e), fp) && Budget(Step(s, e), fp)
    {
      OwnStep(s, e, fp);
      ImportsStep(s, e, fp);
      BudgetStep(s, e, fp);
    }
    forall id
      ensures RowHeld(Step(s, e), id)
    {
      RowStep(s, e, id);
    }
    NamedStep(s, e);
    GatedStep(s, e);
    PacedStep(s, e);
    QueuesStep(s, e);
  }

  lemma {:induction false} InvRun(s: Sys, es: seq<Event>)
    requires Inv(s)
    ensures Inv(Run(s, es))
    decreases |es|
  {
    if es != [] {
      hide Inv, Step;
      InvStep(s, es[0]);
      InvRun(Step(s, es[0]), es[1..]);
    }
  }

  /** A state that some run reaches. */
  ghost predicate Reachable(s: Sys)
  {
    exists base: real, interval: real, start: real, es: seq<Event> :: Run(Launch(base, interval, start), es) == s
  }

  lemma ReachableInv(s: Sys)
    requires Reachable(s)
    ensures Inv(s)
  {
    hide Inv, Run, Launch;
    var base, interval, start, es :| Run(Launch(base, interval, start), es) == s;
    InvLaunch(base, interval, start);
    InvRun(Launch(base, interval, start), es);
  }

  // ---------------------------------------------------------------- single ownership

  /** The number of places that a source is in, whatever they stand for. */
  function Everywhere(at: Places, fp: string): nat
  {
    Spot(at, fp, Queued) + Spot(at, fp, Prepared) + Spot(at, fp, Active) + Spot(at, fp, RetryWaiting)
  }

  /** A source is never in two places, and in none when it is unknown, imported or terminal. While the
      process runs it is in exactly one if it is queued, prepared, active or waiting for a retry, and
      that place goes with its state. */
  lemma SingleOwnership(s: Sys, fp: string)
    requires Reachable(s)
    ensures Everywhere(s.at, fp) <= 1
    ensures !LiveIn(s.mem, fp) ==> Everywhere(s.at, fp) == 0
    ensures !s.flags.stopping && LiveIn(s.mem, fp) ==>
              Everywhere(s.at, fp) == 1 && Spot(s.at, fp, s.mem.states[fp]) == 1
  {
    ReachableInv(s);
    assert Own(s, fp);
    hide Spot;
    assert Spot(s.at, fp, Queued) <= One(InState(s.mem, fp, Queued));
    assert Spot(s.at, fp, Prepared) <= One(InState(s.mem, fp, Prepared));
    assert Spot(s.at, fp, Active) <= One(InState(s.mem, fp, Active));
    assert Spot(s.at, fp, RetryWaiting) <= One(InState(s.mem, fp, RetryWaiting));
    if LiveIn(s.mem, fp) {
      var k := s.mem.states[fp];
      assert !s.flags.stopping ==> Spot(s.at, fp, k) == One(Live(k) && InState(s.mem, fp, k));
    }
  }

  /** Every pending row is held by exactly one place, under the name of its source, while the process
      runs; no finished row is held. */
  lemma PendingRowsHeld(s: Sys, id: nat)
    requires Reachable(s)
    ensures Held(s.at, id) <= 1
    ensures !L.IsPending(s.book.jobs, id) ==> Held(s.at, id) == 0
    ensures !s.flags.stopping && L.IsPending(s.book.jobs, id) ==> Held(s.at, id) == 1
    ensures Named(s.book.jobs, s.at)
  {
    ReachableInv(s);
    assert RowHeld(s, id);
  }

  // ---------------------------------------------------------------- imports

  /** Over all restarts, crashes, cancels and shutdowns this pipeline imports a source at most once; so
      with no other writer at most one job row of a source is ever imported. */
  lemma ImportedOnce(s: Sys, fp: string)
    requires Reachable(s)
    ensures Count(s.past.imports, fp) <= 1
    ensures ImportedRows(s.book.jobs, fp) == Count(s.past.imports, fp) + Count(s.past.outside, fp)
    ensures fp !in s.past.outside ==> ImportedRows(s.book.jobs, fp) <= 1
    ensures fp in s.past.imports ==> InState(s.mem, fp, Imported) && Everywhere(s.at, fp) == 0
  {
    ReachableInv(s);
    assert Imports(s, fp);
    NotCounted(s.past.outside, fp);
    NotCounted(s.past.imports, fp);
    SingleOwnership(s, fp);
  }

  lemma {:induction false} NotCounted(q: seq<string>, fp: string)
    ensures Count(q, fp) == 0 <==> fp !in q
    decreases |q|
  {
    if q != [] {
      NotCounted(q[1..], fp);
      assert q == [q[0]] + q[1..];
    }
  }

  /** Sink and ledger agree exactly: the credentials that the sink has written are the commits, one in
      progress, those that the death of the process cut and those that a second cancellation cut. Every written
      credential has its one imported row or is being committed if and only if there are none of the last two. */
  lemma CommitIsWhole(s: Sys, fp: string)
    requires Reachable(s)
    ensures Count(s.past.sunk, fp) == Count(s.past.imports, fp) + Storing(s.at.comp, fp) + Count(s.past.cut, fp)
                                      + Count(s.past.severed, fp)
    ensures Count(s.past.sunk, fp) == Count(s.past.imports, fp) + Storing(s.at.comp, fp) <==>
              fp !in s.past.cut && fp !in s.past.severed
    ensures Count(s.past.imports, fp) + Storing(s.at.comp, fp) <= 1
  {
    ReachableInv(s);
    assert Imports(s, fp);
    NotCounted(s.past.cut, fp);
    NotCounted(s.past.severed, fp);
    if s.at.comp.CStored? && s.at.comp.job.fp == fp {
      CommitsOnce(s, fp);
    }
  }

  /** A source that is being committed has not been imported. */
  lemma CommitsOnce(s: Sys, fp: string)
    requires Inv(s) && s.at.comp.CStored? && s.at.comp.job.fp == fp
    ensures Count(s.past.imports, fp) == 0
  {
    assert Own(s, fp) && Imports(s, fp) && RowHeld(s, s.at.comp.job.id);
    hide Own, RowHeld, Named, Count;
    StoredFacts(s);
  }

  predicate StoreOn(s: Sys) { s.at.comp.CStore? || s.at.comp.CStored? }

  /** The event delivers a cancellation to the task of the store under way. A request that finds the store
      done behind its shield is delivered with the resumption, and further ones then add nothing. */
  predicate Delivers(s: Sys, e: Event)
  {
    && e == EComp(StoreCancelled) && s.flags.stopping && !s.flags.settled
    && (s.at.comp.CStore? || (s.at.comp.CStored? && (s.at.comp.bare || !s.at.comp.cancelled)))
  }

  /** From the start of the store to the commit, whatever else happens, the task keeps its source and its
      pending row, and the shutdown cannot finish: the first cancellation is only noted, and only a second
      one ends the task. */
  lemma StoreIsNotCut(s: Sys, e: Event)
    requires Reachable(s) && StoreOn(s)
    requires !(e.EControl? && e.control.Boot?) && !(Delivers(s, e) && Severs(s.at.comp))
    requires !(e.EComp? && (e.comp.StoreFailed? || e.comp.Sunk? || e.comp.Commit?))
    ensures var t := Step(s, e);
            && StoreOn(t) && t.at.comp.CStore? == s.at.comp.CStore?
            && t.at.comp.job == s.at.comp.job
            && (s.at.comp.CStored? ==> t.at.comp.receipt == s.at.comp.receipt && t.at.comp.bare == s.at.comp.bare)
            && (s.at.comp.cancelled ==> t.at.comp.cancelled)
            && L.IsPending(t.book.jobs, s.at.comp.job.id)
    ensures e == EControl(Settle) ==> Step(s, e) == s
  {
    ReachableInv(s);
    NotDoomed(s);
    hide Inv, SourceStep, PrepStep, AuthStep;
    var t := Step(s, e);
    StoreKept(s, e);
    InvStep(s, e);
    HeldIsPending(t);
  }

  lemma StoreKept(s: Sys, e: Event)
    requires StoreOn(s) && !s.flags.compDoomed && !s.flags.settled
    requires !(e.EControl? && e.control.Boot?) && !(Delivers(s, e) && Severs(s.at.comp))
    requires !(e.EComp? && (e.comp.StoreFailed? || e.comp.Sunk? || e.comp.Commit?))
    ensures var t := Step(s, e);
            && StoreOn(t) && t.at.comp.CStore? == s.at.comp.CStore?
            && t.at.comp.job == s.at.comp.job
            && (s.at.comp.CStored? ==> t.at.comp.receipt == s.at.comp.receipt && t.at.comp.bare == s.at.comp.bare)
            && (s.at.comp.cancelled ==> t.at.comp.cancelled)
            && Taken(t.at.comp) == Taken(s.at.comp) + One(Delivers(s, e))
  {
    hide SourceStep, PrepStep, AuthStep, L.Finish, L.StartJob, G.Apply, Settled;
    match e
    case ESource(x) => QuietSource(s, x);
    case EPrep(x) => QuietPrep(s, x);
    case EAuth(x) => QuietAuth(s, x);
    case EComp(x) =>
    case EControl(x) =>
  }

  /** The cancellations delivered so far to the store under way. */
  function Taken(c: Comp): nat
  {
    if c.CStore? then One(c.cancelled) else if c.CStored? then One(c.bare || c.cancelled) else 0
  }

  // ---------------------------------------------------------------- when a store comes to its own outcome

  /** The store under way at the start of the run ends with its last event. */
  predicate StoreEndsWith(s: Sys, es: seq<Event>)
    decreases |es|
  {
    && es != [] && StoreOn(s)
    && if |es| == 1 then !StoreOn(Step(s, es[0]))
       else StoreOn(Step(s, es[0])) && StoreEndsWith(Step(s, es[0]), es[1..])
  }

  /** The cancellations delivered in the run to the store under way at its start. */
  function Deliveries(s: Sys, es: seq<Event>): nat
    decreases |es|
  {
    if es == [] || !StoreOn(s) then 0
    else One(Delivers(s, es[0])) + Deliveries(Step(s, es[0]), es[1..])
  }

  /** One event of a store: it goes on with the same job; or it comes to its own outcome, and its row is
      finished; or a second cancellation ends its task and leaves its row pending. */
  lemma StoreStep(s: Sys, e: Event)
    requires Inv(s) && StoreOn(s) && !(e.EControl? && e.control.Boot?)
    ensures var (t, id) := (Step(s, e), s.at.comp.job.id);
            if StoreOn(t) then
              t.at.comp.job == s.at.comp.job && Taken(t.at.comp) == Taken(s.at.comp) + One(Delivers(s, e))
            else if L.IsPending(t.book.jobs, id) then
              Delivers(s, e) && Taken(s.at.comp) == 1 && t.at.comp.CDead?
            else !Delivers(s, e)
  {
    var id := s.at.comp.job.id;
    HeldIsPending(s);
    NotDoomed(s);
    hide Inv;
    if e.EComp? && (e.comp.StoreFailed? || e.comp.Sunk? || e.comp.Commit?) {
      StoreOutcome(s, e.comp);
    } else if Delivers(s, e) && Severs(s.at.comp) {
      hide L.IsPending;
    } else {
      StoreKept(s, e);
    }
  }

  lemma NotDoomed(s: Sys)
    requires Inv(s) && StoreOn(s)
    ensures !s.flags.compDoomed && !s.flags.settled
  {
  }

  lemma StoreOutcome(s: Sys, e: CompEvent)
    requires StoreOn(s) && L.IsPending(s.book.jobs, s.at.comp.job.id) && !s.flags.compDoomed
    requires e.StoreFailed? || e.Sunk? || e.Commit?
    ensures var t := CompStep(s, e);
            if StoreOn(t) then t.at.comp.job == s.at.comp.job && Taken(t.at.comp) == Taken(s.at.comp)
            else !L.IsPending(t.book.jobs, s.at.comp.job.id)
  {
    hide L.Finish, L.IsPending, Fail;
    var c := s.at.comp;
    var now := s.clock.Floor;
    FailBook(s, c.job, L.SinkFailed, "sink_failed", Transient);
    FinishPends(s.book, c.job.id, L.SinkFailed, "sink_failed", None, now, c.job.id);
    if c.CStored? {
      FinishPends(s.book, c.job.id, L.Imported, "imported", Some(c.receipt), now, c.job.id);
    }
  }

  lemma {:induction false} StoreOutcomeFrom(s: Sys, es: seq<Event>)
    requires Inv(s) && StoreEndsWith(s, es)
    requires forall i | 0 <= i < |es| :: !(es[i].EControl? && es[i].control.Boot?)
    ensures var t := Run(s, es);
            && !StoreOn(t) && Taken(s.at.comp) + Deliveries(s, es) <= 2
            && (L.IsPending(t.book.jobs, s.at.comp.job.id) <==> Taken(s.at.comp) + Deliveries(s, es) == 2)
            && (L.IsPending(t.book.jobs, s.at.comp.job.id) ==> t.at.comp.CDead?)
    decreases |es|
  {
    hide Inv, Step, Delivers, L.IsPending;
    var t := Step(s, es[0]);
    StoreStep(s, es[0]);
    if |es| == 1 {
      assert es[1..] == [] && Run(t, es[1..]) == t;
      TakenAtMostOne(s.at.comp);
    } else {
      InvStep(s, es[0]);
      StoreOutcomeFrom(t, es[1..]);
    }
  }

  lemma TakenAtMostOne(c: Comp)
    ensures Taken(c) <= 1
  {
  }

  /** While the process lives, a store that has begun comes to its own outcome, which finishes its row as
      imported or failed, if and only if at most one cancellation is delivered to its task between its
      start and its end; a second one ends the task with the row still pending. */
  lemma StoreOutcomeIff(s: Sys, es: seq<Event>)
    requires Reachable(s) && s.at.comp.CStore? && !s.at.comp.cancelled && StoreEndsWith(s, es)
    requires forall i | 0 <= i < |es| :: !(es[i].EControl? && es[i].control.Boot?)
    ensures var (t, id) := (Run(s, es), s.at.comp.job.id);
            && (!L.IsPending(t.book.jobs, id) <==> Deliveries(s, es) <= 1)
            && (L.IsPending(t.book.jobs, id) ==> t.at.comp.CDead?)
  {
    ReachableInv(s);
    StoreOutcomeFrom(s, es);
  }

  lemma HeldIsPending(s: Sys)
    requires Inv(s) && CompHolds(s.at.comp)
    ensures L.IsPending(s.book.jobs, s.at.comp.job.id)
  {
    hide QueueId, PrepId, AuthId, L.IsPending;
    assert RowHeld(s, s.at.comp.job.id);
  }

  // ---------------------------------------------------------------- rows and shutdown

  /** Over every run, restarts included, no row is lost or renamed and a finished row never changes. */
  lemma {:induction false} RowsAreFinal(s: Sys, es: seq<Event>)
    ensures L.RowsKept(s.book.jobs, Run(s, es).book.jobs)
    decreases |es|
  {
    if es != [] {
      hide Step;
      RowsOverStep(s, es[0]);
      RowsAreFinal(Step(s, es[0]), es[1..]);
    }
  }

  /** When the shutdown has returned, no place holds a source and no row is pending. */
  lemma ShutdownLeavesNothing(s: Sys, fp: string, id: nat)
    requires Reachable(s) && s.flags.settled
    ensures Everywhere(s.at, fp) == 0 && Held(s.at, id) == 0
    ensures !L.IsPending(s.book.jobs, id)
  {
    ReachableInv(s);
    NoneHeld(s.at, id);
  }

  // ---------------------------------------------------------------- retries

  /** In one process a source has at most four transient failures, and is terminal after the fourth; what
      is left of the budget is what its counter says. */
  lemma RetryBudget(s: Sys, fp: string)
    requires Reachable(s)
    ensures Slips(s, fp) <= 4
    ensures Slips(s, fp) == 4 ==> InState(s.mem, fp, Terminal)
    ensures LiveIn(s.mem, fp) ==> Slips(s, fp) == Retries(s, fp) <= 3
  {
    ReachableInv(s);
    assert Budget(s, fp);
  }

  /** Rate limits and cancels do not count: only a transient failure of the source in hand does. */
  lemma OnlySlipsCount(s: Sys, e: Event, fp: string)
    requires !(e.EControl? && e.control.Boot?) && Slips(Step(s, e), fp) != Slips(s, fp)
    ensures InHand(s.at, fp) && Slips(Step(s, e), fp) == Slips(s, fp) + 1
    ensures InState(Step(s, e).mem, fp, RetryWaiting) || InState(Step(s, e).mem, fp, Terminal)
  {
    hide Step;
    CountedStep(s, e, fp);
  }

  /** Once terminal or imported, a source stays so for the life of the process: it is never tried again. */
  lemma {:induction false} FinalForLife(s: Sys, es: seq<Event>, fp: string)
    requires Own(s, fp) && fp in s.mem.states && !Live(s.mem.states[fp])
    requires forall i | 0 <= i < |es| :: !(es[i].EControl? && es[i].control.Boot?)
    ensures fp in Run(s, es).mem.states && Run(s, es).mem.states[fp] == s.mem.states[fp]
    decreases |es|
  {
    if es != [] {
      hide Own, Step;
      FinalStays(s, es[0], fp);
      OwnStep(s, es[0], fp);
      FinalForLife(Step(s, es[0]), es[1..], fp);
    }
  }

  /** The retry worker can always take the heap's first entry once it is due, and takes no other. */
  lemma RetriesInOrder(s: Sys) returns (i: nat)
    requires Reachable(s) && s.at.heap != [] && !s.flags.stopping && s.at.retryHand.None?
    ensures IsFirst(s.at.heap, i)
    ensures s.at.heap[i].due <= s.clock ==> SourceStep(s, Pop(i)).at.retryHand == Some(s.at.heap[i].fp)
    ensures forall j | j != i || s.at.heap[i].due > s.clock :: SourceStep(s, Pop(j)) == s
  {
    ReachableInv(s);
    i := HeapHasFirst(s.at.heap, s.flags.order);
    var fp := s.at.heap[i].fp;
    HeapMember(s.at.heap, i);
    assert Own(s, fp);
    assert Spot(s.at, fp, RetryWaiting) <= One(InState(s.mem, fp, RetryWaiting));
  }

  // ---------------------------------------------------------------- the gate and the pacer

  lemma BaseOverCall(w: G.Watched, call: G.Call, now: real)
    ensures G.Apply(w, call, now).g.base == w.g.base
  {
    hide G.Cooled;
  }

  lemma BaseOverParked(s: Sys, job: Job, status: L.JobStatus, reason: string, retry: Retry)
    ensures Parked(Fail(s, job, status, reason, retry), job.fp).gate == s.gate
  {
    hide Fail;
    OwnFail(s, job, status, reason, retry);
  }

  lemma BaseOverCancel(s: Sys)
    requires HoldsJob(s.at.auth)
    ensures AuthCancel(s).gate.g.base == s.gate.g.base
  {
    hide G.Apply, L.Finish;
    BaseOverCall(s.gate, G.CallShrug(ProbeOf(s.at.auth)), s.clock);
  }

  lemma BaseOverPermit(s: Sys)
    requires s.at.auth.AGate?
    ensures PermitStep(s).gate.g.base == s.gate.g.base
  {
    hide G.Apply, G.Ask, AuthCancel;
    BaseOverCall(s.gate, G.CallAsk(!s.flags.paused), s.clock);
    BaseOverCancel(Gate(s, G.CallAsk(!s.flags.paused)));
  }

  lemma BaseOverConfirm(s: Sys, o: Outcome)
    requires s.at.auth.AConfirm?
    ensures ConfirmStep(s, s.at.auth.job, s.at.auth.probe, o).gate.g.base == s.gate.g.base
  {
    hide G.Apply, G.Limit, Fail, Parked, Verdict, P.Succeeded, P.Limited;
    var a, probe := s.at.auth, s.at.auth.probe;
    BaseOverCall(s.gate, G.CallShrug(probe), s.clock);
    BaseOverCall(s.gate, G.CallLimit(probe), s.clock);
    BaseOverCall(s.gate, G.CallClear(probe), s.clock);
    var (status, reason, retry) := Verdict(o);
    BaseOverParked(Gate(s, G.CallLimit(probe)), a.job, status, reason, retry);
    BaseOverParked(Gate(s, G.CallLimit(probe)).(pacer := P.Limited(s.pacer)), a.job, status, reason, retry);
    BaseOverParked(Gate(s, G.CallShrug(probe)), a.job, status, reason, retry);
  }

  lemma BaseOverImported(s: Sys, job: Job, probe: Option<nat>)
    ensures AlreadyImported(s, job, probe).gate.g.base == s.gate.g.base
  {
    hide G.Apply, L.Finish;
    BaseOverCall(s.gate, G.CallShrug(probe), s.clock);
  }

  lemma BaseOverAuth(s: Sys, e: AuthEvent)
    ensures AuthStep(s, e).gate.g.base == s.gate.g.base
  {
    hide G.Apply, L.HasImported, L.MarkStarted, Fail, Parked, P.Delay, AuthCancel, PermitStep, ConfirmStep,
      AlreadyImported;
    var a := s.at.auth;
    if HoldsJob(a) {
      BaseOverCancel(s);
      BaseOverImported(s, a.job, ProbeOf(a));
    }
    if e.Permit? && a.AGate? {
      BaseOverPermit(s);
    } else if e.Confirmed? && a.AConfirm? {
      BaseOverConfirm(s, e.o);
    } else if a.AFlow? {
      BaseOverCall(s.gate, G.CallShrug(a.probe), s.clock);
      BaseOverParked(Gate(s, G.CallShrug(a.probe)), a.job, L.SourceInvalid, "device_flow_invalid", NoRetry);
      BaseOverParked(Gate(s, G.CallShrug(a.probe)), a.job, L.TransportFailed, "device_flow_refresh_failed", Transient);
    }
  }

  /** A start of the process sets the base of the cooldown, and nothing else changes it. */
  lemma BaseStep(s: Sys, e: Event)
    ensures Step(s, e).gate.g.base == if e.EControl? && e.control.Boot? then e.control.base else s.gate.g.base
  {
    hide SourceStep, PrepStep, CompStep, L.Finish, L.StartJob, L.RecoverPending, L.Reopen, FinishAll, P.Make,
      ImportedStates, L.HasImported, L.MarkStarted, G.Cooled;
    match e
    case EAuth(x) => BaseOverAuth(s, x);
    case EControl(x) =>
    case _ => LeavesGate(s, e);
  }

  /** The setting that the last start of the run was made with. */
  function LastBase(base: real, es: seq<Event>): real
    decreases |es|
  {
    if es == [] then base
    else LastBase(if es[0].EControl? && es[0].control.Boot? then es[0].control.base else base, es[1..])
  }

  /** Over every run, restarts included, the base of the cooldown is the setting of the process that runs. */
  lemma {:induction false} BaseIsKept(s: Sys, es: seq<Event>)
    ensures Run(s, es).gate.g.base == LastBase(s.gate.g.base, es)
    decreases |es|
  {
    hide Step;
    if es != [] {
      BaseStep(s, es[0]);
      BaseIsKept(Step(s, es[0]), es[1..]);
    }
  }

  /** Every confirmation starts while the service is not paused, at least the live interval after the last
      start; and if the gate is tripped (and not closed) with its single current probe, no earlier than
      the cooldown that the consecutive trips deserve after the latest limited or inconclusive outcome. */
  lemma StartsAreGated(s: Sys, e: Event)
    requires Reachable(s) && Step(s, e).at.auth.AConfirm? && !s.at.auth.AConfirm?
    ensures var probe := Step(s, e).at.auth.probe;
            && !s.flags.paused && e == EAuth(Start)
            && (s.pacer.lastStart.Some? ==> s.clock >= s.pacer.lastStart.value + s.pacer.seconds)
            && (s.gate.g.trippedAt.Some? && !s.gate.g.closed ==>
                  && probe.Some? && s.gate.g.probe == probe
                  && s.clock >= s.gate.bad + G.Deserved(s.gate.g.base, s.gate.streak))
            && (s.gate.g.trippedAt.None? ==> s.gate.streak == 0)
  {
    ReachableInv(s);
    hide Inv, Gated, OnPace, SourceStep, PrepStep, CompStep, ConfirmStep, PermitStep;
    OnlyStart(s, e);
    StartFacts(s);
  }

  lemma OnlyStart(s: Sys, e: Event)
    requires Step(s, e).at.auth.AConfirm? && !s.at.auth.AConfirm?
    ensures e == EAuth(Start) && s.at.auth.AFlow? && !s.flags.paused && Step(s, e).at.auth.probe == s.at.auth.probe
  {
    hide SourceStep, PrepStep, CompStep, L.Finish, L.StartJob, L.RecoverPending, L.Reopen, FinishAll, P.Make,
      ImportedStates,
      G.Apply, G.Ask, Fail, L.HasImported;
    if e.EAuth? {
      var a := s.at.auth;
      if a.AFlow? {
        ParkedHoldsNone(Gate(s, G.CallShrug(a.probe)), a.job, L.SourceInvalid, "device_flow_invalid", NoRetry,
          a.job.fp);
        ParkedHoldsNone(Gate(s, G.CallShrug(a.probe)), a.job, L.TransportFailed, "device_flow_refresh_failed",
          Transient, a.job.fp);
      }
    } else if !e.EControl? {
      LeavesGate(s, e);
    }
  }

  lemma StartFacts(s: Sys)
    requires Inv(s) && s.at.auth.AFlow?
    ensures s.pacer.lastStart.Some? ==> s.clock >= s.pacer.lastStart.value + s.pacer.seconds
    ensures s.gate.g.trippedAt.Some? && !s.gate.g.closed ==>
              && s.at.auth.probe.Some? && s.gate.g.probe == s.at.auth.probe
              && s.clock >= s.gate.bad + G.Deserved(s.gate.g.base, s.gate.streak)
    ensures s.gate.g.trippedAt.None? ==> s.gate.streak == 0
  {
    hide G.Deserved;
  }

  /** The current probe is in the hands of the authorization task; with no confirmation under way, none is
      current: every way out of the authorization retires it. */
  lemma NoLostProbe(s: Sys)
    requires Reachable(s)
    ensures s.gate.g.probe.Some? ==> ProbeOf(s.at.auth) == s.gate.g.probe
    ensures !s.at.auth.AFlow? && !s.at.auth.AConfirm? ==> s.gate.g.probe.None?
  {
    ReachableInv(s);
  }

  /** The live interval stays between its base and its maximum, eight times the base or 90 seconds. */
  lemma IntervalInRange(s: Sys)
    requires Reachable(s)
    ensures s.pacer.base <= s.pacer.seconds <= s.pacer.max
  {
    ReachableInv(s);
  }

  // ---------------------------------------------------------------- queues and the operator

  /** The queues keep their capacities, and the put into the one-place prepared queue never waits. */
  lemma QueuesBounded(s: Sys)
    requires Reachable(s)
    ensures |s.at.sourceQ| <= SOURCE_QUEUE_CAPACITY && |s.at.preparedQ| <= PREPARED_QUEUE_CAPACITY
    ensures |s.at.completionQ| <= COMPLETION_QUEUE_CAPACITY
    ensures s.at.prep.PPut? ==> PrepStep(s, PutPrepared).at.preparedQ == [s.at.prep.job]
  {
    ReachableInv(s);
  }

  /** The operator's cancel dooms the authorization, if that can be cancelled and is not doomed yet; else the
      completion, if that is polling and is not doomed yet; else nobody. So between two steps each is doomed at
      most once; nothing else is touched. */
  lemma CancelIsIdempotent(s: Sys)
    requires Reachable(s)
    ensures var (t, first) := Cancelled(s);
            var (u, second) := Cancelled(t);
            var (v, third) := Cancelled(u);
            && (first <==> t != s) && (second <==> u != t)
            && (first && second ==> t.flags.authDoomed && u.flags.compDoomed)
            && !third && v == u
            && u.(flags := u.flags.(authDoomed := s.flags.authDoomed, compDoomed := s.flags.compDoomed)) == s
            && (first <==> (Cancellable(s.at.auth) && !s.flags.authDoomed) || (s.at.comp.CPoll? && !s.flags.compDoomed))
            && (t.flags.authDoomed <==> Cancellable(s.at.auth)) && (u.flags.compDoomed ==> s.at.comp.CPoll?)
            && (t.flags.compDoomed != s.flags.compDoomed <==>
                  s.at.comp.CPoll? && !s.flags.compDoomed && (Cancellable(s.at.auth) ==> s.flags.authDoomed))
  {
    ReachableInv(s);
  }

  // ---------------------------------------------------------------- a run that commits

  lemma {:induction false} RunConcat(s: Sys, es: seq<Event>, fs: seq<Event>)
    ensures Run(s, es + fs) == Run(Run(s, es), fs)
    decreases |es|
  {
    hide Step;
    if es == [] {
      assert es + fs == fs;
    } else {
      RunConcat(Step(s, es[0]), es[1..], fs);
      assert (es + fs)[1..] == es[1..] + fs;
    }
  }

  lemma RunThree(s: Sys, a: Event, b: Event, c: Event)
    ensures Run(s, [a, b, c]) == Step(Step(Step(s, a), b), c)
  {
    hide Step;
    assert [a, b, c][1..] == [b, c] && [b, c][1..] == [c] && [c][1..] == [];
    assert Run(s, [a, b, c]) == Run(Step(s, a), [b, c]);
    assert Run(Step(s, a), [b, c]) == Run(Step(Step(s, a), b), [c]);
    assert Run(Step(Step(s, a), b), [c]) == Run(Step(Step(Step(s, a), b), c), []);
  }

  /** The source "a" is under way in a calm process, its first row pending. */
  predicate UnderWay(s: Sys)
  {
    && !s.flags.paused && !s.flags.stopping && !s.flags.settled && !s.flags.authDoomed && !s.flags.compDoomed
    && s.gate.g == G.Fresh(60.0) && s.pacer.seconds <= 0.0
    && |s.book.jobs| == 1 && s.book.jobs[0].source == "a" && s.book.jobs[0].end.Pending?
    && s.past.imports == [] && s.past.sunk == [] && s.past.loose == [] && s.past.severed == [] && s.book.stock == map[]
  }

  lemma IsAdmitted() returns (es: seq<Event>)
    ensures var s := Run(Launch(60.0, 0.0, 0.0), es);
            && s.at == Nowhere.(sourceQ := ["a"], prep := PWant)
            && s.book == L.Blankbook && s.gate.g == G.Fresh(60.0) && s.pacer.seconds <= 0.0
            && s.past.imports == [] && s.past.sunk == [] && s.past.loose == [] && s.past.severed == []
            && s.flags == Flags(false, false, false, false, false, false, false, 0)
  {
    var s := Launch(60.0, 0.0, 0.0);
    es := [ESource(Admit("a")), ESource(AdmitPut(0)), EPrep(TakeSlot)];
    RunThree(s, es[0], es[1], es[2]);
    hide Run;
    assert s.book.jobs == [];
    assert Step(s, es[0]).at == Nowhere.(admits := ["a"]);
    assert Drop(["a"], 0) == [];
  }

  lemma IsPrepared(s: Sys) returns (es: seq<Event>)
    requires s.at == Nowhere.(sourceQ := ["a"], prep := PWant)
    requires s.book == L.Blankbook && s.gate.g == G.Fresh(60.0) && s.pacer.seconds <= 0.0
    requires s.past.imports == [] && s.past.sunk == [] && s.past.loose == [] && s.past.severed == []
    requires s.flags == Flags(false, false, false, false, false, false, false, 0)
    ensures var t := Run(s, es); UnderWay(t) && t.at == Nowhere.(preparedQ := [Job("a", 0)])
  {
    es := [EPrep(TakeSource), EPrep(FlowOk), EPrep(PutPrepared)];
    RunThree(s, es[0], es[1], es[2]);
    hide Run;
    assert Step(s, es[0]).at == Nowhere.(prep := PFlow(Job("a", 0)));
  }

  lemma IsPaced(s: Sys) returns (es: seq<Event>)
    requires UnderWay(s) && s.at == Nowhere.(preparedQ := [Job("a", 0)])
    ensures var t := Run(s, es); UnderWay(t) && t.at == Nowhere.(auth := AGate(Job("a", 0)))
  {
    es := [EAuth(TakePrepared), EAuth(Begin), EAuth(AuthEvent.Paced)];
    RunThree(s, es[0], es[1], es[2]);
    hide Run;
    assert Step(s, es[0]).at == Nowhere.(auth := ANew(Job("a", 0)));
    assert !L.HasImported(s.book.jobs, "a");
  }

  lemma IsConfirmed(s: Sys) returns (es: seq<Event>)
    requires UnderWay(s) && s.at == Nowhere.(auth := AGate(Job("a", 0)))
    ensures var t := Run(s, es); UnderWay(t) && t.at == Nowhere.(auth := APut(Job("a", 0)))
  {
    es := [EAuth(Permit), EAuth(AuthEvent.Start), EAuth(Confirmed(Authorized))];
    RunThree(s, es[0], es[1], es[2]);
    hide Run;
    var s1 := Step(s, es[0]);
    assert s1.at == Nowhere.(auth := AFlow(Job("a", 0), None)) && UnderWay(s1);
    assert !L.HasImported(s1.book.jobs, "a");
    var s2 := Step(s1, es[1]);
    assert s2.at == Nowhere.(auth := AConfirm(Job("a", 0), None)) && UnderWay(s2);
  }

  lemma IsPolling(s: Sys) returns (es: seq<Event>)
    requires UnderWay(s) && s.at == Nowhere.(auth := APut(Job("a", 0)))
    ensures var t := Run(s, es); UnderWay(t) && t.at == Nowhere.(comp := CPoll(Job("a", 0)))
  {
    es := [EAuth(PutCompletion), EComp(TakeCompletion), EComp(BeginPoll)];
    RunThree(s, es[0], es[1], es[2]);
    hide Run;
    assert Step(s, es[0]).at == Nowhere.(completionQ := [Job("a", 0)]);
  }

  lemma IsStored(s: Sys) returns (es: seq<Event>)
    requires UnderWay(s) && s.at == Nowhere.(comp := CPoll(Job("a", 0)))
    ensures var t := Run(s, es);
            && t.past.imports == ["a"] && t.past.sunk == ["a"] && L.HasImported(t.book.jobs, "a")
            && InState(t.mem, "a", Imported) && L.IsAvailable(t.book, "r")
  {
    es := [EComp(Polled), EComp(Sunk("r")), EComp(Commit)];
    RunThree(s, es[0], es[1], es[2]);
    hide Run;
    var t := Step(Step(Step(s, es[0]), es[1]), es[2]);
    assert L.WasImported(t.book.jobs[0]);
  }

  lemma SomeRunPolls() returns (es: seq<Event>)
    ensures var s := Run(Launch(60.0, 0.0, 0.0), es); UnderWay(s) && s.at == Nowhere.(comp := CPoll(Job("a", 0)))
  {
    hide Run, Launch, UnderWay;
    var start := Launch(60.0, 0.0, 0.0);
    es := IsAdmitted();
    var more := IsPrepared(Run(start, es));
    RunConcat(start, es, more);
    es := es + more;
    more := IsPaced(Run(start, es));
    RunConcat(start, es, more);
    es := es + more;
    more := IsConfirmed(Run(start, es));
    RunConcat(start, es, more);
    es := es + more;
    more := IsPolling(Run(start, es));
    RunConcat(start, es, more);
    es := es + more;
  }

  /** A source goes all the way: admitted, prepared, confirmed, stored and imported, its receipt in stock. */
  lemma SomeRunCommits() returns (es: seq<Event>)
    ensures var s := Run(Launch(60.0, 0.0, 0.0), es);
            && s.past.imports == ["a"] && s.past.sunk == ["a"] && L.HasImported(s.book.jobs, "a")
            && InState(s.mem, "a", Imported) && L.IsAvailable(s.book, "r")
  {
    hide Run, Launch, UnderWay, L.HasImported, InState, L.IsAvailable;
    var start := Launch(60.0, 0.0, 0.0);
    es := SomeRunPolls();
    var more := IsStored(Run(start, es));
    RunConcat(start, es, more);
    es := es + more;
  }

  // ---------------------------------------------------------------- a run that cuts a commit

  lemma IsOrphaned(s: Sys) returns (es: seq<Event>)
    requires UnderWay(s) && s.at == Nowhere.(comp := CPoll(Job("a", 0)))
    ensures var t := Run(s, es);
            && t.past.imports == [] && t.past.sunk == [] && t.past.loose == ["a"] && t.past.severed == []
            && t.at.comp.CDead? && |t.book.jobs| == 1 && t.book.jobs[0].source == "a" && t.book.jobs[0].end.Pending?
  {
    var two := [EComp(Polled), EControl(Stop)];
    es := [EComp(Polled), EControl(Stop), EComp(StoreCancelled), EComp(StoreCancelled)];
    hide Run;
    RunConcat(s, two, [EComp(StoreCancelled), EComp(StoreCancelled)]);
    assert es == two + [EComp(StoreCancelled), EComp(StoreCancelled)];
    RunTwo(s, EComp(Polled), EControl(Stop));
    var u := Run(s, two);
    RunTwo(u, EComp(StoreCancelled), EComp(StoreCancelled));
  }

  lemma RunTwo(s: Sys, a: Event, b: Event)
    ensures Run(s, [a, b]) == Step(Step(s, a), b)
  {
    hide Step;
    assert [a, b][1..] == [b] && [b][1..] == [];
    assert Run(s, [a, b]) == Run(Step(s, a), [b]);
    assert Run(Step(s, a), [b]) == Run(Step(Step(s, a), b), []);
  }

  lemma IsWrittenLate(s: Sys) returns (es: seq<Event>)
    requires s.past.imports == [] && s.past.sunk == [] && s.past.loose == ["a"] && s.past.severed == []
    requires s.at.comp.CDead? && |s.book.jobs| == 1 && s.book.jobs[0].source == "a" && s.book.jobs[0].end.Pending?
    ensures var t := Run(s, es);
            && t.past.sunk == ["a"] && t.past.severed == ["a"] && t.past.imports == [] && t.past.cut == s.past.cut
            && !L.HasImported(t.book.jobs, "a") && "a" !in t.mem.states
  {
    es := [EControl(LateStore(0)), EControl(Boot(60.0, 0.0, 0.0))];
    RunTwo(s, es[0], es[1]);
    hide Run, L.Reopen, P.Make;
    assert Drop(["a"], 0) == [];
    ReopenKeeps(s.book);
    var t := Step(Step(s, es[0]), es[1]);
    assert |t.book.jobs| == 1 && !L.WasImported(t.book.jobs[0]);
  }

  /** A shutdown that cancels the task of a store twice: the sink still writes the credential, no row of the
      source is imported, and the next process does not know the source and will authorize it again. */
  lemma SomeRunCutsCommit() returns (es: seq<Event>)
    ensures var s := Run(Launch(60.0, 0.0, 0.0), es);
            && s.past.sunk == ["a"] && s.past.severed == ["a"] && s.past.imports == []
            && !L.HasImported(s.book.jobs, "a") && "a" !in s.mem.states
  {
    hide Run, Launch, UnderWay, L.HasImported;
    var start := Launch(60.0, 0.0, 0.0);
    es := SomeRunPolls();
    var more := IsOrphaned(Run(start, es));
    RunConcat(start, es, more);
    es := es + more;
    more := IsWrittenLate(Run(start, es));
    RunConcat(start, es, more);
    es := es + more;
  }
}
