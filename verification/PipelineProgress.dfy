/** Progress of the pipeline: a measure that every move of a worker decreases, so that every source in work
    comes to its end or back onto the heap. */
module PipelineProgress {
  import opened Prelude
  import L = LedgerBook
  import G = RateGate
  import P = Pacing
  import opened Pipeline
  import opened PipelinePlaces
  import opened PipelineRows
  import opened PipelineImports
  import opened PipelineHistory
  import opened PipelineGate
  import opened PipelineQueues
  import opened PipelineTheorems

  // ---------------------------------------------------------------- the measure

  function PrepWork(p: Prep): nat { if p.PFlow? then 15 else if p.PPut? then 14 else if p.PPark? then 2 else 0 }

  function AuthWork(a: Auth): nat
  {
    match a
    case ANew(_) => 11
    case APace(_, _) => 10
    case AGate(_) => 9
    case AFlow(_, _) => 8
    case AConfirm(_, _) => 7
    case APut(_) => 6
    case APark(_, _) => 1
    case AIdle => 0
    case ADead => 0
  }

  function CompWork(c: Comp): nat
  {
    match c
    case CNew(_) => 4
    case CPoll(_) => 3
    case CStore(_, _) => 2
    case CStored(_, _, _, _) => 1
    case CPark(_, _) => 1
    case CIdle => 0
    case CDead => 0
  }

  /** How far the sources in work are from an end or the heap, with one more for a slot to be taken. */
  function Work(s: Sys): nat
  {
    17 * |s.at.admits| + 17 * One(s.at.retryHand.Some?) + 16 * |s.at.sourceQ| + PrepWork(s.at.prep)
    + 13 * |s.at.preparedQ| + AuthWork(s.at.auth) + 5 * |s.at.completionQ| + CompWork(s.at.comp) + One(s.flags.slot)
  }

  /** A source comes into work: admitted, or taken from the heap. */
  predicate Enters(e: Event) { e.ESource? && (e.source.Admit? || e.source.Pop?) }

  predicate Ends(e: Event) { e.EControl? && (e.control.Stop? || e.control.Boot?) }

  /** What a step of a running process may do to the measure: a move takes from it, an entry may add. */
  predicate Counts(s: Sys, t: Sys, entry: bool)
  {
    && One(t.at != s.at) + Work(t) <= Work(s) + 18 * One(entry)
    && !t.flags.stopping && t.flags.paused == s.flags.paused
  }

  lemma CountsSource(s: Sys, e: SourceEvent)
    requires !s.flags.stopping
    ensures Counts(s, SourceStep(s, e), e.Admit? || e.Pop?)
  {
    hide IsFirst;
  }

  lemma CountsPrep(s: Sys, e: PrepEvent)
    requires !s.flags.stopping
    ensures Counts(s, PrepStep(s, e), false)
  {
    hide L.Finish, L.StartJob, Fail;
    if s.at.prep.PFlow? {
      OwnFail(s, s.at.prep.job, L.SourceInvalid, "device_flow_invalid", NoRetry);
      OwnFail(s, s.at.prep.job, L.TransportFailed, "device_flow_failed", Transient);
    }
  }

  /** The authorization task gives its source away: to its end, to the completion or to the heap. */
  predicate Yields(s: Sys, t: Sys)
  {
    && t.at == s.at.(auth := t.at.auth) && (t.at.auth.AIdle? || t.at.auth.APut? || t.at.auth.APark?)
    && t.flags == s.flags.(authDoomed := t.flags.authDoomed)
  }

  lemma YieldsParked(s: Sys, t: Sys, job: Job, status: L.JobStatus, reason: string, retry: Retry)
    requires t.at == s.at && t.flags == s.flags
    ensures Yields(s, Parked(Fail(t, job, status, reason, retry), job.fp))
  {
    hide Fail;
    OwnFail(t, job, status, reason, retry);
  }

  lemma YieldsConfirm(s: Sys, o: Outcome)
    requires s.at.auth.AConfirm?
    ensures Yields(s, ConfirmStep(s, s.at.auth.job, s.at.auth.probe, o))
  {
    hide G.Apply, G.Limit, Fail, Parked, Verdict, P.Succeeded, P.Limited;
    var job, probe := s.at.auth.job, s.at.auth.probe;
    var (status, reason, retry) := Verdict(o);
    YieldsParked(s, Gate(s, G.CallLimit(probe)), job, status, reason, retry);
    YieldsParked(s, Gate(s, G.CallLimit(probe)).(pacer := P.Limited(s.pacer)), job, status, reason, retry);
    YieldsParked(s, Gate(s, G.CallShrug(probe)), job, status, reason, retry);
  }

  lemma YieldsCancel(s: Sys)
    requires HoldsJob(s.at.auth) && !s.flags.stopping
    ensures Yields(s, AuthCancel(s)) && AuthCancel(s).at.auth.APark?
  {
    hide G.Apply, L.Finish;
  }

  lemma YieldsImported(s: Sys, job: Job, probe: Option<nat>)
    ensures Yields(s, AlreadyImported(s, job, probe)) && AlreadyImported(s, job, probe).at.auth.AIdle?
  {
    hide G.Apply, L.Finish;
  }

  lemma CountsPermit(s: Sys)
    requires !s.flags.stopping && s.at.auth.AGate?
    ensures Counts(s, PermitStep(s), false)
  {
    hide G.Apply, G.Ask, AuthCancel;
    YieldsCancel(Gate(s, G.CallAsk(!s.flags.paused)));
  }

  lemma YieldsLess(s: Sys, t: Sys)
    requires !s.flags.stopping && Cancellable(s.at.auth) && Yields(s, t)
    ensures Counts(s, t, false)
  {
  }

  /** The steps of the task that do not give its source away. */
  predicate Onward(e: AuthEvent)
  {
    e.TakePrepared? || e.Begin? || e.Paced? || e.Start? || e.PutCompletion? || e.AuthParks?
  }

  lemma CountsOnward(s: Sys, e: AuthEvent)
    requires !s.flags.stopping && Onward(e)
    ensures Counts(s, AuthStep(s, e), false)
  {
    hide G.Apply, L.HasImported, L.MarkStarted, P.Delay, AlreadyImported;
    if HoldsJob(s.at.auth) {
      YieldsImported(s, s.at.auth.job, ProbeOf(s.at.auth));
    }
  }

  lemma CountsSame(s: Sys)
    requires !s.flags.stopping
    ensures Counts(s, s, false)
  {
  }

  lemma CountsAuth(s: Sys, e: AuthEvent)
    requires !s.flags.stopping
    ensures Counts(s, AuthStep(s, e), false)
  {
    hide Counts, Yields, G.Apply, Fail, Parked, AuthCancel, PermitStep, ConfirmStep;
    var a := s.at.auth;
    CountsSame(s);
    if Onward(e) {
      CountsOnward(s, e);
    } else if e.Permit? && a.AGate? {
      CountsPermit(s);
    } else if e.AuthCancelled? && s.flags.authDoomed && Cancellable(a) {
      YieldsCancel(s);
      YieldsLess(s, AuthCancel(s));
    } else if e.Confirmed? && a.AConfirm? {
      YieldsConfirm(s, e.o);
      YieldsLess(s, ConfirmStep(s, a.job, a.probe, e.o));
    } else if (e.RefreshInvalid? || e.RefreshFailed?) && a.AFlow? {
      var t := Gate(s, G.CallShrug(a.probe));
      YieldsParked(s, t, a.job, L.SourceInvalid, "device_flow_invalid", NoRetry);
      YieldsParked(s, t, a.job, L.TransportFailed, "device_flow_refresh_failed", Transient);
      YieldsLess(s, Parked(Fail(t, a.job, L.SourceInvalid, "device_flow_invalid", NoRetry), a.job.fp));
      YieldsLess(s, Parked(Fail(t, a.job, L.TransportFailed, "device_flow_refresh_failed", Transient), a.job.fp));
    }
  }

  lemma CountsComp(s: Sys, e: CompEvent)
    requires !s.flags.stopping
    ensures Counts(s, CompStep(s, e), false)
  {
    hide L.Finish, Fail;
    var c := s.at.comp;
    if CompHolds(c) {
      OwnFail(s, c.job, L.TransportFailed, if e.PollFailed? then e.reason else "", Transient);
      OwnFail(s, c.job, L.SinkFailed, "sink_unconfigured", NoRetry);
      OwnFail(s, c.job, L.SinkFailed, "sink_failed", Transient);
      if e.PollRefused? {
        OwnFail(s, c.job, RefusalOf(e.why).0, RefusalOf(e.why).1, NoRetry);
      }
    }
  }

  /** Every step of a running process that moves a source, or takes the slot for one, decreases the measure,
      unless it brings a source into work. */
  lemma WorkerStepCounts(s: Sys, e: Event)
    requires !s.flags.stopping && !Ends(e)
    ensures var t := Step(s, e);
            && One(t.at != s.at) + Work(t) <= Work(s) + 18 * One(Enters(e))
            && !t.flags.stopping && (!e.EControl? ==> t.flags.paused == s.flags.paused)
  {
    hide SourceStep, PrepStep, AuthStep, CompStep, ControlStep, Work;
    match e
    case ESource(x) => CountsSource(s, x);
    case EPrep(x) => CountsPrep(s, x);
    case EAuth(x) => CountsAuth(s, x);
    case EComp(x) => CountsComp(s, x);
    case EControl(x) => CountsControl(s, x);
  }

  lemma CountsControl(s: Sys, e: ControlEvent)
    requires !s.flags.stopping && !e.Stop? && !e.Boot?
    ensures var t := ControlStep(s, e); t.at == s.at && Work(t) == Work(s) && !t.flags.stopping
  {
    hide L.Finish, L.StartJob, G.Apply, Settled;
  }

  // ---------------------------------------------------------------- whole runs

  /** The steps of a run that move something. */
  function Moves(s: Sys, es: seq<Event>): nat
    decreases |es|
  {
    if es == [] then 0 else One(Step(s, es[0]).at != s.at) + Moves(Step(s, es[0]), es[1..])
  }

  function Entries(es: seq<Event>): nat
    decreases |es|
  {
    if es == [] then 0 else One(Enters(es[0])) + Entries(es[1..])
  }

  /** No run of an uncancelled process goes round in circles: it moves at most as often as the measure at its
      start and eighteen steps for every source that it admits or takes from the heap allow. */
  lemma {:induction false} MovesBounded(s: Sys, es: seq<Event>)
    requires !s.flags.stopping && forall e | e in es :: !Ends(e)
    ensures !Run(s, es).flags.stopping
    ensures Moves(s, es) + Work(Run(s, es)) <= Work(s) + 18 * Entries(es)
    decreases |es|
  {
    if es != [] {
      hide Step, Work;
      WorkerStepCounts(s, es[0]);
      MovesBounded(Step(s, es[0]), es[1..]);
    }
  }

  // ---------------------------------------------------------------- a next step

  /** Nothing is in work: sources wait on the heap only. */
  predicate Quiescent(at: Places)
  {
    && at.admits == [] && at.retryHand.None? && at.sourceQ == [] && at.prep.PWant? && at.preparedQ == []
    && at.auth.AIdle? && at.completionQ == [] && at.comp.CIdle?
  }

  lemma InvParts(s: Sys)
    requires Inv(s)
    ensures Gated(s) && Queues(s)
  {
    hide Gated, OnPace, Queues;
  }

  lemma TickIs(s: Sys, d: real)
    requires d >= 0.0
    ensures Step(s, EControl(Tick(d))) == s.(clock := s.clock + d)
  {
  }

  lemma CompMove(s: Sys) returns (e: CompEvent)
    requires Queues(s) && !s.flags.stopping && (!s.at.comp.CIdle? || s.at.completionQ != [])
    ensures Step(s, EComp(e)).at != s.at
  {
    hide L.Finish;
    e := match s.at.comp
         case CIdle => TakeCompletion
         case CNew(_) => BeginPoll
         case CPoll(_) => if s.flags.compDoomed then CompCancelled else Polled
         case CStore(_, _) => Sunk("")
         case CStored(_, _, _, _) => Commit
         case CPark(_, _) => CompParks
         case CDead => CompCancelled;
  }

  /** How long the authorization task has to wait. */
  function AuthWait(s: Sys): (d: real)
    ensures d >= 0.0
  {
    if s.flags.authDoomed then 0.0
    else if s.at.auth.AGate? then MaxR(0.0, s.gate.g.nextProbeAt - s.clock)
    else if s.at.auth.APace? then MaxR(0.0, s.at.auth.wake - s.clock)
    else 0.0
  }

  lemma AuthMove(s: Sys) returns (e: AuthEvent)
    requires Queues(s) && Gated(s) && !s.flags.stopping && !s.flags.paused && s.at.completionQ == []
    requires !s.at.auth.AIdle? || s.at.preparedQ != []
    ensures Step(s.(clock := s.clock + AuthWait(s)), EAuth(e)).at != s.at
  {
    var a := s.at.auth;
    if s.flags.authDoomed {
      e := AuthCancelled;
      hide L.Finish, G.Apply;
    } else if a.AGate? {
      e := Permit;
      hide L.Finish, G.Deserved;
    } else {
      hide L.Finish, L.HasImported, L.MarkStarted, G.Apply, P.Delay, P.Succeeded;
      e := match a
           case AIdle => TakePrepared
           case ANew(_) => Begin
           case APace(_, _) => AuthEvent.Paced
           case AGate(_) => Permit
           case AFlow(_, _) => AuthEvent.Start
           case AConfirm(_, _) => Confirmed(Authorized)
           case APut(_) => PutCompletion
           case APark(_, _) => AuthParks
           case ADead => AuthCancelled;
    }
  }

  lemma PrepMove(s: Sys) returns (e: PrepEvent)
    requires Queues(s) && !s.flags.stopping && s.at.preparedQ == [] && !(s.at.prep.PWant? && s.at.sourceQ == [])
    ensures Step(s, EPrep(e)).at != s.at
  {
    hide L.StartJob;
    e := match s.at.prep
         case PIdle => TakeSlot
         case PWant => TakeSource
         case PFlow(_) => FlowOk
         case PPut(_) => PutPrepared
         case PPark(_, _) => PrepParks
         case PDead => PrepCancelled;
  }

  lemma SourceMove(s: Sys) returns (e: SourceEvent)
    requires !s.flags.settled && s.at.sourceQ == [] && (s.at.retryHand.Some? || s.at.admits != [])
    ensures !Enters(ESource(e)) && Step(s, ESource(e)).at != s.at
  {
    e := if s.at.retryHand.Some? then RetryPut else AdmitPut(0);
  }

  lemma NotSettled(s: Sys)
    requires Inv(s) && !s.flags.stopping
    ensures !s.flags.settled
  {
  }

  lemma MoveCounts(s: Sys, d: real, e: Event)
    requires !s.flags.stopping && !s.flags.paused && d >= 0.0 && !e.EControl? && !Enters(e)
    requires Step(s.(clock := s.clock + d), e).at != s.at
    ensures var t := Step(Step(s, EControl(Tick(d))), e);
            Work(t) < Work(s) && !t.flags.stopping && !t.flags.paused
  {
    TickIs(s, d);
    WorkerStepCounts(s.(clock := s.clock + d), e);
    hide Step;
  }

  lemma NextMove(s: Sys) returns (d: real, e: Event)
    requires Inv(s) && !s.flags.stopping && !s.flags.paused && !Quiescent(s.at)
    ensures d >= 0.0 && !e.EControl? && !Enters(e)
    ensures var t := Step(Step(s, EControl(Tick(d))), e);
            Work(t) < Work(s) && !t.flags.stopping && !t.flags.paused
  {
    hide Inv, Work, Step, Queues, Gated, AuthWait, Own, Imports, Budget, RowHeld, Named, OnPace;
    InvParts(s);
    NotSettled(s);
    d := 0.0;
    assert s.(clock := s.clock + d) == s;
    if !s.at.comp.CIdle? || s.at.completionQ != [] {
      var x := CompMove(s);
      e := EComp(x);
    } else if !s.at.auth.AIdle? || s.at.preparedQ != [] {
      d := AuthWait(s);
      var x := AuthMove(s);
      e := EAuth(x);
    } else if !(s.at.prep.PWant? && s.at.sourceQ == []) {
      var x := PrepMove(s);
      e := EPrep(x);
    } else {
      var x := SourceMove(s);
      e := ESource(x);
    }
    MoveCounts(s, d, e);
  }

  /** While the process runs and is not paused, something in work is never stuck: after a wait that is known
      some worker has a step, without any cancel, that decreases the measure. */
  lemma NeverStuck(s: Sys) returns (d: real, e: Event)
    requires Reachable(s) && !s.flags.stopping && !s.flags.paused && !Quiescent(s.at)
    ensures d >= 0.0 && !e.EControl? && !Enters(e)
    ensures var t := Step(Step(s, EControl(Tick(d))), e);
            Work(t) < Work(s) && !t.flags.stopping && !t.flags.paused
  {
    hide Inv, Work, Step, Quiescent, Reachable;
    ReachableInv(s);
    d, e := NextMove(s);
  }

  predicate Ordinary(e: Event)
  {
    (e.EControl? ==> e.control.Tick? && e.control.d >= 0.0) && !Enters(e)
  }

  lemma {:induction false} SettlesFrom(s: Sys) returns (es: seq<Event>)
    requires Inv(s) && !s.flags.stopping && !s.flags.paused
    ensures forall e | e in es :: Ordinary(e)
    ensures Inv(Run(s, es)) && Quiescent(Run(s, es).at) && !Run(s, es).flags.stopping
    decreases Work(s)
  {
    hide Inv, Step, Work;
    if Quiescent(s.at) {
      es := [];
    } else {
      var d, e := NextMove(s);
      var wait := EControl(Tick(d));
      InvStep(s, wait);
      InvStep(Step(s, wait), e);
      var more := SettlesFrom(Step(Step(s, wait), e));
      es := [wait, e] + more;
      RunTwo(s, wait, e);
      RunConcat(s, [wait, e], more);
    }
  }

  /** From every reachable state of a running, unpaused process the workers can finish what is in work, with
      no more sources and no cancel: each source is then imported, terminal, or waits once on the heap. */
  lemma EverythingSettles(s: Sys) returns (es: seq<Event>)
    requires Reachable(s) && !s.flags.stopping && !s.flags.paused
    ensures forall e | e in es :: Ordinary(e)
    ensures var t := Run(s, es);
            && Quiescent(t.at)
            && forall fp | fp in t.mem.states ::
                 || !Live(t.mem.states[fp])
                 || (t.mem.states[fp].RetryWaiting? && HeapCount(t.at.heap, fp) == 1)
  {
    ReachableInv(s);
    hide Inv, Run;
    es := SettlesFrom(s);
    var t := Run(s, es);
    forall fp | fp in t.mem.states && Live(t.mem.states[fp])
      ensures t.mem.states[fp].RetryWaiting? && HeapCount(t.at.heap, fp) == 1
    {
      OnlyOnHeap(t, fp);
    }
  }

  lemma OnlyOnHeap(t: Sys, fp: string)
    requires Inv(t) && Quiescent(t.at) && !t.flags.stopping && LiveIn(t.mem, fp)
    ensures t.mem.states[fp].RetryWaiting? && HeapCount(t.at.heap, fp) == 1
  {
    assert Own(t, fp);
    hide HeapCount;
    var k := t.mem.states[fp];
    assert Spot(t.at, fp, k) == One(Live(k) && InState(t.mem, fp, k));
  }

  /** Once nothing is in work, the retry worker serves the heap: after a wait that is known it takes the first
      entry and brings its source back into work. */
  lemma HeapIsServed(s: Sys) returns (d: real, i: nat)
    requires Reachable(s) && !s.flags.stopping && Quiescent(s.at) && s.at.heap != []
    ensures d >= 0.0 && IsFirst(s.at.heap, i)
    ensures var t := Step(Step(s, EControl(Tick(d))), ESource(Pop(i)));
            t.at.retryHand == Some(s.at.heap[i].fp) && InState(t.mem, s.at.heap[i].fp, Queued)
  {
    ReachableInv(s);
    InvParts(s);
    NotSettled(s);
    i := HeapHasFirst(s.at.heap, s.flags.order);
    d := MaxR(0.0, s.at.heap[i].due - s.clock);
    TickIs(s, d);
    var fp := s.at.heap[i].fp;
    HeapMember(s.at.heap, i);
    assert Own(s, fp);
    assert Spot(s.at, fp, RetryWaiting) <= One(InState(s.mem, fp, RetryWaiting));
  }
}
