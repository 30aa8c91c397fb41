/** How sources travel through the pipeline: its queues are first in, first out, the retries wait until they are
    due, and a source's state changes only along the edges of one graph. */
module PipelineMoves {
  import opened Prelude
  import L = LedgerBook
  import G = RateGate
  import P = Pacing
  import opened Pipeline
  import opened PipelinePlaces
  import opened PipelineGate
  import opened PipelineQueues
  import opened PipelineImports
  import opened PipelineTheorems

  /** The events that empty the queues. */
  predicate Empties(e: Event) { e.EControl? && (e.control.Boot? || e.control.Settle?) }

  // ---------------------------------------------------------------- what goes into the queues and comes out

  /** The admitted source, or the retry, that is put into the source queue. */
  function SourceIn(s: Sys, e: Event): seq<string>
  {
    if !e.ESource? || s.flags.settled || |s.at.sourceQ| >= 64 then []
    else if e.source.AdmitPut? && e.source.i < |s.at.admits| then [s.at.admits[e.source.i]]
    else if e.source.RetryPut? && s.at.retryHand.Some? then [s.at.retryHand.value]
    else []
  }

  /** The source that the prepare worker gets. */
  function SourceOut(s: Sys, t: Sys): seq<string>
  {
    if s.at.prep.PWant? && t.at.prep.PFlow? then [t.at.prep.job.fp] else []
  }

  /** The job that the prepare worker is rid of, and goes round. */
  function PreparedIn(s: Sys, t: Sys): seq<Job>
  {
    if s.at.prep.PPut? && t.at.prep.PIdle? then [s.at.prep.job] else []
  }

  function PreparedOut(s: Sys, t: Sys): seq<Job>
  {
    if s.at.auth.AIdle? && t.at.auth.ANew? then [t.at.auth.job] else []
  }

  function CompletionIn(s: Sys, t: Sys): seq<Job>
  {
    if s.at.auth.APut? && t.at.auth.AIdle? then [s.at.auth.job] else []
  }

  function CompletionOut(s: Sys, t: Sys): seq<Job>
  {
    if s.at.comp.CIdle? && t.at.comp.CNew? then [t.at.comp.job] else []
  }

  /** What goes in comes behind what is there, and what comes out was at the front. */
  predicate InOrder(s: Sys, e: Event, t: Sys)
  {
    && s.at.sourceQ + SourceIn(s, e) == SourceOut(s, t) + t.at.sourceQ
    && s.at.preparedQ + PreparedIn(s, t) == PreparedOut(s, t) + t.at.preparedQ
    && s.at.completionQ + CompletionIn(s, t) == CompletionOut(s, t) + t.at.completionQ
  }

  /** The entry that a task puts on the heap on its way out of its park, or one taken off. */
  predicate Heaped(s: Sys, e: Event, t: Sys)
  {
    if s.at.retryHand.None? && t.at.retryHand.Some? then
      exists i: nat | i < |s.at.heap| :: TakenOff(s, i, t)
    else if s.at.prep.PPark? && t.at.prep.PIdle? then Parks(s, s.at.prep.fp, s.at.prep.due, t)
    else if s.at.auth.APark? && t.at.auth.AIdle? then Parks(s, s.at.auth.fp, s.at.auth.due, t)
    else if s.at.comp.CPark? && t.at.comp.CIdle? then Parks(s, s.at.comp.fp, s.at.comp.due, t)
    else t.at.heap == s.at.heap
  }

  /** The first entry is due, and becomes the retry in hand. */
  predicate TakenOff(s: Sys, i: nat, t: Sys)
    requires i < |s.at.heap|
  {
    && IsFirst(s.at.heap, i) && s.at.heap[i].due <= s.clock
    && t.at.retryHand == Some(s.at.heap[i].fp) && t.at.heap == Drop(s.at.heap, i)
  }

  predicate Parks(s: Sys, fp: string, due: real, t: Sys)
  {
    t.at.heap == s.at.heap + [Waiting(due, s.flags.order, fp)] && t.flags.order == s.flags.order + 1
  }

  predicate Travels(s: Sys, e: Event, t: Sys) { InOrder(s, e, t) && Heaped(s, e, t) }

  lemma TravelsSame(s: Sys, e: Event, t: Sys)
    requires SourceIn(s, e) == [] && (s.at.retryHand.Some? || t.at.retryHand.None?)
    requires t.at == s.at.(prep := t.at.prep, auth := t.at.auth, comp := t.at.comp, admits := t.at.admits,
                           retryHand := t.at.retryHand)
    requires s.at.prep == t.at.prep || (!s.at.prep.PWant? && !s.at.prep.PPut? && !s.at.prep.PPark?)
             || (t.at.prep.PDead?) || t.at.prep.PWant?
    requires s.at.auth == t.at.auth || (!s.at.auth.AIdle? && !s.at.auth.APut? && !s.at.auth.APark?) || t.at.auth.ADead?
    requires s.at.comp == t.at.comp || (!s.at.comp.CIdle? && !s.at.comp.CPark?) || t.at.comp.CDead?
    ensures Travels(s, e, t)
  {
  }

  lemma PutsTravel(s: Sys, e: SourceEvent)
    requires !s.flags.settled && (e.AdmitPut? || e.RetryPut?)
    ensures Travels(s, ESource(e), SourceStep(s, e))
  {
    hide IsFirst, Drop, Heaped;
    HeapUntouched(s, ESource(e), SourceStep(s, e));
  }

  lemma TravelsSource(s: Sys, e: SourceEvent)
    requires Inv(s) && !s.flags.settled
    ensures Travels(s, ESource(e), SourceStep(s, e))
  {
    hide Inv, IsFirst, Drop, Travels;
    var t := SourceStep(s, e);
    if e.Pop? && t != s {
      PopTakes(s, e.i);
    } else if e.RetryPut? || e.AdmitPut? {
      PutsTravel(s, e);
    } else {
      TravelsSame(s, ESource(e), t);
    }
  }

  lemma HeapUntouched(s: Sys, e: Event, t: Sys)
    requires t.at == s.at.(admits := t.at.admits, sourceQ := t.at.sourceQ, retryHand := t.at.retryHand)
    requires s.at.retryHand.Some? || t.at.retryHand.None?
    ensures Heaped(s, e, t)
  {
  }

  lemma PopTakes(s: Sys, i: nat)
    requires Inv(s) && SourceStep(s, Pop(i)) != s
    ensures Travels(s, ESource(Pop(i)), SourceStep(s, Pop(i)))
  {
    WaitingFacts(s, i);
    hide Inv, IsFirst, Drop;
    assert TakenOff(s, i, SourceStep(s, Pop(i)));
  }

  lemma WaitingFacts(s: Sys, i: nat)
    requires Inv(s)
    ensures i < |s.at.heap| ==> InState(s.mem, s.at.heap[i].fp, RetryWaiting)
    ensures IsFirst(s.at.heap, i) ==> i < |s.at.heap|
  {
    hide IsFirst;
    if i < |s.at.heap| {
      var fp := s.at.heap[i].fp;
      HeapMember(s.at.heap, i);
      assert Own(s, fp);
      assert Spot(s.at, fp, RetryWaiting) <= One(InState(s.mem, fp, RetryWaiting));
    }
    FirstIsThere(s.at.heap, i);
  }

  lemma FirstIsThere(heap: seq<Waiting>, i: nat)
    ensures IsFirst(heap, i) ==> i < |heap|
  {
  }

  lemma HeapSame(s: Sys, e: Event, t: Sys)
    requires t.at.heap == s.at.heap && t.at.retryHand == s.at.retryHand && !s.at.prep.PPark?
    requires t.at.auth == s.at.auth && t.at.comp == s.at.comp
    ensures Heaped(s, e, t)
  {
  }

  lemma PrepParksBehind(s: Sys, e: PrepEvent)
    requires s.at.prep.PPark?
    ensures Travels(s, EPrep(e), PrepStep(s, e))
  {
    hide Drop, IsFirst;
  }

  lemma TravelsPrep(s: Sys, e: PrepEvent)
    ensures Travels(s, EPrep(e), PrepStep(s, e))
  {
    hide L.Finish, L.StartJob, Fail, Drop, IsFirst;
    if s.at.prep.PFlow? {
      hide Travels;
      OwnFail(s, s.at.prep.job, L.SourceInvalid, "device_flow_invalid", NoRetry);
      OwnFail(s, s.at.prep.job, L.TransportFailed, "device_flow_failed", Transient);
      TravelsSame(s, EPrep(e), PrepStep(s, e));
    } else if s.at.prep.PPark? {
      hide InOrder;
      PrepParksBehind(s, e);
    } else {
      hide Heaped;
      HeapSame(s, EPrep(e), PrepStep(s, e));
    }
  }

  lemma AuthQueues(s: Sys, e: AuthEvent)
    requires e.TakePrepared? || e.PutCompletion?
    ensures Travels(s, EAuth(e), AuthStep(s, e))
  {
    hide Heaped, Drop, IsFirst;
    if s.at.auth.APark? {
      TravelsSame(s, EAuth(e), s);
    } else {
      HeapStill(s, EAuth(e), AuthStep(s, e));
    }
  }

  lemma HeapStill(s: Sys, e: Event, t: Sys)
    requires t.at.heap == s.at.heap && t.at.retryHand == s.at.retryHand && !s.at.auth.APark?
    requires t.at.prep == s.at.prep && t.at.comp == s.at.comp
    ensures Heaped(s, e, t)
  {
  }

  lemma AuthPlaces(s: Sys, e: AuthEvent)
    requires !e.TakePrepared? && !e.PutCompletion? && !e.AuthParks?
    ensures var (a, t) := (s.at.auth, AuthStep(s, e));
            && t.at == s.at.(auth := t.at.auth)
            && (t.at.auth == a || t.at.auth.ADead? || (!a.AIdle? && !a.APut? && !a.APark?))
  {
    hide Fail, G.Apply, L.HasImported, L.MarkStarted, L.Finish, P.Delay, ConfirmStep, PermitStep, AuthCancel,
      AlreadyImported, Parked;
    var a := s.at.auth;
    if HoldsJob(a) {
      EndPlaces(s);
    }
    if e.Permit? && a.AGate? {
      PermitPlaces(s);
    } else if e.Confirmed? && a.AConfirm? {
      ConfirmPlaces(s, e.o);
    } else if a.AFlow? {
      ParkedPlaces(s, Gate(s, G.CallShrug(a.probe)), a.job, L.SourceInvalid, "device_flow_invalid", NoRetry);
      ParkedPlaces(s, Gate(s, G.CallShrug(a.probe)), a.job, L.TransportFailed, "device_flow_refresh_failed",
        Transient);
    }
  }

  predicate OnlyAuth(s: Sys, t: Sys) { t.at == s.at.(auth := t.at.auth) }

  lemma EndPlaces(s: Sys)
    requires HoldsJob(s.at.auth)
    ensures OnlyAuth(s, AuthCancel(s)) && OnlyAuth(s, AlreadyImported(s, s.at.auth.job, ProbeOf(s.at.auth)))
    ensures s.at.auth.APut? && !s.flags.stopping ==> AuthCancel(s).at.auth.APark?
    ensures s.flags.stopping ==> AuthCancel(s).at.auth.ADead?
  {
    hide L.Finish, G.Apply;
  }

  lemma PermitPlaces(s: Sys)
    requires s.at.auth.AGate?
    ensures OnlyAuth(s, PermitStep(s))
  {
    hide L.Finish, G.Apply, G.Ask;
  }

  lemma ParkedPlaces(s: Sys, t: Sys, job: Job, status: L.JobStatus, reason: string, retry: Retry)
    requires t.at == s.at
    ensures OnlyAuth(s, Parked(Fail(t, job, status, reason, retry), job.fp))
  {
    hide Fail;
    OwnFail(t, job, status, reason, retry);
  }

  lemma ConfirmPlaces(s: Sys, o: Outcome)
    requires s.at.auth.AConfirm?
    ensures OnlyAuth(s, ConfirmStep(s, s.at.auth.job, s.at.auth.probe, o))
  {
    hide Fail, Parked, G.Apply, G.Limit, P.Succeeded, P.Limited;
    var job, probe := s.at.auth.job, s.at.auth.probe;
    var (status, reason, retry) := Verdict(o);
    ParkedPlaces(s, Gate(s, G.CallLimit(probe)), job, status, reason, retry);
    ParkedPlaces(s, Gate(s, G.CallLimit(probe)).(pacer := P.Limited(s.pacer)), job, status, reason, retry);
    ParkedPlaces(s, Gate(s, G.CallShrug(probe)), job, status, reason, retry);
  }

  lemma TravelsAuth(s: Sys, e: AuthEvent)
    ensures Travels(s, EAuth(e), AuthStep(s, e))
  {
    if e.TakePrepared? || e.PutCompletion? {
      hide AuthStep, Travels;
      AuthQueues(s, e);
    } else if e.AuthParks? {
      hide Drop, IsFirst;
    } else {
      hide AuthStep, Travels;
      AuthPlaces(s, e);
      TravelsSame(s, EAuth(e), AuthStep(s, e));
    }
  }

  lemma TravelsComp(s: Sys, e: CompEvent)
    ensures Travels(s, EComp(e), CompStep(s, e))
  {
    hide L.Finish, Fail, Drop, IsFirst;
    var c := s.at.comp;
    if CompHolds(c) {
      hide Travels;
      OwnFail(s, c.job, L.TransportFailed, if e.PollFailed? then e.reason else "", Transient);
      OwnFail(s, c.job, L.SinkFailed, "sink_unconfigured", NoRetry);
      OwnFail(s, c.job, L.SinkFailed, "sink_failed", Transient);
      if e.PollRefused? {
        OwnFail(s, c.job, RefusalOf(e.why).0, RefusalOf(e.why).1, NoRetry);
      }
      TravelsSame(s, EComp(e), CompStep(s, e));
    }
  }

  lemma TravelsControl(s: Sys, e: ControlEvent)
    requires !Empties(EControl(e))
    ensures Travels(s, EControl(e), ControlStep(s, e))
  {
    hide L.Finish, L.StartJob, G.Apply, Travels, Settled, Booted;
    TravelsSame(s, EControl(e), ControlStep(s, e));
  }

  lemma TravelsStep(s: Sys, e: Event)
    requires Inv(s) && !Empties(e)
    ensures Travels(s, e, Step(s, e))
  {
    hide Inv, SourceStep, PrepStep, AuthStep, CompStep, ControlStep, Travels;
    if s.flags.settled && !e.EControl? {
      TravelsSame(s, e, s);
    } else {
      match e
      case ESource(x) => TravelsSource(s, x);
      case EPrep(x) => TravelsPrep(s, x);
      case EAuth(x) => TravelsAuth(s, x);
      case EComp(x) => TravelsComp(s, x);
      case EControl(x) => TravelsControl(s, x);
    }
  }

  /** Every entry goes on the heap with the time and the number that its task has for it, and comes off as the
      retry in hand, when it is the first and due; the heap changes in no other way until it is emptied. */
  lemma RetriesWait(s: Sys, e: Event)
    requires Reachable(s) && !Empties(e)
    ensures Heaped(s, e, Step(s, e))
  {
    ReachableInv(s);
    TravelsStep(s, e);
    hide Inv, Step, Heaped, InOrder, Reachable;
  }

  // ---------------------------------------------------------------- first in, first out

  /** What a run puts into its queues and takes out of them. */
  datatype Traffic = Traffic(
    sources: seq<string>, sourced: seq<string>, prepareds: seq<Job>, prepared: seq<Job>, completions: seq<Job>,
    completed: seq<Job>)

  function TrafficOf(s: Sys, es: seq<Event>): Traffic
    decreases |es|
  {
    if es == [] then Traffic([], [], [], [], [], [])
    else
      var (t, e) := (Step(s, es[0]), es[0]);
      var rest := TrafficOf(t, es[1..]);
      Traffic(SourceIn(s, e) + rest.sources, SourceOut(s, t) + rest.sourced,
              PreparedIn(s, t) + rest.prepareds, PreparedOut(s, t) + rest.prepared,
              CompletionIn(s, t) + rest.completions, CompletionOut(s, t) + rest.completed)
  }

  lemma Chain<T>(q: seq<T>, i: seq<T>, o: seq<T>, r: seq<T>, xs: seq<T>, ys: seq<T>, last: seq<T>)
    requires q + i == o + r && r + xs == ys + last
    ensures q + (i + xs) == (o + ys) + last
  {
    assert q + (i + xs) == (q + i) + xs;
    assert (o + r) + xs == o + (r + xs);
    assert o + (ys + last) == (o + ys) + last;
  }

  lemma {:induction false} FifoFrom(s: Sys, es: seq<Event>)
    requires Inv(s) && forall e | e in es :: !Empties(e)
    ensures var (t, f) := (Run(s, es), TrafficOf(s, es));
            && s.at.sourceQ + f.sources == f.sourced + t.at.sourceQ
            && s.at.preparedQ + f.prepareds == f.prepared + t.at.preparedQ
            && s.at.completionQ + f.completions == f.completed + t.at.completionQ
    decreases |es|
  {
    hide Inv, Step, SourceIn, SourceOut, PreparedIn, PreparedOut, CompletionIn, CompletionOut, Empties, Heaped;
    if es != [] {
      assert es[0] in es;
      var t, e := Step(s, es[0]), es[0];
      TravelsStep(s, e);
      InvStep(s, e);
      FifoFrom(t, es[1..]);
      var f, u := TrafficOf(t, es[1..]), Run(t, es[1..]);
      Chain(s.at.sourceQ, SourceIn(s, e), SourceOut(s, t), t.at.sourceQ, f.sources, f.sourced, u.at.sourceQ);
      Chain(s.at.preparedQ, PreparedIn(s, t), PreparedOut(s, t), t.at.preparedQ, f.prepareds, f.prepared,
        u.at.preparedQ);
      Chain(s.at.completionQ, CompletionIn(s, t), CompletionOut(s, t), t.at.completionQ, f.completions, f.completed,
        u.at.completionQ);
    }
  }

  /** Over every run of a process, the prepare worker gets the sources in the order in which they came into the
      source queue, and the other two tasks their jobs likewise: what was queued at first and came in since is
      what was taken and then what is queued at the end. */
  lemma QueuesAreFifo(s: Sys, es: seq<Event>)
    requires Reachable(s) && forall e | e in es :: !Empties(e)
    ensures var (t, f) := (Run(s, es), TrafficOf(s, es));
            && s.at.sourceQ + f.sources == f.sourced + t.at.sourceQ
            && s.at.preparedQ + f.prepareds == f.prepared + t.at.preparedQ
            && s.at.completionQ + f.completions == f.completed + t.at.completionQ
  {
    ReachableInv(s);
    FifoFrom(s, es);
  }

  // ---------------------------------------------------------------- the life of a source

  function StateOf(mem: Memory, fp: string): Option<PState>
  {
    if fp in mem.states then Some(mem.states[fp]) else None
  }

  predicate PrepHas(s: Sys, fp: string) { s.at.prep.PFlow? && s.at.prep.job.fp == fp }

  predicate AuthHas(s: Sys, fp: string) { HoldsJob(s.at.auth) && s.at.auth.job.fp == fp }

  predicate CompHas(s: Sys, fp: string) { CompHolds(s.at.comp) && s.at.comp.job.fp == fp }

  /** The edges: which event takes a source from one state to another. */
  predicate Edge(s: Sys, e: Event, fp: string, from: Option<PState>, to: Option<PState>)
  {
    match (from, to)
    case (None, Some(Queued)) => e == ESource(Admit(fp))
    case (Some(Queued), None) =>
      e.ESource? && e.source.AdmitCancelled? && e.source.i < |s.at.admits| && s.at.admits[e.source.i] == fp
    case (Some(Queued), Some(Prepared)) => e == EPrep(FlowOk) && PrepHas(s, fp)
    case (Some(Queued), Some(RetryWaiting)) => e == EPrep(FlowFailed) && PrepHas(s, fp)
    case (Some(Queued), Some(Terminal)) => (e == EPrep(FlowInvalid) || e == EPrep(FlowFailed)) && PrepHas(s, fp)
    case (Some(Prepared), Some(Active)) => e == EAuth(Start) && AuthHas(s, fp) && s.at.auth.AFlow?
    case (Some(Prepared), Some(RetryWaiting)) =>
      (e == EAuth(RefreshFailed) || e == EAuth(AuthCancelled)) && AuthHas(s, fp)
    case (Some(Prepared), Some(Terminal)) => (e == EAuth(RefreshInvalid) || e == EAuth(RefreshFailed)) && AuthHas(s, fp)
    case (Some(Prepared), Some(Imported)) =>
      (e == EAuth(AuthEvent.Paced) || e == EAuth(Start)) && AuthHas(s, fp) && L.HasImported(s.book.jobs, fp)
    case (Some(Active), Some(RetryWaiting)) =>
      || (e.EAuth? && (e.auth.Confirmed? || e.auth.AuthCancelled?) && AuthHas(s, fp) && s.at.auth.AConfirm?)
      || (e.EComp? && (e.comp.PollFailed? || e.comp.CompCancelled? || e.comp.StoreFailed?) && CompHas(s, fp))
    case (Some(Active), Some(Terminal)) =>
      || (e.EAuth? && e.auth.Confirmed? && AuthHas(s, fp) && s.at.auth.AConfirm?)
      || (e.EComp? && (e.comp.PollFailed? || e.comp.PollRefused? || e.comp.SinkMissing? || e.comp.StoreFailed?)
          && CompHas(s, fp))
    case (Some(Active), Some(Imported)) => e == EComp(Commit) && CompHas(s, fp) && s.at.comp.CStored?
    case (Some(RetryWaiting), Some(Queued)) =>
      e.ESource? && e.source.Pop? && e.source.i < |s.at.heap| && s.at.heap[e.source.i].fp == fp
      && s.at.heap[e.source.i].due <= s.clock
    case _ => false
  }

  predicate AlongEdge(s: Sys, e: Event, fp: string, t: Sys)
  {
    StateOf(t.mem, fp) == StateOf(s.mem, fp) || Edge(s, e, fp, StateOf(s.mem, fp), StateOf(t.mem, fp))
  }

  /** The states of the sources that the workers have in hand, and of those that wait. */
  lemma HandStates(s: Sys, fp: string)
    requires Inv(s)
    ensures PrepHas(s, fp) ==> InState(s.mem, fp, Queued)
    ensures AuthHas(s, fp) ==> InState(s.mem, fp, if s.at.auth.AConfirm? || s.at.auth.APut? then Active else Prepared)
    ensures CompHas(s, fp) ==> InState(s.mem, fp, Active)
  {
    assert Own(s, fp);
    hide QueueIn;
    if PrepHas(s, fp) {
      OwnAt(s, fp, Queued);
    }
    if AuthHas(s, fp) {
      OwnAt(s, fp, if s.at.auth.AConfirm? || s.at.auth.APut? then Active else Prepared);
    }
    if CompHas(s, fp) {
      OwnAt(s, fp, Active);
    }
  }

  lemma EdgeSource(s: Sys, e: SourceEvent, fp: string)
    requires Inv(s)
    ensures AlongEdge(s, ESource(e), fp, SourceStep(s, e))
  {
    if e.Pop? {
      WaitingFacts(s, e.i);
    }
    hide Inv, IsFirst, Drop;
  }

  lemma EdgePrep(s: Sys, e: PrepEvent, fp: string)
    requires PrepHas(s, fp) ==> InState(s.mem, fp, Queued)
    ensures AlongEdge(s, EPrep(e), fp, PrepStep(s, e))
  {
    hide L.Finish, L.StartJob, Fail;
    if s.at.prep.PFlow? {
      OwnFail(s, s.at.prep.job, L.SourceInvalid, "device_flow_invalid", NoRetry);
      OwnFail(s, s.at.prep.job, L.TransportFailed, "device_flow_failed", Transient);
    }
  }

  /** The step changes at most the state of `x`, and to one of two. */
  predicate Turns(s: Sys, t: Sys, x: string, one: PState, other: PState)
  {
    t.mem.states == s.mem.states || t.mem.states == s.mem.states[x := one] || t.mem.states == s.mem.states[x := other]
  }

  lemma ParkedTurns(s: Sys, t: Sys, job: Job, status: L.JobStatus, reason: string, retry: Retry)
    requires t.mem == s.mem
    ensures Turns(s, Parked(Fail(t, job, status, reason, retry), job.fp), job.fp, RetryWaiting, Terminal)
    ensures retry.NoRetry? ==>
              Turns(s, Parked(Fail(t, job, status, reason, retry), job.fp), job.fp, Terminal, Terminal)
  {
    hide Fail;
    OwnFail(t, job, status, reason, retry);
  }

  lemma ConfirmTurns(s: Sys, o: Outcome)
    requires s.at.auth.AConfirm?
    ensures Turns(s, ConfirmStep(s, s.at.auth.job, s.at.auth.probe, o), s.at.auth.job.fp, RetryWaiting, Terminal)
  {
    hide Fail, Parked, G.Apply, G.Limit, P.Succeeded, P.Limited;
    var job, probe := s.at.auth.job, s.at.auth.probe;
    var (status, reason, retry) := Verdict(o);
    ParkedTurns(s, Gate(s, G.CallLimit(probe)), job, status, reason, retry);
    ParkedTurns(s, Gate(s, G.CallLimit(probe)).(pacer := P.Limited(s.pacer)), job, status, reason, retry);
    ParkedTurns(s, Gate(s, G.CallShrug(probe)), job, status, reason, retry);
  }

  lemma EndTurns(s: Sys)
    requires HoldsJob(s.at.auth)
    ensures Turns(s, AuthCancel(s), s.at.auth.job.fp, RetryWaiting, RetryWaiting)
    ensures s.flags.stopping ==> AuthCancel(s).mem == s.mem
    ensures Turns(s, AlreadyImported(s, s.at.auth.job, ProbeOf(s.at.auth)), s.at.auth.job.fp, Imported, Imported)
  {
    hide L.Finish, G.Apply;
  }

  /** The gate is closed only by the shutdown, so the task that it turns away leaves its source alone. */
  lemma PermitTurns(s: Sys)
    requires s.at.auth.AGate? && (s.gate.g.closed ==> s.flags.stopping)
    ensures PermitStep(s).mem == s.mem
  {
    hide L.Finish, G.Apply;
  }

  lemma EdgeAuth(s: Sys, e: AuthEvent, fp: string)
    requires s.gate.g.closed ==> s.flags.stopping
    requires !s.flags.stopping && s.flags.authDoomed ==> !s.at.auth.APut?
    requires AuthHas(s, fp) ==>
               InState(s.mem, fp, if s.at.auth.AConfirm? || s.at.auth.APut? then Active else Prepared)
    ensures AlongEdge(s, EAuth(e), fp, AuthStep(s, e))
  {
    hide Fail, G.Apply, L.HasImported, L.MarkStarted, P.Delay, ConfirmStep, PermitStep, AuthCancel,
      AlreadyImported, Parked;
    var a := s.at.auth;
    if HoldsJob(a) {
      EndTurns(s);
    }
    if e.Permit? && a.AGate? {
      PermitTurns(s);
    } else if e.Confirmed? && a.AConfirm? {
      ConfirmTurns(s, e.o);
    } else if a.AFlow? {
      ParkedTurns(s, Gate(s, G.CallShrug(a.probe)), a.job, L.SourceInvalid, "device_flow_invalid", NoRetry);
      ParkedTurns(s, Gate(s, G.CallShrug(a.probe)), a.job, L.TransportFailed, "device_flow_refresh_failed", Transient);
    }
  }

  lemma EdgeComp(s: Sys, e: CompEvent, fp: string)
    requires CompHas(s, fp) ==> InState(s.mem, fp, Active)
    ensures AlongEdge(s, EComp(e), fp, CompStep(s, e))
  {
    hide L.Finish, Fail;
    var c := s.at.comp;
    if CompHolds(c) {
      OwnFail(s, c.job, L.TransportFailed, if e.PollFailed? then e.reason else "", Transient);
      OwnFail(s, c.job, L.SinkFailed, "sink_unconfigured", NoRetry);
      OwnFail(s, c.job, L.SinkFailed, "sink_failed", Transient);
      if e.PollRefused? {
        OwnFail(s, c.job, RefusalOf(e.why).0, RefusalOf(e.why).1, NoRetry);
      }
    }
  }

  lemma EdgeControl(s: Sys, e: ControlEvent, fp: string)
    requires !e.Boot?
    ensures ControlStep(s, e).mem == s.mem
  {
    hide L.Finish, L.StartJob, L.RecoverPending, FinishAll, G.Apply;
  }

  lemma EdgeFacts(s: Sys)
    requires Inv(s)
    ensures s.gate.g.closed ==> s.flags.stopping
    ensures s.flags.authDoomed ==> !s.at.auth.APut?
  {
  }

  /** The life of a source: within a process its state changes only along the edges, by the event of the worker
      that has the source in hand, or, out of the wait for a retry, when its entry is due. */
  lemma StatesMoveAlong(s: Sys, e: Event, fp: string)
    requires Reachable(s) && !(e.EControl? && e.control.Boot?)
    ensures AlongEdge(s, e, fp, Step(s, e))
  {
    ReachableInv(s);
    HandStates(s, fp);
    EdgeFacts(s);
    hide Inv, SourceStep, PrepStep, AuthStep, CompStep, ControlStep, Edge, Reachable, PrepHas, AuthHas, CompHas;
    match e
    case ESource(x) => EdgeSource(s, x, fp);
    case EPrep(x) => EdgePrep(s, x, fp);
    case EAuth(x) => EdgeAuth(s, x, fp);
    case EComp(x) => EdgeComp(s, x, fp);
    case EControl(x) => EdgeControl(s, x, fp);
  }
}
