/** Commits and failures over a run: no source is imported twice, no stored credential goes without its
    row, and a source fails transiently at most four times. */
module PipelineHistory {
  import opened Prelude
  import L = LedgerBook
  import G = RateGate
  import P = Pacing
  import opened Pipeline
  import opened PipelinePlaces
  import opened PipelineRows
  import opened PipelineImports

  // ---------------------------------------------------------------- imports

  function Storing(c: Comp, fp: string): nat { One(c.CStored? && c.job.fp == fp) }

  /** The imported rows of a source are the commits of this pipeline and of other writers; this
      pipeline commits a source at most once, and then knows it; and what the sink has stored is what was
      committed, is about to be, or was cut, by the death of the process or by a second cancellation. */
  ghost predicate Imports(s: Sys, fp: string)
  {
    && ImportedRows(s.book.jobs, fp) == Count(s.past.imports, fp) + Count(s.past.outside, fp)
    && Count(s.past.imports, fp) <= 1
    && (Count(s.past.imports, fp) == 1 ==> InState(s.mem, fp, Imported))
    && Count(s.past.sunk, fp) == Count(s.past.imports, fp) + Storing(s.at.comp, fp) + Count(s.past.cut, fp)
       + Count(s.past.severed, fp)
  }

  predicate Quiet(e: Event)
  {
    && !(e.EComp? && (e.comp.Commit? || e.comp.Sunk? || e.comp.StoreCancelled?))
    && !(e.EControl? && (e.control.Boot? || e.control.ImportElsewhere? || e.control.LateStore?))
  }

  /** Nothing but a commit, a store, a restart and another writer touches the history of imports. */
  lemma QuietStep(s: Sys, e: Event)
    requires Quiet(e)
    ensures var t := Step(s, e);
            && t.past.imports == s.past.imports && t.past.outside == s.past.outside
            && t.past.sunk == s.past.sunk && t.past.cut == s.past.cut && t.past.severed == s.past.severed
            && t.past.receipts == s.past.receipts
            && forall fp :: Storing(t.at.comp, fp) == Storing(s.at.comp, fp)
  {
    hide SourceStep, PrepStep, AuthStep, CompStep, ControlStep;
    match e
    case ESource(x) => QuietSource(s, x);
    case EPrep(x) => QuietPrep(s, x);
    case EAuth(x) => QuietAuth(s, x);
    case EComp(x) => QuietComp(s, x);
    case EControl(x) => QuietControl(s, x);
  }

  /** The parts of the history that are about imports, and the completion task. */
  predicate SameImports(s: Sys, t: Sys)
  {
    && t.past.imports == s.past.imports && t.past.outside == s.past.outside
    && t.past.sunk == s.past.sunk && t.past.cut == s.past.cut && t.past.severed == s.past.severed
    && t.past.receipts == s.past.receipts
  }

  /** No source is forgotten. */
  predicate Grows(s: Sys, t: Sys) { s.mem.states.Keys <= t.mem.states.Keys }

  lemma QuietFail(s: Sys, job: Job, status: L.JobStatus, reason: string, retry: Retry)
    ensures SameImports(s, Fail(s, job, status, reason, retry).0) && Fail(s, job, status, reason, retry).0.at == s.at
    ensures Grows(s, Fail(s, job, status, reason, retry).0)
  {
    hide L.Finish;
  }

  lemma QuietSource(s: Sys, e: SourceEvent)
    ensures SameImports(s, SourceStep(s, e)) && SourceStep(s, e).at.comp == s.at.comp
  {
    hide IsFirst, Drop;
  }

  lemma QuietPrep(s: Sys, e: PrepEvent)
    ensures SameImports(s, PrepStep(s, e)) && PrepStep(s, e).at.comp == s.at.comp && Grows(s, PrepStep(s, e))
  {
    hide L.Finish, L.StartJob, Fail;
    if s.at.prep.PFlow? {
      QuietFail(s, s.at.prep.job, L.SourceInvalid, "device_flow_invalid", NoRetry);
      QuietFail(s, s.at.prep.job, L.TransportFailed, "device_flow_failed", Transient);
    }
  }

  /** What the steps of the authorization task have in common. */
  predicate QuietTo(s: Sys, t: Sys) { SameImports(s, t) && t.at.comp == s.at.comp && Grows(s, t) }

  lemma QuietParked(s: Sys, t: Sys, job: Job, status: L.JobStatus, reason: string, retry: Retry)
    requires t.mem == s.mem && t.past == s.past && t.at == s.at
    ensures QuietTo(s, Parked(Fail(t, job, status, reason, retry), job.fp))
  {
    hide Fail;
    QuietFail(t, job, status, reason, retry);
  }

  lemma QuietCancel(s: Sys)
    requires HoldsJob(s.at.auth)
    ensures QuietTo(s, AuthCancel(s))
  {
    hide L.Finish, G.Apply;
  }

  lemma QuietImported(s: Sys, job: Job, probe: Option<nat>)
    ensures QuietTo(s, AlreadyImported(s, job, probe))
  {
    hide L.Finish, G.Apply;
  }

  lemma QuietPermit(s: Sys)
    requires s.at.auth.AGate?
    ensures QuietTo(s, PermitStep(s))
  {
    hide G.Apply, G.Ask, AuthCancel;
    QuietCancel(Gate(s, G.CallAsk(!s.flags.paused)));
  }

  lemma QuietConfirm(s: Sys, o: Outcome)
    requires s.at.auth.AConfirm?
    ensures QuietTo(s, ConfirmStep(s, s.at.auth.job, s.at.auth.probe, o))
  {
    hide Fail, G.Apply, G.Limit, P.Succeeded, P.Limited, Verdict, Parked;
    var job, probe := s.at.auth.job, s.at.auth.probe;
    var (status, reason, retry) := Verdict(o);
    QuietParked(s, Gate(s, G.CallLimit(probe)), job, status, reason, retry);
    QuietParked(s, Gate(s, G.CallLimit(probe)).(pacer := P.Limited(s.pacer)), job, status, reason, retry);
    QuietParked(s, Gate(s, G.CallShrug(probe)), job, status, reason, retry);
  }

  lemma QuietAuth(s: Sys, e: AuthEvent)
    ensures QuietTo(s, AuthStep(s, e))
  {
    hide L.HasImported, L.MarkStarted, Fail, G.Apply, P.Delay, AuthCancel, PermitStep, ConfirmStep, AlreadyImported,
      Parked;
    var a := s.at.auth;
    if HoldsJob(a) {
      QuietCancel(s);
      QuietImported(s, a.job, ProbeOf(a));
    }
    if e.Permit? && a.AGate? {
      QuietPermit(s);
    } else if e.Confirmed? && a.AConfirm? {
      QuietConfirm(s, e.o);
    } else if a.AFlow? {
      QuietParked(s, Gate(s, G.CallShrug(a.probe)), a.job, L.SourceInvalid, "device_flow_invalid", NoRetry);
      QuietParked(s, Gate(s, G.CallShrug(a.probe)), a.job, L.TransportFailed, "device_flow_refresh_failed", Transient);
    }
  }

  lemma QuietComp(s: Sys, e: CompEvent)
    ensures Grows(s, CompStep(s, e))
    ensures !e.Commit? && !e.Sunk? && !e.StoreCancelled? ==>
              && SameImports(s, CompStep(s, e))
              && forall fp :: Storing(CompStep(s, e).at.comp, fp) == Storing(s.at.comp, fp)
  {
    hide L.Finish, Fail;
    var c := s.at.comp;
    if CompHolds(c) {
      QuietFail(s, c.job, L.TransportFailed, if e.PollFailed? then e.reason else "", Transient);
      QuietFail(s, c.job, L.SinkFailed, "sink_unconfigured", NoRetry);
      QuietFail(s, c.job, L.SinkFailed, "sink_failed", Transient);
      if e.PollRefused? {
        QuietFail(s, c.job, RefusalOf(e.why).0, RefusalOf(e.why).1, NoRetry);
      }
    }
  }

  lemma QuietControl(s: Sys, e: ControlEvent)
    requires !e.Boot?
    ensures Grows(s, ControlStep(s, e))
    ensures !e.ImportElsewhere? && !e.LateStore? ==>
              SameImports(s, ControlStep(s, e)) && ControlStep(s, e).at.comp == s.at.comp
  {
    hide L.Finish, L.StartJob, L.RecoverPending, FinishAll, G.Apply;
  }

  /** The completion task holds an active source and a pending row that carries its name. */
  lemma StoredFacts(s: Sys)
    requires s.at.comp.CStored? && Own(s, s.at.comp.job.fp) && RowHeld(s, s.at.comp.job.id) && Named(s.book.jobs, s.at)
    ensures InState(s.mem, s.at.comp.job.fp, Active)
    ensures L.IsPending(s.book.jobs, s.at.comp.job.id)
    ensures s.book.jobs[s.at.comp.job.id].source == s.at.comp.job.fp
  {
    hide Count, JobCount, HeapCount, QueueId, PrepIn, AuthIn, PrepId, AuthId, L.IsPending, NamedQueue, QueueIn;
    OwnAt(s, s.at.comp.job.fp, Active);
  }

  lemma ImportsCommit(s: Sys, fp: string)
    requires Imports(s, fp) && s.at.comp.CStored?
    requires Own(s, s.at.comp.job.fp) && RowHeld(s, s.at.comp.job.id) && Named(s.book.jobs, s.at)
    ensures var c := s.at.comp; Imports(CommitStep(s, c.job, c.receipt, c.cancelled), fp)
  {
    hide Count, ImportedRows, Own, RowHeld, Named, L.Finish;
    var c := s.at.comp;
    StoredFacts(s);
    FinishImports(s.book, c.job.id, "imported", Some(c.receipt), s.clock.Floor, fp);
    CountPush(s.past.imports, c.job.fp, fp);
  }

  lemma ImportsElsewhere(s: Sys, x: string, receipt: string, fp: string)
    requires Imports(s, fp)
    ensures Imports(ControlStep(s, ImportElsewhere(x, receipt)), fp)
  {
    hide Count, ImportedRows, L.Finish, L.StartJob;
    var b, id := L.StartJob(s.book, x), |s.book.jobs|;
    StartKeeps(s.book, x);
    StartPends(s.book, x, id);
    FinishImports(b, id, "imported", Some(receipt), s.clock.Floor, fp);
    ImportedRowsSame(s.book.jobs, b.jobs, fp);
    CountPush(s.past.outside, x, fp);
  }

  /** A cancellation of a store moves a written credential from the commits in progress to those cut. */
  lemma ImportsStoreCancelled(s: Sys, fp: string)
    requires Imports(s, fp)
    ensures Imports(CompStep(s, StoreCancelled), fp)
  {
    hide Count, ImportedRows;
    if Severs(s.at.comp) {
      CountPush(s.past.severed, s.at.comp.job.fp, fp);
    }
  }

  lemma ImportsLateStore(s: Sys, i: nat, fp: string)
    requires Imports(s, fp)
    ensures Imports(ControlStep(s, LateStore(i)), fp)
  {
    hide Count, ImportedRows, Drop;
    if i < |s.past.loose| {
      CountPush(s.past.severed, s.past.loose[i], fp);
      CountPush(s.past.sunk, s.past.loose[i], fp);
    }
  }

  lemma ImportedStatesIff(jobs: seq<L.Row>, fp: string)
    ensures fp in ImportedStates(jobs) <==> L.HasImported(jobs, fp)
    ensures fp in ImportedStates(jobs) ==> ImportedStates(jobs)[fp] == Imported
  {
  }

  lemma ImportsBoot(s: Sys, base: real, interval: real, start: real, fp: string)
    requires Imports(s, fp)
    ensures Imports(ControlStep(s, Boot(base, interval, start)), fp)
  {
    hide Count, ImportedRows, L.RecoverPending, L.Reopen, P.Make, ImportedStates, Keeps;
    var t := ControlStep(s, Boot(base, interval, start));
    KeepsControl(s, Boot(base, interval, start));
    ImportedRowsSame(s.book.jobs, t.book.jobs, fp);
    ImportedRowsIff(t.book.jobs, fp);
    ImportedStatesIff(t.book.jobs, fp);
    if s.at.comp.CStored? {
      CountPush(s.past.cut, s.at.comp.job.fp, fp);
    }
  }

  lemma ImportsStep(s: Sys, e: Event, fp: string)
    requires Imports(s, fp) && Own(s, fp) && Named(s.book.jobs, s.at)
    requires s.at.comp.CStored? ==> Own(s, s.at.comp.job.fp) && RowHeld(s, s.at.comp.job.id)
    ensures Imports(Step(s, e), fp)
  {
    hide Own, RowHeld, Named, Count, ImportedRows, SourceStep, PrepStep, AuthStep, Keeps;
    if Quiet(e) {
      hide ControlStep, CompStep, Step;
      QuietStep(s, e);
      RowsOverStep(s, e);
      ImportedRowsSame(s.book.jobs, Step(s, e).book.jobs, fp);
      if InState(s.mem, fp, Imported) {
        FinalStays(s, e, fp);
      }
    } else if e.EControl? {
      hide ControlStep;
      if e.control.LateStore? {
        ImportsLateStore(s, e.control.i, fp);
      } else if e.control.Boot? {
        ImportsBoot(s, e.control.base, e.control.interval, e.control.start, fp);
      } else {
        ImportsElsewhere(s, e.control.fp, e.control.receipt, fp);
      }
    } else if e.comp.StoreCancelled? {
      hide CompStep;
      ImportsStoreCancelled(s, fp);
    } else if s.at.comp.CStored? && e.comp.Commit? {
      hide CommitStep;
      ImportsCommit(s, fp);
    } else if s.at.comp.CStore? && e.comp.Sunk? {
      CountPush(s.past.sunk, s.at.comp.job.fp, fp);
    }
  }

  // ---------------------------------------------------------------- the retry budget

  function Slips(s: Sys, fp: string): nat { Get(s.past.slips, fp) }

  function Retries(s: Sys, fp: string): nat { Get(s.mem.retries, fp) }

  /** A source has failed transiently at most four times in this process, four times only if that made
      it terminal; until then its retry counter counts them. */
  predicate Budget(s: Sys, fp: string)
  {
    && Slips(s, fp) <= 4 && (Slips(s, fp) == 4 ==> InState(s.mem, fp, Terminal))
    && (LiveIn(s.mem, fp) ==> Slips(s, fp) == Retries(s, fp) <= 3)
    && (fp !in s.mem.states || Count(s.at.admits, fp) > 0 ==> Slips(s, fp) == 0 && Retries(s, fp) == 0)
  }

  predicate InHand(at: Places, fp: string)
  {
    || (at.prep.PFlow? && at.prep.job.fp == fp)
    || (HoldsJob(at.auth) && at.auth.job.fp == fp)
    || (CompHolds(at.comp) && at.comp.job.fp == fp)
  }

  /** What a step does to the counters of a source: nothing; a transient failure of a source in hand; or
      an import, after which the counter no longer matters. */
  predicate Counted(s: Sys, t: Sys, fp: string)
  {
    || (Slips(t, fp) == Slips(s, fp) && Retries(t, fp) == Retries(s, fp))
    || (InHand(s.at, fp) && Slips(t, fp) == Slips(s, fp) + 1
        && if Retries(s, fp) < 3 then Retries(t, fp) == Retries(s, fp) + 1 && InState(t.mem, fp, RetryWaiting)
           else InState(t.mem, fp, Terminal))
    || (InHand(s.at, fp) && Slips(t, fp) == Slips(s, fp) && InState(t.mem, fp, Imported))
  }

  lemma CountedFail(s: Sys, job: Job, status: L.JobStatus, reason: string, retry: Retry, fp: string)
    requires job.fp == fp ==> InHand(s.at, fp)
    ensures Counted(s, Fail(s, job, status, reason, retry).0, fp)
    ensures Fail(s, job, status, reason, retry).0.at == s.at
  {
    hide L.Finish, InHand;
  }

  lemma CountedSource(s: Sys, e: SourceEvent, fp: string)
    ensures Counted(s, SourceStep(s, e), fp)
  {
    hide IsFirst, Drop, InHand;
  }

  lemma CountedPrep(s: Sys, e: PrepEvent, fp: string)
    ensures Counted(s, PrepStep(s, e), fp) && PrepStep(s, e).at.admits == s.at.admits
  {
    hide L.Finish, L.StartJob, Fail;
    if s.at.prep.PFlow? {
      CountedFail(s, s.at.prep.job, L.SourceInvalid, "device_flow_invalid", NoRetry, fp);
      CountedFail(s, s.at.prep.job, L.TransportFailed, "device_flow_failed", Transient, fp);
    }
  }

  lemma CountedParked(s: Sys, t: Sys, status: L.JobStatus, reason: string, retry: Retry, fp: string)
    requires HoldsJob(s.at.auth) && t.at == s.at && t.mem == s.mem && t.past == s.past
    ensures var u := Parked(Fail(t, s.at.auth.job, status, reason, retry), s.at.auth.job.fp);
            Counted(s, u, fp) && u.at.admits == s.at.admits
  {
    hide Fail;
    CountedFail(t, s.at.auth.job, status, reason, retry, fp);
  }

  lemma CountedCancel(s: Sys, fp: string)
    requires HoldsJob(s.at.auth)
    ensures Counted(s, AuthCancel(s), fp) && AuthCancel(s).at.admits == s.at.admits
  {
    hide L.Finish, G.Apply, InHand;
  }

  lemma CountedImported(s: Sys, probe: Option<nat>, fp: string)
    requires HoldsJob(s.at.auth)
    ensures var t := AlreadyImported(s, s.at.auth.job, probe); Counted(s, t, fp) && t.at.admits == s.at.admits
  {
    hide L.Finish, G.Apply;
  }

  lemma CountedPermit(s: Sys, fp: string)
    requires s.at.auth.AGate?
    ensures Counted(s, PermitStep(s), fp) && PermitStep(s).at.admits == s.at.admits
  {
    hide G.Apply, G.Ask, AuthCancel, InHand;
    CountedCancel(Gate(s, G.CallAsk(!s.flags.paused)), fp);
  }

  lemma CountedConfirm(s: Sys, o: Outcome, fp: string)
    requires s.at.auth.AConfirm?
    ensures var t := ConfirmStep(s, s.at.auth.job, s.at.auth.probe, o); Counted(s, t, fp) && t.at.admits == s.at.admits
  {
    hide Fail, G.Apply, G.Limit, P.Succeeded, P.Limited, Verdict, Parked, InHand;
    var probe := s.at.auth.probe;
    if !o.Authorized? {
      hide Counted;
      var (status, reason, retry) := Verdict(o);
      CountedParked(s, Gate(s, G.CallLimit(probe)), status, reason, retry, fp);
      CountedParked(s, Gate(s, G.CallLimit(probe)).(pacer := P.Limited(s.pacer)), status, reason, retry, fp);
      CountedParked(s, Gate(s, G.CallShrug(probe)), status, reason, retry, fp);
    }
  }

  lemma CountedAuth(s: Sys, e: AuthEvent, fp: string)
    ensures Counted(s, AuthStep(s, e), fp) && AuthStep(s, e).at.admits == s.at.admits
  {
    hide L.HasImported, L.MarkStarted, Fail, G.Apply, P.Delay, AuthCancel, PermitStep, ConfirmStep, AlreadyImported,
      Parked,
      InHand;
    var a := s.at.auth;
    if HoldsJob(a) {
      CountedCancel(s, fp);
      CountedImported(s, ProbeOf(a), fp);
    }
    if e.Permit? && a.AGate? {
      CountedPermit(s, fp);
    } else if e.Confirmed? && a.AConfirm? {
      CountedConfirm(s, e.o, fp);
    } else if a.AFlow? {
      CountedParked(s, Gate(s, G.CallShrug(a.probe)), L.SourceInvalid, "device_flow_invalid", NoRetry, fp);
      CountedParked(s, Gate(s, G.CallShrug(a.probe)), L.TransportFailed, "device_flow_refresh_failed", Transient, fp);
    }
  }

  lemma CountedCompFails(s: Sys, status: L.JobStatus, reason: string, retry: Retry, fp: string)
    requires CompHolds(s.at.comp)
    ensures var u := CompParked(Fail(s, s.at.comp.job, status, reason, retry), s.at.comp.job.fp);
            Counted(s, u, fp) && u.at.admits == s.at.admits
  {
    hide Fail;
    CountedFail(s, s.at.comp.job, status, reason, retry, fp);
  }

  lemma CountedCompMoves(s: Sys, e: CompEvent, fp: string)
    requires !e.PollRefused? && !e.PollFailed? && !e.SinkMissing? && !e.StoreFailed?
    ensures Counted(s, CompStep(s, e), fp) && CompStep(s, e).at.admits == s.at.admits
  {
    hide L.Finish;
  }

  lemma CountedComp(s: Sys, e: CompEvent, fp: string)
    ensures Counted(s, CompStep(s, e), fp) && CompStep(s, e).at.admits == s.at.admits
  {
    hide Counted, L.Finish, Fail, CompParked;
    var c := s.at.comp;
    CountedSame(s, fp);
    if !e.PollRefused? && !e.PollFailed? && !e.SinkMissing? && !e.StoreFailed? {
      CountedCompMoves(s, e, fp);
    } else if CompHolds(c) {
      CountedCompFails(s, L.TransportFailed, if e.PollFailed? then e.reason else "", Transient, fp);
      CountedCompFails(s, L.SinkFailed, "sink_unconfigured", NoRetry, fp);
      CountedCompFails(s, L.SinkFailed, "sink_failed", Transient, fp);
      if e.PollRefused? {
        CountedCompFails(s, RefusalOf(e.why).0, RefusalOf(e.why).1, NoRetry, fp);
      }
    }
  }

  lemma CountedStep(s: Sys, e: Event, fp: string)
    requires !(e.EControl? && e.control.Boot?)
    ensures Counted(s, Step(s, e), fp)
    ensures !e.ESource? ==> Step(s, e).at.admits == s.at.admits
  {
    hide Counted, SourceStep, PrepStep, AuthStep, CompStep;
    CountedSame(s, fp);
    match e
    case ESource(x) => CountedSource(s, x, fp);
    case EPrep(x) => CountedPrep(s, x, fp);
    case EAuth(x) => CountedAuth(s, x, fp);
    case EComp(x) => CountedComp(s, x, fp);
    case EControl(x) =>
      CountedControl(s, x, fp);
  }

  lemma CountedSame(s: Sys, fp: string)
    ensures Counted(s, s, fp)
  {
  }

  lemma CountedControl(s: Sys, e: ControlEvent, fp: string)
    requires !e.Boot?
    ensures Counted(s, ControlStep(s, e), fp) && ControlStep(s, e).at.admits == s.at.admits
  {
    hide L.Finish, L.StartJob, L.RecoverPending, FinishAll, G.Apply, InHand;
  }

  /** A source in hand is live, and no caller of `admit` holds it. */
  lemma HandIsLive(s: Sys, fp: string)
    requires Own(s, fp) && InHand(s.at, fp)
    ensures LiveIn(s.mem, fp) && Count(s.at.admits, fp) == 0
  {
    hide Count, JobCount, HeapCount;
    assert Spot(s.at, fp, Queued) <= One(InState(s.mem, fp, Queued));
    assert Spot(s.at, fp, Prepared) <= One(InState(s.mem, fp, Prepared));
    assert Spot(s.at, fp, Active) <= One(InState(s.mem, fp, Active));
  }

  lemma AdmitsStep(s: Sys, e: SourceEvent, fp: string)
    requires Own(s, fp)
    ensures Count(SourceStep(s, e).at.admits, fp) > 0 ==> Count(s.at.admits, fp) > 0 || fp !in s.mem.states
    ensures fp in s.mem.states && fp !in SourceStep(s, e).mem.states ==> Count(s.at.admits, fp) > 0
  {
    hide Count, IsFirst, Drop, Own;
    match e
    case Admit(x) => CountPush(s.at.admits, x, fp);
    case AdmitPut(i) =>
      if i < |s.at.admits| {
        CountDrop(s.at.admits, i, fp);
      }
    case AdmitCancelled(i) =>
      if i < |s.at.admits| {
        CountDrop(s.at.admits, i, fp);
      }
    case _ =>
  }

  lemma StatesKept(s: Sys, e: Event)
    requires !e.ESource? && !(e.EControl? && e.control.Boot?)
    ensures Grows(s, Step(s, e))
  {
    hide PrepStep, AuthStep, CompStep, ControlStep;
    match e
    case ESource(x) =>
    case EPrep(x) => QuietPrep(s, x);
    case EAuth(x) => QuietAuth(s, x);
    case EComp(x) => QuietComp(s, x);
    case EControl(x) => QuietControl(s, x);
  }

  lemma BudgetStep(s: Sys, e: Event, fp: string)
    requires Budget(s, fp) && Own(s, fp)
    ensures Budget(Step(s, e), fp)
  {
    hide Own, SourceStep, PrepStep, AuthStep, CompStep, Count, InHand;
    if e.EControl? && e.control.Boot? {
      BudgetBoot(s, e.control, fp);
    } else {
      hide ControlStep, Step;
      var t := Step(s, e);
      CountedStep(s, e, fp);
      if InHand(s.at, fp) {
        HandIsLive(s, fp);
      }
      if fp in s.mem.states && !LiveIn(s.mem, fp) {
        FinalStays(s, e, fp);
      }
      BudgetAdmits(s, e, fp);
    }
  }

  lemma BudgetAdmits(s: Sys, e: Event, fp: string)
    requires Own(s, fp) && !(e.EControl? && e.control.Boot?)
    ensures fp !in Step(s, e).mem.states || Count(Step(s, e).at.admits, fp) > 0 ==>
              fp !in s.mem.states || Count(s.at.admits, fp) > 0
  {
    hide Own, SourceStep, PrepStep, AuthStep, CompStep, Count, ControlStep;
    if e.ESource? {
      AdmitsStep(s, e.source, fp);
    } else {
      CountedStep(s, e, fp);
      StatesKept(s, e);
    }
  }

  lemma BudgetBoot(s: Sys, e: ControlEvent, fp: string)
    requires e.Boot?
    ensures Budget(ControlStep(s, e), fp)
  {
    hide L.RecoverPending, L.Reopen, P.Make, L.WasImported;
  }
}
