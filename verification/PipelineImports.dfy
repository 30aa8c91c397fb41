/** What the pipeline keeps about the ledger: rows are final, held rows carry the name of their source,
    and a source is imported at most once. */
module PipelineImports {
  import opened Prelude
  import L = LedgerBook
  import G = RateGate
  import P = Pacing
  import opened Pipeline
  import opened PipelinePlaces
  import opened PipelineRows

  // ---------------------------------------------------------------- rows over a step

  /** Rows are kept (see `LedgerBook.RowsKept`), and the imported ones are the same. */
  ghost predicate Keeps(before: seq<L.Row>, after: seq<L.Row>)
  {
    && L.RowsKept(before, after)
    && forall i | 0 <= i < |after| :: L.WasImported(after[i]) ==> i < |before| && L.WasImported(before[i])
  }

  lemma FinishKeeps(b: L.Book, x: nat, status: L.JobStatus, reason: string, receipt: Option<string>, now: int)
    ensures L.RowsKept(b.jobs, L.Finish(b, x, status, reason, receipt, now).jobs)
    ensures status != L.Imported ==> Keeps(b.jobs, L.Finish(b, x, status, reason, receipt, now).jobs)
  {
  }

  lemma StartKeeps(b: L.Book, fp: string)
    ensures Keeps(b.jobs, L.StartJob(b, fp).jobs)
    ensures var jobs := L.StartJob(b, fp).jobs; |jobs| == |b.jobs| + 1 && jobs[|b.jobs|].source == fp
  {
    hide L.NextAttempt;
  }

  lemma MarkKeeps(b: L.Book, x: nat)
    ensures Keeps(b.jobs, L.MarkStarted(b, x).jobs)
  {
  }

  lemma RecoverKeeps(b: L.Book, reason: string, now: int)
    ensures Keeps(b.jobs, L.RecoverPending(b, reason, now).jobs)
  {
  }

  lemma {:induction false} FinishAllKeeps(b: L.Book, jobs: seq<Job>, now: int)
    ensures Keeps(b.jobs, FinishAll(b, jobs, now).jobs)
    decreases |jobs|
  {
    if jobs != [] {
      FinishKeeps(b, jobs[0].id, L.Cancelled, "shutdown_cancelled", None, now);
      FinishAllKeeps(L.Finish(b, jobs[0].id, L.Cancelled, "shutdown_cancelled", None, now), jobs[1..], now);
    }
  }

  lemma FailKeeps(s: Sys, job: Job, status: L.JobStatus, reason: string, retry: Retry)
    requires status != L.Imported
    ensures Keeps(s.book.jobs, Fail(s, job, status, reason, retry).0.book.jobs)
  {
    hide L.Finish, Keeps, Fail;
    FailBook(s, job, status, reason, retry);
    FinishKeeps(s.book, job.id, status, reason, None, s.clock.Floor);
  }

  lemma KeepsPrep(s: Sys, e: PrepEvent)
    ensures Keeps(s.book.jobs, PrepStep(s, e).book.jobs)
  {
    hide L.Finish, L.StartJob, L.NextAttempt, Fail, L.WasImported;
    if s.at.sourceQ != [] {
      StartKeeps(s.book, s.at.sourceQ[0]);
    }
    if s.at.prep.PFlow? || s.at.prep.PPut? {
      var job := s.at.prep.job;
      FailKeeps(s, job, L.SourceInvalid, "device_flow_invalid", NoRetry);
      FailKeeps(s, job, L.TransportFailed, "device_flow_failed", Transient);
      FinishKeeps(s.book, job.id, L.Cancelled, "shutdown_cancelled", None, s.clock.Floor);
    }
  }

  lemma KeepsConfirm(s: Sys, o: Outcome)
    requires s.at.auth.AConfirm?
    ensures Keeps(s.book.jobs, ConfirmStep(s, s.at.auth.job, s.at.auth.probe, o).book.jobs)
  {
    hide L.Finish, Fail, Keeps, G.Apply, G.Limit, P.Succeeded, P.Limited;
    var job, probe := s.at.auth.job, s.at.auth.probe;
    var (status, reason, retry) := Verdict(o);
    if o.Authorized? {
      KeepsRefl(s.book.jobs);
    } else {
      FailKeeps(Gate(s, G.CallLimit(probe)), job, status, reason, retry);
      FailKeeps(Gate(s, G.CallLimit(probe)).(pacer := P.Limited(s.pacer)), job, status, reason, retry);
      FailKeeps(Gate(s, G.CallShrug(probe)), job, status, reason, retry);
    }
  }

  lemma KeepsRefl(jobs: seq<L.Row>)
    ensures Keeps(jobs, jobs)
  {
  }

  lemma KeepsCancel(s: Sys)
    requires HoldsJob(s.at.auth)
    ensures Keeps(s.book.jobs, AuthCancel(s).book.jobs)
  {
    hide L.Finish, Keeps, G.Apply;
    FinishKeeps(s.book, s.at.auth.job.id, L.Cancelled, CancelReason(s), None, s.clock.Floor);
  }

  lemma KeepsPermit(s: Sys)
    requires s.at.auth.AGate?
    ensures Keeps(s.book.jobs, PermitStep(s).book.jobs)
  {
    hide Keeps, G.Apply, G.Ask, AuthCancel;
    KeepsRefl(s.book.jobs);
    KeepsCancel(Gate(s, G.CallAsk(!s.flags.paused)));
  }

  lemma KeepsAuth(s: Sys, e: AuthEvent)
    ensures Keeps(s.book.jobs, AuthStep(s, e).book.jobs)
  {
    hide L.Finish, L.MarkStarted, L.HasImported, Fail, Keeps, G.Apply, P.Delay, ConfirmStep, PermitStep, AuthCancel;
    var a := s.at.auth;
    KeepsRefl(s.book.jobs);
    if HoldsJob(a) {
      KeepsCancel(s);
      MarkKeeps(s.book, a.job.id);
      FinishKeeps(s.book, a.job.id, L.Cancelled, "already_imported", None, s.clock.Floor);
    }
    if e.Permit? && a.AGate? {
      KeepsPermit(s);
    } else if e.Confirmed? && a.AConfirm? {
      KeepsConfirm(s, e.o);
    } else if a.AFlow? {
      FailKeeps(Gate(s, G.CallShrug(a.probe)), a.job, L.SourceInvalid, "device_flow_invalid", NoRetry);
      FailKeeps(Gate(s, G.CallShrug(a.probe)), a.job, L.TransportFailed, "device_flow_refresh_failed", Transient);
    }
  }

  lemma KeepsComp(s: Sys, e: CompEvent)
    ensures L.RowsKept(s.book.jobs, CompStep(s, e).book.jobs)
    ensures !e.Commit? ==> Keeps(s.book.jobs, CompStep(s, e).book.jobs)
  {
    hide L.Finish, L.WasImported, Fail;
    var c := s.at.comp;
    KeepsRefl(s.book.jobs);
    if CompHolds(c) {
      FailKeeps(s, c.job, L.TransportFailed, if e.PollFailed? then e.reason else "", Transient);
      FailKeeps(s, c.job, L.SinkFailed, "sink_unconfigured", NoRetry);
      FailKeeps(s, c.job, L.SinkFailed, "sink_failed", Transient);
      FinishKeeps(s.book, c.job.id, L.Cancelled, CancelReason(s), None, s.clock.Floor);
      if e.PollRefused? {
        FailKeeps(s, c.job, RefusalOf(e.why).0, RefusalOf(e.why).1, NoRetry);
      }
      if c.CStored? {
        FinishKeeps(s.book, c.job.id, L.Imported, "imported", Some(c.receipt), s.clock.Floor);
      }
    }
  }

  lemma KeepsTwice(a: seq<L.Row>, b: seq<L.Row>, c: seq<L.Row>)
    requires Keeps(a, b) && Keeps(b, c)
    ensures Keeps(a, c)
  {
  }

  lemma KeepsSettled(s: Sys)
    ensures Keeps(s.book.jobs, Settled(s).book.jobs)
  {
    hide FinishAll, L.RecoverPending, Keeps;
    var now := s.clock.Floor;
    var b := FinishAll(s.book, s.at.preparedQ, now);
    var c := FinishAll(b, s.at.completionQ, now);
    FinishAllKeeps(s.book, s.at.preparedQ, now);
    FinishAllKeeps(b, s.at.completionQ, now);
    RecoverKeeps(c, "shutdown_cancelled", now);
    KeepsTwice(s.book.jobs, b.jobs, c.jobs);
    KeepsTwice(s.book.jobs, c.jobs, Settled(s).book.jobs);
  }

  lemma KeepsControl(s: Sys, e: ControlEvent)
    ensures L.RowsKept(s.book.jobs, ControlStep(s, e).book.jobs)
    ensures !e.ImportElsewhere? ==> Keeps(s.book.jobs, ControlStep(s, e).book.jobs)
  {
    hide L.Finish, L.StartJob, L.RecoverPending, L.Reopen, L.WasImported, Settled, G.Apply, P.Make, ImportedStates;
    KeepsRefl(s.book.jobs);
    match e
    case Settle => KeepsSettled(s);
    case Boot(_, interval, start) =>
      ReopenKeeps(s.book);
      RecoverKeeps(L.Reopen(s.book), "recovered_pending", start.Floor);
    case ImportElsewhere(fp, receipt) =>
      StartKeeps(s.book, fp);
      FinishKeeps(L.StartJob(s.book, fp), |s.book.jobs|, L.Imported, "imported", Some(receipt), s.clock.Floor);
    case _ =>
  }

  lemma ReopenKeeps(b: L.Book)
    ensures L.Reopen(b).jobs == b.jobs
  {
  }

  /** Whatever happens, restarts included: no row is lost or renamed, a finished row never changes, and
      only the commit of a stored credential or another writer makes an imported row. */
  lemma RowsOverStep(s: Sys, e: Event)
    ensures L.RowsKept(s.book.jobs, Step(s, e).book.jobs)
    ensures !(e.EComp? && e.comp.Commit?) && !(e.EControl? && e.control.ImportElsewhere?) ==>
              Keeps(s.book.jobs, Step(s, e).book.jobs)
  {
    hide PrepStep, AuthStep, CompStep, ControlStep, L.WasImported;
    KeepsRefl(s.book.jobs);
    match e
    case ESource(x) =>
    case EPrep(x) => KeepsPrep(s, x);
    case EAuth(x) => KeepsAuth(s, x);
    case EComp(x) => KeepsComp(s, x);
    case EControl(x) => KeepsControl(s, x);
  }

  // ---------------------------------------------------------------- held rows are named

  predicate NamedJob(jobs: seq<L.Row>, j: Job) { j.id < |jobs| && jobs[j.id].source == j.fp }

  predicate NamedQueue(jobs: seq<L.Row>, q: seq<Job>) { forall i | 0 <= i < |q| :: NamedJob(jobs, q[i]) }

  predicate Named(jobs: seq<L.Row>, at: Places)
  {
    && (at.prep.PFlow? || at.prep.PPut? ==> NamedJob(jobs, at.prep.job))
    && NamedQueue(jobs, at.preparedQ)
    && (HoldsJob(at.auth) ==> NamedJob(jobs, at.auth.job))
    && NamedQueue(jobs, at.completionQ)
    && (CompHolds(at.comp) ==> NamedJob(jobs, at.comp.job))
  }

  lemma NamedKept(before: seq<L.Row>, after: seq<L.Row>, at: Places)
    requires L.RowsKept(before, after) && Named(before, at)
    ensures Named(after, at)
  {
  }

  /** Every job in hand afterwards was in hand before, but for the one that the prepare worker starts. */
  lemma NamedStep(s: Sys, e: Event)
    requires Named(s.book.jobs, s.at)
    ensures Named(Step(s, e).book.jobs, Step(s, e).at)
  {
    hide Named, L.RowsKept, Keeps, SourceStep, PrepStep, AuthStep, CompStep, ControlStep;
    RowsOverStep(s, e);
    var jobs := Step(s, e).book.jobs;
    NamedKept(s.book.jobs, jobs, s.at);
    match e
    case ESource(x) => NamedSource(s, x, jobs);
    case EPrep(x) =>
      if !s.flags.settled {
        NamedPrep(s, x);
      }
    case EAuth(x) => NamedAuth(s, x, jobs);
    case EComp(x) => NamedComp(s, x, jobs);
    case EControl(x) => NamedControl(s, x, jobs);
  }

  lemma NamedSource(s: Sys, e: SourceEvent, jobs: seq<L.Row>)
    requires Named(jobs, s.at)
    ensures Named(jobs, SourceStep(s, e).at)
  {
    hide NamedJob, NamedQueue, IsFirst;
  }

  lemma NamedPrep(s: Sys, e: PrepEvent)
    requires Named(PrepStep(s, e).book.jobs, s.at)
    ensures Named(PrepStep(s, e).book.jobs, PrepStep(s, e).at)
  {
    hide L.Finish, L.StartJob, Fail;
    if s.at.prep.PFlow? {
      OwnFail(s, s.at.prep.job, L.SourceInvalid, "device_flow_invalid", NoRetry);
      OwnFail(s, s.at.prep.job, L.TransportFailed, "device_flow_failed", Transient);
    }
    if s.at.sourceQ != [] {
      StartKeeps(s.book, s.at.sourceQ[0]);
    }
  }

  lemma ParkedHoldsNone(s: Sys, job: Job, status: L.JobStatus, reason: string, retry: Retry, fp: string)
    ensures var t := Parked(Fail(s, job, status, reason, retry), fp);
            t.at == s.at.(auth := t.at.auth) && !HoldsJob(t.at.auth)
  {
    hide Fail;
    OwnFail(s, job, status, reason, retry);
  }

  /** How the authorization task changes hands: it keeps its job, lets it go to the completion queue or
      lets it go altogether, or takes the first prepared one; nobody else's hands change. */
  predicate Hands(s: Sys, t: Sys)
  {
    var a, b := s.at.auth, t.at.auth;
    && (HoldsJob(b) ==> (HoldsJob(a) && b.job == a.job) || (s.at.preparedQ != [] && b.job == s.at.preparedQ[0]))
    && t.at.comp == s.at.comp && t.at.prep == s.at.prep
    && (t.at.preparedQ == s.at.preparedQ || (s.at.preparedQ != [] && t.at.preparedQ == s.at.preparedQ[1..]))
    && (t.at.completionQ == s.at.completionQ || (HoldsJob(a) && t.at.completionQ == s.at.completionQ + [a.job]))
  }

  lemma HandsParked(s: Sys, t: Sys, status: L.JobStatus, reason: string, retry: Retry)
    requires HoldsJob(s.at.auth) && t.at == s.at
    ensures Hands(s, Parked(Fail(t, s.at.auth.job, status, reason, retry), s.at.auth.job.fp))
  {
    hide Fail;
    ParkedHoldsNone(t, s.at.auth.job, status, reason, retry, s.at.auth.job.fp);
  }

  lemma HandsEnd(s: Sys)
    requires HoldsJob(s.at.auth)
    ensures Hands(s, AuthCancel(s)) && Hands(s, AlreadyImported(s, s.at.auth.job, ProbeOf(s.at.auth)))
  {
    hide L.Finish, G.Apply;
  }

  lemma HandsPermit(s: Sys)
    requires s.at.auth.AGate?
    ensures Hands(s, PermitStep(s))
  {
    hide G.Apply, G.Ask, AuthCancel;
    HandsEnd(Gate(s, G.CallAsk(!s.flags.paused)));
  }

  lemma HandsConfirm(s: Sys, o: Outcome)
    requires s.at.auth.AConfirm?
    ensures Hands(s, ConfirmStep(s, s.at.auth.job, s.at.auth.probe, o))
  {
    hide Fail, G.Apply, G.Limit, P.Succeeded, P.Limited, Verdict, Parked;
    var probe := s.at.auth.probe;
    if !o.Authorized? {
      hide Hands;
      var (status, reason, retry) := Verdict(o);
      HandsParked(s, Gate(s, G.CallLimit(probe)), status, reason, retry);
      HandsParked(s, Gate(s, G.CallLimit(probe)).(pacer := P.Limited(s.pacer)), status, reason, retry);
      HandsParked(s, Gate(s, G.CallShrug(probe)), status, reason, retry);
    }
  }

  lemma AuthHands(s: Sys, e: AuthEvent)
    ensures Hands(s, AuthStep(s, e))
  {
    hide L.HasImported, L.MarkStarted, Fail, G.Apply, P.Delay, AuthCancel, PermitStep, ConfirmStep, AlreadyImported,
      Parked;
    var a := s.at.auth;
    if HoldsJob(a) {
      HandsEnd(s);
    }
    if e.Permit? && a.AGate? {
      HandsPermit(s);
    } else if e.Confirmed? && a.AConfirm? {
      HandsConfirm(s, e.o);
    } else if a.AFlow? {
      HandsParked(s, Gate(s, G.CallShrug(a.probe)), L.SourceInvalid, "device_flow_invalid", NoRetry);
      HandsParked(s, Gate(s, G.CallShrug(a.probe)), L.TransportFailed, "device_flow_refresh_failed", Transient);
    }
  }

  lemma NamedAuth(s: Sys, e: AuthEvent, jobs: seq<L.Row>)
    requires Named(jobs, s.at)
    ensures Named(jobs, AuthStep(s, e).at)
  {
    hide AuthStep, NamedJob;
    AuthHands(s, e);
  }

  lemma NamedComp(s: Sys, e: CompEvent, jobs: seq<L.Row>)
    requires Named(jobs, s.at)
    ensures Named(jobs, CompStep(s, e).at)
  {
    hide L.Finish, Fail, NamedJob;
    var c := s.at.comp;
    if CompHolds(c) {
      OwnFail(s, c.job, L.TransportFailed, if e.PollFailed? then e.reason else "", Transient);
      OwnFail(s, c.job, L.SinkFailed, "sink_unconfigured", NoRetry);
      OwnFail(s, c.job, L.SinkFailed, "sink_failed", Transient);
      if e.PollRefused? {
        OwnFail(s, c.job, RefusalOf(e.why).0, RefusalOf(e.why).1, NoRetry);
      }
    }
  }

  lemma NamedControl(s: Sys, e: ControlEvent, jobs: seq<L.Row>)
    requires Named(jobs, s.at)
    ensures Named(jobs, ControlStep(s, e).at)
  {
    hide L.Finish, L.StartJob, L.RecoverPending, L.Reopen, FinishAll, G.Apply, P.Make, ImportedStates, NamedJob;
  }

  // ---------------------------------------------------------------- imported rows

  function ImportedRows(jobs: seq<L.Row>, fp: string): nat
    decreases |jobs|
  {
    if jobs == [] then 0
    else
      ImportedRows(jobs[..|jobs| - 1], fp)
      + One(jobs[|jobs| - 1].source == fp && L.WasImported(jobs[|jobs| - 1]))
  }

  lemma {:induction false} ImportedRowsSame(before: seq<L.Row>, after: seq<L.Row>, fp: string)
    requires Keeps(before, after)
    ensures ImportedRows(after, fp) == ImportedRows(before, fp)
    decreases |after|
  {
    hide L.WasImported;
    if |after| > |before| {
      assert !L.WasImported(after[|after| - 1]);
      ImportedRowsSame(before, after[..|after| - 1], fp);
    } else if after != [] {
      var i := |after| - 1;
      StaysImported(before, after, i);
      KeepsFront(before, after);
      ImportedRowsSame(before[..i], after[..i], fp);
    }
  }

  lemma StaysImported(before: seq<L.Row>, after: seq<L.Row>, i: nat)
    requires L.RowsKept(before, after) && i < |before|
    ensures L.WasImported(before[i]) ==> L.WasImported(after[i])
  {
  }

  lemma KeepsFront(before: seq<L.Row>, after: seq<L.Row>)
    requires Keeps(before, after) && |before| == |after| > 0
    ensures Keeps(before[..|before| - 1], after[..|after| - 1])
  {
  }

  lemma {:induction false} ImportedRowsSet(jobs: seq<L.Row>, i: nat, row: L.Row, fp: string)
    requires i < |jobs| && !L.WasImported(jobs[i]) && row.source == jobs[i].source && L.WasImported(row)
    ensures ImportedRows(jobs[i := row], fp) == ImportedRows(jobs, fp) + One(row.source == fp)
    decreases |jobs|
  {
    hide L.WasImported;
    var n := |jobs| - 1;
    var after := jobs[i := row];
    if i == n {
      assert after[..n] == jobs[..n];
    } else {
      assert after[..n] == jobs[..n][i := row];
      ImportedRowsSet(jobs[..n], i, row, fp);
    }
  }

  lemma {:induction false} ImportedRowsIff(jobs: seq<L.Row>, fp: string)
    ensures ImportedRows(jobs, fp) > 0 <==> L.HasImported(jobs, fp)
    decreases |jobs|
  {
    hide L.WasImported;
    if jobs != [] {
      var n := |jobs| - 1;
      ImportedRowsIff(jobs[..n], fp);
      if L.HasImported(jobs[..n], fp) {
        var i :| 0 <= i < n && jobs[..n][i].source == fp && L.WasImported(jobs[..n][i]);
        assert jobs[i].source == fp && L.WasImported(jobs[i]);
      }
    }
  }

  lemma FinishImports(b: L.Book, x: nat, reason: string, receipt: Option<string>, now: int, fp: string)
    requires L.IsPending(b.jobs, x)
    ensures ImportedRows(L.Finish(b, x, L.Imported, reason, receipt, now).jobs, fp)
            == ImportedRows(b.jobs, fp) + One(b.jobs[x].source == fp)
  {
    hide ImportedRows;
    var row := b.jobs[x].(end := L.Done(L.Imported, now, reason, receipt));
    ImportedRowsSet(b.jobs, x, row, fp);
    assert L.Finish(b, x, L.Imported, reason, receipt, now).jobs == b.jobs[x := row];
  }

  // ---------------------------------------------------------------- states that are not live

  /** A source whose state is not live keeps it while the process runs. */
  lemma FinalStays(s: Sys, e: Event, fp: string)
    requires Own(s, fp) && fp in s.mem.states && !Live(s.mem.states[fp])
    requires !(e.EControl? && e.control.Boot?)
    ensures fp in Step(s, e).mem.states && Step(s, e).mem.states[fp] == s.mem.states[fp]
  {
    hide Own, SourceStep, PrepStep, AuthStep, CompStep, ControlStep;
    NowhereOf(s, fp);
    match e
    case ESource(x) => StatesSource(s, x, fp);
    case EPrep(x) => StatesPrep(s, x, fp);
    case EAuth(x) => StatesAuth(s, x, fp);
    case EComp(x) => StatesComp(s, x, fp);
    case EControl(x) => StatesControl(s, x);
  }

  /** The source is in no hand and in no queue from which a hand takes. */
  predicate Elsewhere(at: Places, fp: string)
  {
    && (at.prep.PFlow? || at.prep.PPut? ==> at.prep.job.fp != fp)
    && (HoldsJob(at.auth) ==> at.auth.job.fp != fp)
    && (CompHolds(at.comp) ==> at.comp.job.fp != fp)
    && (forall i | 0 <= i < |at.admits| :: at.admits[i] != fp)
    && (forall i | 0 <= i < |at.heap| :: at.heap[i].fp != fp)
  }

  lemma {:induction false} CountMember(q: seq<string>, i: nat)
    requires i < |q|
    ensures Count(q, q[i]) > 0
    decreases |q|
  {
    if i > 0 {
      CountMember(q[1..], i - 1);
    }
  }

  lemma {:induction false} HeapMember(q: seq<Waiting>, i: nat)
    requires i < |q|
    ensures HeapCount(q, q[i].fp) > 0
    decreases |q|
  {
    if i > 0 {
      HeapMember(q[1..], i - 1);
    }
  }

  lemma NowhereOf(s: Sys, fp: string)
    requires Own(s, fp) && fp in s.mem.states && !Live(s.mem.states[fp])
    ensures Elsewhere(s.at, fp)
  {
    hide Count, JobCount, HeapCount;
    assert Spot(s.at, fp, Queued) == 0 && Spot(s.at, fp, Prepared) == 0 && Spot(s.at, fp, Active) == 0;
    assert Spot(s.at, fp, RetryWaiting) == 0;
    forall i | 0 <= i < |s.at.admits|
      ensures s.at.admits[i] != fp
    {
      CountMember(s.at.admits, i);
    }
    forall i | 0 <= i < |s.at.heap|
      ensures s.at.heap[i].fp != fp
    {
      HeapMember(s.at.heap, i);
    }
  }

  predicate SameState(m: Memory, n: Memory, fp: string)
  {
    (fp in n.states <==> fp in m.states) && (fp in m.states ==> n.states[fp] == m.states[fp])
  }

  lemma StatesSource(s: Sys, e: SourceEvent, fp: string)
    requires Elsewhere(s.at, fp) && fp in s.mem.states
    ensures SameState(s.mem, SourceStep(s, e).mem, fp)
  {
    hide Drop;
  }

  lemma StatesPrep(s: Sys, e: PrepEvent, fp: string)
    requires Elsewhere(s.at, fp)
    ensures SameState(s.mem, PrepStep(s, e).mem, fp)
  {
    hide L.Finish, L.StartJob, Fail;
    if s.at.prep.PFlow? {
      OwnFail(s, s.at.prep.job, L.SourceInvalid, "device_flow_invalid", NoRetry);
      OwnFail(s, s.at.prep.job, L.TransportFailed, "device_flow_failed", Transient);
    }
  }

  lemma StatesFail(s: Sys, job: Job, status: L.JobStatus, reason: string, retry: Retry, fp: string)
    requires job.fp != fp
    ensures SameState(s.mem, Parked(Fail(s, job, status, reason, retry), job.fp).mem, fp)
  {
    hide Fail;
    OwnFail(s, job, status, reason, retry);
  }

  lemma StatesAuth(s: Sys, e: AuthEvent, fp: string)
    requires Elsewhere(s.at, fp)
    ensures SameState(s.mem, AuthStep(s, e).mem, fp)
  {
    hide L.Finish, L.HasImported, L.MarkStarted, Fail, G.Apply, G.Ask, G.Limit, P.Delay, P.Succeeded, P.Limited,
      Verdict, Parked,
      Elsewhere;
    var a := s.at.auth;
    assert HoldsJob(a) ==> a.job.fp != fp by {
      HandElsewhere(s.at, fp);
    }
    if e.Confirmed? && a.AConfirm? && !e.o.Authorized? {
      var (status, reason, retry) := Verdict(e.o);
      StatesFail(Gate(s, G.CallLimit(a.probe)), a.job, status, reason, retry, fp);
      StatesFail(Gate(s, G.CallLimit(a.probe)).(pacer := P.Limited(s.pacer)), a.job, status, reason, retry, fp);
      StatesFail(Gate(s, G.CallShrug(a.probe)), a.job, status, reason, retry, fp);
    } else if a.AFlow? {
      StatesFail(Gate(s, G.CallShrug(a.probe)), a.job, L.SourceInvalid, "device_flow_invalid", NoRetry, fp);
      StatesFail(Gate(s, G.CallShrug(a.probe)), a.job, L.TransportFailed, "device_flow_refresh_failed", Transient, fp);
    }
  }

  lemma HandElsewhere(at: Places, fp: string)
    requires Elsewhere(at, fp)
    ensures HoldsJob(at.auth) ==> at.auth.job.fp != fp
  {
  }

  lemma StatesComp(s: Sys, e: CompEvent, fp: string)
    requires Elsewhere(s.at, fp)
    ensures SameState(s.mem, CompStep(s, e).mem, fp)
  {
    hide L.Finish, Fail;
    var c := s.at.comp;
    if CompHolds(c) {
      OwnFail(s, c.job, L.TransportFailed, if e.PollFailed? then e.reason else "", Transient);
      OwnFail(s, c.job, L.SinkFailed, "sink_unconfigured", NoRetry);
      OwnFail(s, c.job, L.SinkFailed, "sink_failed", Transient);
      if e.PollRefused? {
        OwnFail(s, c.job, RefusalOf(e.why).0, RefusalOf(e.why).1, NoRetry);
      }
    }
  }

  lemma StatesControl(s: Sys, e: ControlEvent)
    requires !e.Boot?
    ensures ControlStep(s, e).mem == s.mem
  {
    hide L.Finish, L.StartJob, L.RecoverPending, FinishAll, G.Apply;
  }
}
