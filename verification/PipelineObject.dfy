/** The pipeline object (class `AuthPipeline` in xai_enroller/auth_pipeline.py): the code between two
    suspensions, in place, against the step system. */
module PipelineObject {
  import opened Prelude
  import L = LedgerBook
  import G = RateGate
  import P = Pacing
  import opened Ledgers
  import opened Pipeline
  import opened PipelineQueues

  class AuthPipeline {
    const ledger: Ledger
    const gate: G.GlobalRateLimitGate
    const interval: P.MinimumStartInterval
    var clock: real
    var states: map<string, PState>
    var retries: map<string, nat>
    var admits: seq<string>
    var sourceQueue: seq<string>
    var retryHand: Option<string>
    var retryHeap: seq<Waiting>
    var prep: Prep
    var preparedQueue: seq<Job>
    var auth: Auth
    var completionQueue: seq<Job>
    var comp: Comp
    var flags: Flags
    ghost var past: Past
    ghost var streak: nat
    ghost var bad: real

    /** A new process on a ledger that has been opened on existing tables. */
    constructor (ledger: Ledger, ghost tables: L.Book, ghost past: Past, base: real, seconds: real, start: real)
      requires ledger.View() == L.Reopen(tables)
      modifies ledger
      ensures Valid() && this.ledger == ledger && fresh(gate) && fresh(interval)
      ensures View() == Booted(tables, past, base, seconds, start)
    {
      this.ledger := ledger;
      gate := new G.GlobalRateLimitGate(base);
      interval := new P.MinimumStartInterval(seconds, None, start);
      clock := start;
      states, retries := map[], map[];
      admits, sourceQueue, retryHand, retryHeap := [], [], None, [];
      prep, preparedQueue, auth, completionQueue, comp := PIdle, [], AIdle, [], CIdle;
      flags := Flags(true, false, false, false, false, false, false, 0);
      this.past := past.(loose := [], slips := map[]);
      streak, bad := 0, start;
      new;
      hide L.Reopen, L.RecoverPending, P.Make, ImportedStates;
      ledger.RecoverPendingJobs("recovered_pending", start.Floor);
      LoadImported();
    }

    /** Marks every source that the ledger has imported. */
    method LoadImported()
      requires states == map[]
      modifies this`states
      ensures states == ImportedStates(ledger.jobs)
    {
      for i := 0 to |ledger.jobs|
        invariant states == ImportedStates(ledger.jobs[..i])
      {
        assert ledger.jobs[..i + 1][..i] == ledger.jobs[..i];
        if L.WasImported(ledger.jobs[i]) {
          states := states[ledger.jobs[i].source := Imported];
        }
      }
      assert ledger.jobs[..|ledger.jobs|] == ledger.jobs;
    }

    ghost predicate Valid()
      reads gate
    {
      gate.Valid()
    }

    ghost function View(): Sys
      reads this, ledger, gate, interval
    {
      Sys(Places(admits, sourceQueue, retryHand, retryHeap, prep, preparedQueue, auth, completionQueue, comp),
          Memory(states, retries), flags, ledger.View(), G.Watched(gate.View(), streak, bad), interval.View(),
          clock, past)
    }

    // -------------------------------------------------------------- admission and retries

    /** `admit` up to the put: whether the source is new. */
    method AdmitSource(fp: string) returns (admitted: bool)
      modifies this`states, this`admits
      ensures View() == SourceStep(old(View()), Admit(fp)) && admitted == (fp !in old(states))
    {
      if fp in states {
        return false;
      }
      states := states[fp := Queued];
      admits := admits + [fp];
      return true;
    }

    method ScheduleRetry(fp: string, due: real)
      modifies this`retryHeap, this`flags
      ensures View() == Push(old(View()), fp, due)
    {
      retryHeap := retryHeap + [Waiting(due, flags.order, fp)];
      flags := flags.(order := flags.order + 1);
    }

    /** One turn of `_retry_worker` up to the put: the entry that comes first is taken, if it is due. */
    method RetryTurn()
      requires Ordered(retryHeap, flags.order)
      modifies this`retryHeap, this`retryHand, this`states
      ensures old(flags.stopping || retryHeap == [] || retryHand.Some?) ==> View() == old(View())
      ensures !old(flags.stopping || retryHeap == [] || retryHand.Some?) ==>
                exists i :: IsFirst(old(retryHeap), i) && View() == SourceStep(old(View()), Pop(i))
    {
      if flags.stopping || retryHeap == [] || retryHand.Some? {
        return;
      }
      var first := 0;
      for j := 1 to |retryHeap|
        invariant first < j
        invariant forall k | 0 <= k < j && k != first :: Earlier(retryHeap[first], retryHeap[k])
      {
        if Earlier(retryHeap[j], retryHeap[first]) {
          first := j;
        }
      }
      assert IsFirst(retryHeap, first);
      if retryHeap[first].due > clock {
        return;
      }
      var fp := retryHeap[first].fp;
      retryHeap := Drop(retryHeap, first);
      if fp in states && states[fp] == RetryWaiting {
        states := states[fp := Queued];
        retryHand := Some(fp);
      }
    }

    method FinishFailure(job: Job, status: L.JobStatus, reason: string, retry: Retry) returns (due: Option<real>)
      modifies this`states, this`retries, this`past, ledger
      ensures (View(), due) == Fail(old(View()), job, status, reason, retry)
    {
      hide L.Finish;
      ledger.FinishJob(job.id, status, reason, None, clock.Floor);
      assert View() == FinishRow(old(View()), job.id, status, reason);
      if retry.Transient? {
        due := CountRetry(job.fp);
        hide FinishRow;
      } else {
        hide FinishRow, Get;
        states := states[job.fp := if retry.RateLimited? then RetryWaiting else Terminal];
        due := if retry.RateLimited? then Some(clock) else None;
      }
    }

    /** A transient failure: another retry, or the end. */
    method CountRetry(fp: string) returns (due: Option<real>)
      modifies this`states, this`retries, this`past
      ensures var n := Get(old(retries), fp);
              && due == (if n < 3 then Some(clock + TRANSIENT_RETRY_DELAYS[n]) else None)
              && retries == (if n < 3 then old(retries)[fp := n + 1] else old(retries))
              && states == old(states)[fp := if n < 3 then RetryWaiting else Terminal]
              && past == old(past).(slips := old(past).slips[fp := Get(old(past).slips, fp) + 1])
    {
      past := past.(slips := past.slips[fp := Get(past.slips, fp) + 1]);
      var n := Get(retries, fp);
      if n < |TRANSIENT_RETRY_DELAYS| {
        retries := retries[fp := n + 1];
        states := states[fp := RetryWaiting];
        return Some(clock + TRANSIENT_RETRY_DELAYS[n]);
      }
      states := states[fp := Terminal];
      return None;
    }

    /** The prepare worker gets a source and starts its attempt. */
    method StartAttempt()
      requires prep.PWant? && sourceQueue != []
      modifies this`sourceQueue, this`prep, ledger
      ensures View() == PrepStep(old(View()), TakeSource)
    {
      var fp := sourceQueue[0];
      sourceQueue := sourceQueue[1..];
      var id := ledger.StartFingerprint(fp);
      prep := PFlow(Job(fp, id));
    }

    // -------------------------------------------------------------- the authorization task

    /** `_authorize` from the last look at the pause to the call of the executor. */
    method StartConfirmation()
      requires Valid() && auth.AFlow? && !flags.paused && !flags.authDoomed
      modifies this`states, this`retries, this`auth, this`bad, gate, interval, ledger
      ensures Valid() && View() == AuthStep(old(View()), AuthEvent.Start)
    {
      hide L.Finish, G.Apply, L.HasImported, L.MarkStarted, AlreadyImported;
      var job, probe := auth.job, auth.probe;
      var found := FinishIfAlreadyImported(probe);
      if !found {
        states := states[job.fp := Active];
        interval.MarkStarted(clock);
        ledger.MarkAuthorizationStarted(job.id);
        auth := AConfirm(job, probe);
      }
    }

    /** The authorization task, with the retry lock, puts its source on the heap. */
    method ParkAuthorization()
      requires auth.APark? && !flags.authDoomed
      modifies this`retryHeap, this`flags, this`auth
      ensures View() == AuthStep(old(View()), AuthParks)
    {
      ScheduleRetry(auth.fp, auth.due);
      auth := AIdle;
    }

    method ReportInconclusive(probe: Option<nat>)
      requires Valid()
      modifies gate, this`bad
      ensures Valid() && View() == Gate(old(View()), G.CallShrug(probe))
    {
      var applied := gate.Inconclusive(probe, clock);
      if applied {
        bad := clock;
      }
    }

    method ReportLimited(probe: Option<nat>) returns (applied: bool)
      requires Valid()
      modifies gate, this`bad, this`streak
      ensures Valid() && View() == Gate(old(View()), G.CallLimit(probe))
      ensures applied == G.Limit(old(View()).gate.g, probe, clock).1
    {
      applied := gate.RateLimited(probe, clock);
      if applied {
        streak, bad := streak + 1, clock;
      }
    }

    method ReportAuthorized(probe: Option<nat>)
      requires Valid()
      modifies gate, this`streak
      ensures Valid() && View() == Gate(old(View()), G.CallClear(probe))
    {
      var elapsed := gate.Authorized(probe, clock);
      if elapsed.Some? {
        streak := 0;
      }
    }

    method FinishIfAlreadyImported(probe: Option<nat>) returns (found: bool)
      requires Valid() && HoldsJob(auth)
      modifies this`states, this`retries, this`auth, this`bad, gate, ledger
      ensures Valid() && found == L.HasImported(old(View()).book.jobs, old(auth.job.fp))
      ensures View() == if found then AlreadyImported(old(View()), old(auth.job), probe) else old(View())
    {
      hide L.Finish, G.Apply, L.HasImported;
      var job := auth.job;
      found := ledger.AlreadyImported(job.fp);
      if found {
        ledger.FinishJob(job.id, L.Cancelled, "already_imported", None, clock.Floor);
        states := states[job.fp := Imported];
        retries := retries - {job.fp};
        auth := AIdle;
        ReportInconclusive(probe);
      }
    }

    /** What `_authorize` does with the outcome of the confirmation. */
    method AfterConfirm(o: Outcome)
      requires Valid() && auth.AConfirm?
      modifies this`states, this`retries, this`auth, this`past, this`bad, this`streak, gate, interval, ledger
      ensures Valid() && View() == ConfirmStep(old(View()), old(auth.job), old(auth.probe), o)
    {
      hide L.Finish, G.Apply, G.Limit, Fail, P.Succeeded, P.Limited;
      var job, probe := auth.job, auth.probe;
      if o.Authorized? {
        ReportAuthorized(probe);
        var _ := interval.NoteSuccessful();
        auth := APut(job);
        return;
      }
      var (status, reason, retry) := Verdict(o);
      if retry.RateLimited? {
        var applied := ReportLimited(probe);
        if applied {
          var _ := interval.NoteRateLimited();
        }
      } else {
        ReportInconclusive(probe);
      }
      var due := FinishFailure(job, status, reason, retry);
      auth := if due.Some? then APark(job.fp, due.value) else AIdle;
    }

    /** The handler of a cancellation, by the operator or the shutdown. */
    method AfterCancel()
      requires Valid() && HoldsJob(auth)
      modifies this`states, this`auth, this`flags, this`bad, gate, ledger
      ensures Valid() && View() == AuthCancel(old(View()))
    {
      hide L.Finish, G.Apply;
      var job, probe := auth.job, ProbeOf(auth);
      ReportInconclusive(probe);
      ledger.FinishJob(job.id, L.Cancelled,
                       if flags.stopping then "shutdown_cancelled" else "operator_cancelled", None, clock.Floor);
      flags := flags.(authDoomed := false);
      if flags.stopping {
        auth := ADead;
      } else {
        states := states[job.fp := RetryWaiting];
        auth := APark(job.fp, clock + CANCEL_RETRY_DELAY);
      }
    }

    // -------------------------------------------------------------- commit, operator, shutdown

    /** The ledger's half of a commit, after the sink's. */
    method CommitStored()
      requires comp.CStored?
      modifies this`states, this`retries, this`comp, this`past, ledger
      ensures View() == CommitStep(old(View()), old(comp.job), old(comp.receipt), old(comp.cancelled))
    {
      hide L.Finish;
      var job := comp.job;
      ledger.FinishJob(job.id, L.Imported, "imported", Some(comp.receipt), clock.Floor);
      states := states[job.fp := Imported];
      assert View() == SetState(
        old(View()).(book := L.Finish(old(ledger.View()), job.id, L.Imported, "imported", Some(comp.receipt),
          clock.Floor)),
        job.fp, Imported);
      hide SetState;
      retries := retries - {job.fp};
      past := past.(imports := past.imports + [job.fp]);
      comp := if comp.cancelled && flags.stopping then CDead else CIdle;
    }

    method CancelWhoever() returns (hit: bool)
      modifies this`flags
      ensures (View(), hit) == Cancelled(old(View()))
    {
      if Cancellable(auth) && !flags.authDoomed {
        flags := flags.(authDoomed := true);
        return true;
      }
      if comp.CPoll? && !flags.compDoomed {
        flags := flags.(compDoomed := true);
        return true;
      }
      return false;
    }

    method DrainPrepared()
      modifies this`preparedQueue, ledger
      ensures preparedQueue == []
      ensures ledger.View() == FinishAll(old(ledger.View()), old(preparedQueue), clock.Floor)
    {
      hide L.Finish;
      while preparedQueue != []
        invariant FinishAll(ledger.View(), preparedQueue, clock.Floor)
                  == FinishAll(old(ledger.View()), old(preparedQueue), clock.Floor)
        decreases |preparedQueue|
      {
        var job := preparedQueue[0];
        preparedQueue := preparedQueue[1..];
        ledger.FinishJob(job.id, L.Cancelled, "shutdown_cancelled", None, clock.Floor);
      }
    }

    method DrainCompletion()
      modifies this`completionQueue, ledger
      ensures completionQueue == []
      ensures ledger.View() == FinishAll(old(ledger.View()), old(completionQueue), clock.Floor)
    {
      hide L.Finish;
      while completionQueue != []
        invariant FinishAll(ledger.View(), completionQueue, clock.Floor)
                  == FinishAll(old(ledger.View()), old(completionQueue), clock.Floor)
        decreases |completionQueue|
      {
        var job := completionQueue[0];
        completionQueue := completionQueue[1..];
        ledger.FinishJob(job.id, L.Cancelled, "shutdown_cancelled", None, clock.Floor);
      }
    }

    /** `_settle_buffered_attempts` and the ledger's recovery. */
    method SettleBufferedAttempts()
      modifies this`preparedQueue, this`completionQueue, this`sourceQueue, this`retryHeap, this`flags, ledger
      ensures View() == Settled(old(View()))
    {
      hide FinishAll, L.RecoverPending;
      DrainPrepared();
      DrainCompletion();
      sourceQueue := [];
      retryHeap := [];
      ledger.RecoverPendingJobs("shutdown_cancelled", clock.Floor);
      flags := flags.(settled := true);
    }
  }

  predicate Earlier(x: Waiting, y: Waiting) { x.due < y.due || (x.due == y.due && x.order < y.order) }
}
