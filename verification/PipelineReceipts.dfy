/** What becomes of a stored credential: its row carries the sink's own receipt, and a claim can have it. */
module PipelineReceipts {
  import opened Prelude
  import L = LedgerBook
  import G = RateGate
  import P = Pacing
  import opened Pipeline
  import opened PipelinePlaces
  import opened PipelineRows
  import opened PipelineImports
  import opened PipelineHistory
  import opened PipelineTheorems
  import opened PipelineLedger

  // ---------------------------------------------------------------- commits

  /** A commit ends its row as imported, now, with the receipt in hand, and stocks that receipt as available,
      unless it is empty or stocked already. It touches no other row and no other stock. */
  lemma CommitRecords(s: Sys, i: nat, r: string)
    requires Reachable(s) && s.at.comp.CStored?
    ensures var (c, t) := (s.at.comp, Step(s, EComp(Commit)));
            && c.job.id < |s.book.jobs| == |t.book.jobs|
            && t.book.jobs[c.job.id].end == L.Done(L.Imported, s.clock.Floor, "imported", Some(c.receipt))
            && t.book.jobs[c.job.id].source == c.job.fp
            && (i < |s.book.jobs| && i != c.job.id ==> t.book.jobs[i] == s.book.jobs[i])
            && (r in t.book.stock <==> r in s.book.stock || (r == c.receipt && r != ""))
            && (r in s.book.stock ==> t.book.stock[r] == s.book.stock[r])
            && (r in t.book.stock && r !in s.book.stock ==> L.IsAvailable(t.book, r))
  {
    StoredNow(s);
    hide Step, Reachable, Inv, L.Finish;
    var c := s.at.comp;
    LedgerFollows(s, EComp(Commit));
    OneCall(s.book, L.OpFinish(c.job.id, L.Imported, "imported", Some(c.receipt), s.clock.Floor));
    L.FinishWrites(s.book, c.job.id, L.Imported, "imported", Some(c.receipt), s.clock.Floor, i, r);
  }

  lemma StoredNow(s: Sys)
    requires Reachable(s) && s.at.comp.CStored?
    ensures L.IsPending(s.book.jobs, s.at.comp.job.id) && s.book.jobs[s.at.comp.job.id].source == s.at.comp.job.fp
    ensures !s.flags.compDoomed && !s.flags.settled
  {
    ReachableInv(s);
    HeldIsPending(s);
    NotDoomed(s);
    InvNamed(s);
  }

  lemma InvNamed(s: Sys)
    requires Inv(s)
    ensures Named(s.book.jobs, s.at)
  {
    hide Named;
  }

  /** What `Sunk` delivers is what the commit has in hand. */
  lemma SunkRecords(s: Sys, r: string)
    requires !s.flags.settled && !s.flags.compDoomed && s.at.comp.CStore?
    ensures var t := Step(s, EComp(Sunk(r)));
            && t.at.comp.CStored? && t.at.comp.job == s.at.comp.job && t.at.comp.receipt == r
            && t.past.receipts == s.past.receipts[s.at.comp.job.id := r] && t.book == s.book
  {
  }

  /** The receipts of the imported rows, and the one in hand, are those that were handed out for their rows. */
  ghost predicate Receipted(s: Sys)
  {
    && (s.at.comp.CStored? ==>
          && s.at.comp.job.id in s.past.receipts
          && s.past.receipts[s.at.comp.job.id] == s.at.comp.receipt)
    && forall i | 0 <= i < |s.book.jobs| && L.WasImported(s.book.jobs[i]) ::
         i in s.past.receipts && s.book.jobs[i].end.receipt == Some(s.past.receipts[i])
  }

  lemma StoredStays(s: Sys, e: Event)
    requires Step(s, e).at.comp.CStored? && !(e.EComp? && (e.comp.Sunk? || e.comp.StoreCancelled?))
    ensures Step(s, e).at.comp == s.at.comp
  {
    hide SourceStep, PrepStep, AuthStep, CompStep, L.Finish, L.StartJob, L.RecoverPending, FinishAll, G.Apply;
    match e
    case ESource(x) => QuietSource(s, x);
    case EPrep(x) => QuietPrep(s, x);
    case EAuth(x) => QuietAuth(s, x);
    case EComp(x) =>
      if !s.flags.settled {
        CompMoves(s, x);
      }
    case EControl(x) =>
  }

  lemma CompMoves(s: Sys, e: CompEvent)
    requires CompStep(s, e).at.comp.CStored? && !e.Sunk? && !e.StoreCancelled?
    ensures CompStep(s, e).at.comp == s.at.comp
  {
    hide L.Finish, Fail;
    var c := s.at.comp;
    if CompHolds(c) {
      OwnFail(s, c.job, L.TransportFailed, if e.PollFailed? then e.reason else "", Transient);
      OwnFail(s, c.job, L.SinkFailed, "sink_unconfigured", NoRetry);
      OwnFail(s, c.job, L.SinkFailed, "sink_failed", Transient);
      if e.PollRefused? {
        OwnFail(s, c.job, RefusalOf(e.why).0, RefusalOf(e.why).1, NoRetry);
      }
    }
  }

  lemma ReceiptedStep(s: Sys, e: Event)
    requires Inv(s) && Receipted(s)
    ensures Receipted(Step(s, e))
  {
    hide Step, Receipted;
    if e.EComp? && (e.comp.Sunk? || e.comp.StoreCancelled?) {
      if s.at.comp.CStore? {
        HeldIsPending(s);
      }
      ReceiptedStore(s, e.comp);
    } else if e.EComp? && e.comp.Commit? && s.at.comp.CStored? {
      ReceiptedCommit(s);
    } else if e.EControl? && e.control.ImportElsewhere? {
      HeldIsOld(s);
      ReceiptedElsewhere(s, e.control.fp, e.control.receipt);
      ElsewhereIs(s, e);
    } else {
      hide Inv, L.WasImported;
      RowsKeptNow(s, e);
      ReceiptsStay(s, e);
      if Step(s, e).at.comp.CStored? {
        StoredStays(s, e);
      }
      ReceiptedKept(s, Step(s, e));
    }
  }

  lemma ElsewhereIs(s: Sys, e: Event)
    requires e.EControl?
    ensures Step(s, e) == ControlStep(s, e.control)
  {
    hide ControlStep;
  }

  lemma HeldIsOld(s: Sys)
    requires Inv(s)
    ensures s.at.comp.CStored? ==> s.at.comp.job.id < |s.book.jobs|
  {
    if s.at.comp.CStored? {
      HeldIsPending(s);
    }
  }

  /** A commit with nothing stored is none. */
  lemma RowsKeptNow(s: Sys, e: Event)
    requires !(e.EControl? && e.control.ImportElsewhere?) && !(e.EComp? && e.comp.Commit? && s.at.comp.CStored?)
    ensures Keeps(s.book.jobs, Step(s, e).book.jobs)
  {
    if e.EComp? && e.comp.Commit? {
      KeepsRefl(s.book.jobs);
    } else {
      hide Step, Keeps;
      RowsOverStep(s, e);
    }
  }

  lemma ReceiptedStore(s: Sys, e: CompEvent)
    requires Receipted(s) && (e.Sunk? || e.StoreCancelled?)
    requires s.at.comp.CStore? ==> L.IsPending(s.book.jobs, s.at.comp.job.id)
    ensures Receipted(Step(s, EComp(e)))
  {
  }

  lemma ReceiptedKept(s: Sys, t: Sys)
    requires Receipted(s) && Keeps(s.book.jobs, t.book.jobs) && t.past.receipts == s.past.receipts
    requires t.at.comp.CStored? ==> t.at.comp == s.at.comp
    ensures Receipted(t)
  {
  }

  lemma ReceiptsStay(s: Sys, e: Event)
    requires !(e.EControl? && e.control.ImportElsewhere?)
    requires e.EComp? ==> !(e.comp.Sunk? && s.at.comp.CStore?) && !(e.comp.Commit? && s.at.comp.CStored?)
    ensures Step(s, e).past.receipts == s.past.receipts
  {
    if Quiet(e) {
      hide Step;
      QuietStep(s, e);
    } else {
      hide L.Reopen, L.RecoverPending, P.Make, ImportedStates;
    }
  }

  lemma ReceiptedCommit(s: Sys)
    requires Inv(s) && Receipted(s) && s.at.comp.CStored?
    ensures Receipted(Step(s, EComp(Commit)))
  {
    HeldIsPending(s);
    NotDoomed(s);
    hide Inv, Step, L.Finish;
    var c, t := s.at.comp, Step(s, EComp(Commit));
    LedgerFollows(s, EComp(Commit));
    OneCall(s.book, L.OpFinish(c.job.id, L.Imported, "imported", Some(c.receipt), s.clock.Floor));
    CommitLeaves(s);
    forall i | 0 <= i < |t.book.jobs| && L.WasImported(t.book.jobs[i])
      ensures i in t.past.receipts && t.book.jobs[i].end.receipt == Some(t.past.receipts[i])
    {
      L.FinishWrites(s.book, c.job.id, L.Imported, "imported", Some(c.receipt), s.clock.Floor, i, "");
    }
  }

  lemma CommitLeaves(s: Sys)
    requires s.at.comp.CStored? && !s.flags.compDoomed && !s.flags.settled
    ensures !Step(s, EComp(Commit)).at.comp.CStored? && Step(s, EComp(Commit)).past.receipts == s.past.receipts
  {
    hide L.Finish;
  }

  lemma ReceiptedElsewhere(s: Sys, fp: string, receipt: string)
    requires Receipted(s) && (s.at.comp.CStored? ==> s.at.comp.job.id < |s.book.jobs|)
    ensures Receipted(ControlStep(s, ImportElsewhere(fp, receipt)))
  {
    var id, now := |s.book.jobs|, s.clock.Floor;
    var b := L.StartJob(s.book, fp);
    var t := ControlStep(s, ImportElsewhere(fp, receipt));
    hide L.Finish, L.StartJob;
    StartFacts(s.book, fp);
    FinishFacts(b, id, receipt, now);
    forall i | 0 <= i < |t.book.jobs| && L.WasImported(t.book.jobs[i])
      ensures i in t.past.receipts && t.book.jobs[i].end.receipt == Some(t.past.receipts[i])
    {
      if i < id {
        assert t.book.jobs[i] == b.jobs[i] == s.book.jobs[i];
      }
    }
  }

  lemma StartFacts(b: L.Book, fp: string)
    ensures var d := L.StartJob(b, fp);
            && |d.jobs| == |b.jobs| + 1 && d.jobs[|b.jobs|].end.Pending?
            && forall i | 0 <= i < |b.jobs| :: d.jobs[i] == b.jobs[i]
  {
    hide L.NextAttempt;
  }

  lemma FinishFacts(b: L.Book, id: nat, receipt: string, now: int)
    requires id < |b.jobs| && b.jobs[id].end.Pending?
    ensures var d := L.Finish(b, id, L.Imported, "imported", Some(receipt), now);
            && |d.jobs| == |b.jobs| && d.jobs[id].end == L.Done(L.Imported, now, "imported", Some(receipt))
            && forall i | 0 <= i < |b.jobs| && i != id :: d.jobs[i] == b.jobs[i]
  {
  }

  lemma {:induction false} ReceiptedRun(s: Sys, es: seq<Event>)
    requires Inv(s) && Receipted(s)
    ensures Receipted(Run(s, es))
    decreases |es|
  {
    hide Inv, Step, Receipted;
    if es != [] {
      ReceiptedStep(s, es[0]);
      InvStep(s, es[0]);
      ReceiptedRun(Step(s, es[0]), es[1..]);
    }
  }

  lemma NoneImported(base: real, interval: real, start: real)
    ensures Receipted(Launch(base, interval, start))
  {
    var s := Launch(base, interval, start);
    assert s.book.jobs == [];
  }

  /** Over every run, restarts included, each imported row carries the receipt that the sink handed out for it,
      or, for a row of another writer, that writer's own. */
  lemma ReceiptsMatch(s: Sys, i: nat)
    requires Reachable(s) && i < |s.book.jobs| && L.WasImported(s.book.jobs[i])
    ensures i in s.past.receipts && s.book.jobs[i].end.receipt == Some(s.past.receipts[i])
  {
    hide Inv, Run, Launch;
    var base, interval, start, es :| Run(Launch(base, interval, start), es) == s;
    InvLaunch(base, interval, start);
    NoneImported(base, interval, start);
    ReceiptedRun(Launch(base, interval, start), es);
  }

  // ---------------------------------------------------------------- a claim can have it

  ghost predicate AllAvailable(b: L.Book) { forall r | r in b.stock :: b.stock[r].stage.Available? }

  lemma {:induction false} OursKeepsAvailable(b: L.Book, ops: seq<L.Op>)
    requires AllAvailable(b) && forall op | op in ops :: Ours(op)
    ensures AllAvailable(L.Run(b, ops))
    decreases |ops|
  {
    if ops != [] {
      assert ops[0] in ops;
      hide L.NextAttempt, L.Recovered;
      OursKeepsAvailable(L.Apply(b, ops[0]), ops[1..]);
    }
  }

  /** Every credential that the pipeline has imported, in any run over any restarts, is there to be claimed: with
      nobody else at the ledger, its receipt is in stock and available, unless it is empty; and a claim ranks it,
      unless it is all spaces. */
  lemma ImportsAreClaimable(s: Sys, i: nat)
    requires Reachable(s) && i < |s.book.jobs| && L.WasImported(s.book.jobs[i])
    ensures s.book.jobs[i].end.receipt.Some?
    ensures var r := s.book.jobs[i].end.receipt.value;
            && (r != "" ==> L.IsAvailable(s.book, r))
            && (!L.Blank(r) ==> r in L.Ranked(s.book))
  {
    hide Reachable, L.Run, L.Claimable, L.Ranked, Ours, AllAvailable, L.Linked;
    ReceiptsMatch(s, i);
    var ops := LedgerOfRun(s);
    var r := s.book.jobs[i].end.receipt.value;
    BlankbookFacts();
    OursKeepsAvailable(L.Blankbook, ops);
    L.LinkedRun(L.Blankbook, ops);
    assert L.ImportOf(s.book.jobs[i], r);
    L.StockIsImports(ops, r);
    IsAmongAll(s.book, r);
    if !L.Blank(r) {
      L.JoinIsComplete(s.book, r);
    }
  }

  lemma BlankbookFacts()
    ensures AllAvailable(L.Blankbook) && L.Linked(L.Blankbook)
  {
  }

  lemma IsAmongAll(b: L.Book, r: string)
    requires AllAvailable(b)
    ensures r in b.stock ==> L.IsAvailable(b, r)
  {
  }
}
