/** The `jobs` and `credential_inventory` tables and the statements that change them
    (xai_enroller/ledger.py). Every statement is one transaction; times are the instants that the
    ISO texts stand for, whose text order is the time order. */
module LedgerBook {
  import opened Prelude
  import opened Ordering

  datatype JobStatus =
    | Imported | NeedsBrowser | NeedsInteraction | SourceInvalid | OauthDenied | OauthExpired
    | OauthRejected | SinkFailed | TransportFailed | TimedOut | Cancelled

  datatype End = Pending | Done(status: JobStatus, at: int, reason: string, receipt: Option<string>)

  /** A row's job id is its position in the table. */
  datatype Row = Row(source: string, attempt: nat, begun: bool, end: End)

  datatype Stage = Available | Claiming | Claimed

  datatype Entry = Entry(stage: Stage, claimedAt: Option<int>, batch: string, note: string)

  datatype Book = Book(jobs: seq<Row>, stock: map<string, Entry>)

  const Stocked := Entry(Available, None, "", "")

  // ---------------------------------------------------------------- job rows

  function NextAttempt(jobs: seq<Row>, source: string): nat
    decreases |jobs|
  {
    if jobs == [] then 1
    else
      var n, last := NextAttempt(jobs[..|jobs| - 1], source), jobs[|jobs| - 1];
      if last.source == source then Max(n, last.attempt + 1) else n
  }

  function StartJob(b: Book, source: string): Book
  {
    b.(jobs := b.jobs + [Row(source, NextAttempt(b.jobs, source), false, Pending)])
  }

  predicate IsPending(jobs: seq<Row>, id: nat) { id < |jobs| && jobs[id].end.Pending? }

  function MarkStarted(b: Book, id: nat): Book
  {
    if IsPending(b.jobs, id) then b.(jobs := b.jobs[id := b.jobs[id].(begun := true)]) else b
  }

  function Finish(b: Book, id: nat, status: JobStatus, reason: string, receipt: Option<string>, now: int): Book
  {
    if !IsPending(b.jobs, id) then b
    else
      Book(b.jobs[id := b.jobs[id].(end := Done(status, now, reason, receipt))],
           if status.Imported? && receipt.Some? && receipt.value != "" && receipt.value !in b.stock
           then b.stock[receipt.value := Stocked] else b.stock)
  }

  function Recovered(row: Row, reason: string, now: int): Row
  {
    if row.end.Pending? then row.(end := Done(Cancelled, now, reason, None)) else row
  }

  function RecoverPending(b: Book, reason: string, now: int): Book
  {
    b.(jobs := seq(|b.jobs|, i requires 0 <= i < |b.jobs| => Recovered(b.jobs[i], reason, now)))
  }

  predicate WasImported(row: Row) { row.end.Done? && row.end.status.Imported? }

  predicate HasImported(jobs: seq<Row>, source: string)
  {
    exists i :: 0 <= i < |jobs| && jobs[i].source == source && WasImported(jobs[i])
  }

  // ---------------------------------------------------------------- inventory rows

  /** What SQLite's TRIM, which strips spaces only, empties. */
  predicate Blank(r: string) { forall i | 0 <= i < |r| :: r[i] == ' ' }

  predicate ImportOf(row: Row, r: string) { WasImported(row) && row.end.receipt == Some(r) }

  function LatestImport(jobs: seq<Row>, r: string): Option<int>
    decreases |jobs|
  {
    if jobs == [] then None
    else
      var t, last := LatestImport(jobs[..|jobs| - 1], r), jobs[|jobs| - 1];
      if !ImportOf(last, r) then t
      else Some(if t.Some? then Max(t.value, last.end.at) else last.end.at)
  }

  function Receipts(jobs: seq<Row>): set<string>
  {
    set i | 0 <= i < |jobs| && WasImported(jobs[i]) && jobs[i].end.receipt.Some? :: jobs[i].end.receipt.value
  }

  /** Stocks every imported receipt that is not yet stocked, row by row; blank ones are passed over. */
  function Restock(stock: map<string, Entry>, jobs: seq<Row>): (m: map<string, Entry>)
    ensures forall r :: r in m <==> r in stock || (r in Receipts(jobs) && !Blank(r))
    ensures forall r | r in m :: m[r] == if r in stock then stock[r] else Stocked
    decreases |jobs|
  {
    if jobs == [] then stock
    else
      var front, last := jobs[..|jobs| - 1], jobs[|jobs| - 1];
      var m := Restock(stock, front);
      OneMoreReceipt(front, last);
      assert front + [last] == jobs;
      if WasImported(last) && last.end.receipt.Some? && !Blank(last.end.receipt.value)
         && last.end.receipt.value !in m
      then m[last.end.receipt.value := Stocked]
      else m
  }

  lemma OneMoreReceipt(jobs: seq<Row>, row: Row)
    ensures Receipts(jobs + [row]) == Receipts(jobs)
              + if WasImported(row) && row.end.receipt.Some? then {row.end.receipt.value} else {}
  {
    var all := jobs + [row];
    assert all[|jobs|] == row;
    forall r | r in Receipts(jobs)
      ensures r in Receipts(all)
    {
      var i :| 0 <= i < |jobs| && WasImported(jobs[i]) && jobs[i].end.receipt == Some(r);
      assert all[i] == jobs[i];
    }
  }

  /** Opening the ledger. */
  function Reopen(b: Book): Book { b.(stock := Restock(b.stock, b.jobs)) }

  predicate IsAvailable(b: Book, r: string) { r in b.stock && b.stock[r].stage.Available? }

  function Claimable(b: Book): set<string>
  {
    set r | r in b.stock && IsAvailable(b, r) && !Blank(r) && LatestImport(b.jobs, r).Some?
  }

  /** Latest finish first, then by name. */
  predicate Before(jobs: seq<Row>, x: string, y: string)
  {
    var p, q := LatestImport(jobs, x), LatestImport(jobs, y);
    p.Some? && q.Some? && (p.value > q.value || (p.value == q.value && Less(x, y)))
  }

  lemma BeforeIsTotal(b: Book)
    ensures StrictTotal(Claimable(b), (x, y) => Before(b.jobs, x, y))
  {
    forall x | x in Claimable(b)
      ensures !Before(b.jobs, x, x)
    {
      LessIrreflexive(x);
    }
    forall x, y | x in Claimable(b) && y in Claimable(b)
      ensures x == y || Before(b.jobs, x, y) || Before(b.jobs, y, x)
    {
      LessTotal(x, y);
    }
    forall x, y, z | Before(b.jobs, x, y) && Before(b.jobs, y, z)
      ensures Before(b.jobs, x, z)
    {
      if Less(x, y) && Less(y, z) {
        LessTransitive(x, y, z);
      }
    }
  }

  function Ranked(b: Book): (r: seq<string>)
    ensures |r| == |Claimable(b)| && forall x :: x in r <==> x in Claimable(b)
    ensures forall i, j | 0 <= i < j < |r| :: Before(b.jobs, r[i], r[j])
  {
    BeforeIsTotal(b);
    Sorted(Claimable(b), (x, y) => Before(b.jobs, x, y))
  }

  datatype LedgerError = EmptyBatch

  /** The rows of `rs` that are still available move to `batch`, one after the other. */
  function Take(stock: map<string, Entry>, rs: seq<string>, batch: string): (m: map<string, Entry>)
    ensures m.Keys == stock.Keys
    ensures forall r | r in stock ::
              m[r] == if r in rs && stock[r].stage.Available? then Entry(Claiming, None, batch, "") else stock[r]
    decreases |rs|
  {
    if rs == [] then stock
    else
      var m, r := Take(stock, rs[..|rs| - 1], batch), rs[|rs| - 1];
      assert rs == rs[..|rs| - 1] + [r];
      if r in m && m[r].stage.Available? then m[r := Entry(Claiming, None, batch, "")] else m
  }

  function Claim(b: Book, limit: int, batch: string): (Book, Result<seq<string>, LedgerError>)
  {
    if limit <= 0 then (b, Ok([]))
    else if batch == "" then (b, Err(EmptyBatch))
    else
      var rs := Ranked(b)[..Min(limit, |Ranked(b)|)];
      (b.(stock := Take(b.stock, rs, batch)), Ok(rs))
  }

  /** The receipts being claimed, of one batch or of all. */
  function ClaimingIn(b: Book, batch: Option<string>): set<string>
  {
    set r | r in b.stock && b.stock[r].stage.Claiming? && (batch.None? || b.stock[r].batch == batch.value)
  }

  /** What a statement sets in each of its rows. */
  datatype Change = Mark(note: string, now: int) | Return(note: string)

  function Set(e: Entry, c: Change): Entry
  {
    match c
    case Mark(note, now) => e.(stage := Claimed, claimedAt := Some(now), note := note)
    case Return(note) => Entry(Available, None, "", note)
  }

  function SetEach(stock: map<string, Entry>, rs: seq<string>, c: Change): (m: map<string, Entry>)
    ensures m.Keys == stock.Keys
    ensures forall r | r in stock :: m[r] == if r in rs then Set(stock[r], c) else stock[r]
    decreases |rs|
  {
    if rs == [] then stock
    else
      var m, r := SetEach(stock, rs[..|rs| - 1], c), rs[|rs| - 1];
      assert rs == rs[..|rs| - 1] + [r];
      if r in stock then m[r := Set(stock[r], c)] else m
  }

  lemma LessIsTotal(s: set<string>)
    ensures StrictTotal(s, Less)
  {
    forall x: string
      ensures !Less(x, x)
    {
      LessIrreflexive(x);
    }
    forall x: string, y: string
      ensures x == y || Less(x, y) || Less(y, x)
    {
      LessTotal(x, y);
    }
    forall x: string, y: string, z: string | Less(x, y) && Less(y, z)
      ensures Less(x, z)
    {
      LessTransitive(x, y, z);
    }
  }

  /** The rows `rs` changed; their order does not matter. */
  function SetAll(stock: map<string, Entry>, rs: set<string>, c: Change): (m: map<string, Entry>)
    ensures m.Keys == stock.Keys
    ensures forall r | r in stock :: m[r] == if r in rs then Set(stock[r], c) else stock[r]
  {
    LessIsTotal(rs);
    SetEach(stock, Sorted(rs, Less), c)
  }

  function MarkClaimed(b: Book, batch: string, note: string, now: int): (Book, Result<nat, LedgerError>)
  {
    if batch == "" then (b, Err(EmptyBatch))
    else
      var rs := ClaimingIn(b, Some(batch));
      (b.(stock := SetAll(b.stock, rs, Mark(note, now))), Ok(|rs|))
  }

  function RecoverClaiming(b: Book, batch: Option<string>, note: string): (Book, nat)
  {
    var rs := ClaimingIn(b, batch);
    (b.(stock := SetAll(b.stock, rs, Return(note))), |rs|)
  }

  /** What marking a batch does to the rows. */
  lemma MarkShape(b: Book, batch: string, note: string, now: int)
    requires batch != ""
    ensures var (b', n) := MarkClaimed(b, batch, note, now);
            && n == Ok(|ClaimingIn(b, Some(batch))|) && b'.jobs == b.jobs && b'.stock.Keys == b.stock.Keys
            && forall r | r in b.stock :: b'.stock[r] ==
                 if r in ClaimingIn(b, Some(batch))
                 then b.stock[r].(stage := Claimed, claimedAt := Some(now), note := note) else b.stock[r]
  {
    hide SetAll, ClaimingIn;
  }

  predicate ByBatch(stock: map<string, Entry>, x: string, y: string)
  {
    && x in stock && y in stock
    && (Less(stock[x].batch, stock[y].batch) || (stock[x].batch == stock[y].batch && Less(x, y)))
  }

  lemma ByBatchIsTotal(b: Book)
    ensures StrictTotal(ClaimingIn(b, None), (x, y) => ByBatch(b.stock, x, y))
  {
    forall x: string
      ensures !Less(x, x)
    {
      LessIrreflexive(x);
    }
    forall x: string, y: string
      ensures x == y || Less(x, y) || Less(y, x)
    {
      LessTotal(x, y);
    }
    forall x: string, y: string, z: string | Less(x, y) && Less(y, z)
      ensures Less(x, z)
    {
      LessTransitive(x, y, z);
    }
  }

  /** `pending_claims`: the receipts being claimed, by batch and name. */
  function PendingClaims(b: Book): (r: seq<string>)
    ensures |r| == |ClaimingIn(b, None)| && forall x :: x in r <==> x in ClaimingIn(b, None)
    ensures forall i, j | 0 <= i < j < |r| :: ByBatch(b.stock, r[i], r[j])
  {
    ByBatchIsTotal(b);
    Sorted(ClaimingIn(b, None), (x, y) => ByBatch(b.stock, x, y))
  }

  // ---------------------------------------------------------------- every run

  datatype Op =
    | OpStart(source: string)
    | OpBegin(id: nat)
    | OpFinish(id: nat, status: JobStatus, reason: string, receipt: Option<string>, now: int)
    | OpRecoverPending(reason: string, now: int)
    | OpReopen
    | OpClaim(limit: int, batch: string)
    | OpMark(batch: string, note: string, now: int)
    | OpUnclaim(which: Option<string>, note: string)

  function Apply(b: Book, op: Op): Book
  {
    match op
    case OpStart(source) => StartJob(b, source)
    case OpBegin(id) => MarkStarted(b, id)
    case OpFinish(id, status, reason, receipt, now) => Finish(b, id, status, reason, receipt, now)
    case OpRecoverPending(reason, now) => RecoverPending(b, reason, now)
    case OpReopen => Reopen(b)
    case OpClaim(limit, batch) => Claim(b, limit, batch).0
    case OpMark(batch, note, now) => MarkClaimed(b, batch, note, now).0
    case OpUnclaim(which, note) => RecoverClaiming(b, which, note).0
  }

  function Run(b: Book, ops: seq<Op>): Book
    decreases |ops|
  {
    if ops == [] then b else Run(Apply(b, ops[0]), ops[1..])
  }

  const Blankbook := Book([], map[])

  /** No row is lost or renamed, and a finished row is as it was. */
  ghost predicate RowsKept(before: seq<Row>, after: seq<Row>)
  {
    && |before| <= |after|
    && forall i | 0 <= i < |before| ::
         && after[i].source == before[i].source && after[i].attempt == before[i].attempt
         && (before[i].end.Done? ==> after[i] == before[i])
  }

  lemma RowsKeptStep(b: Book, op: Op)
    ensures RowsKept(b.jobs, Apply(b, op).jobs)
  {
    hide Claim, MarkClaimed, RecoverClaiming, Reopen, NextAttempt;
    match op
    case OpClaim(limit, batch) => JobsUntouched(b, op);
    case OpMark(batch, note, now) => JobsUntouched(b, op);
    case OpUnclaim(which, note) => JobsUntouched(b, op);
    case OpReopen => JobsUntouched(b, op);
    case _ =>
  }

  lemma JobsUntouched(b: Book, op: Op)
    requires op.OpClaim? || op.OpMark? || op.OpUnclaim? || op.OpReopen?
    ensures Apply(b, op).jobs == b.jobs
  {
    hide Ranked, Take, Claimable, ClaimingIn, Receipts;
  }

  /** A row leaves pending at most once: whatever follows, a finished row never changes again. */
  lemma {:induction false} RowsAreFinal(b: Book, ops: seq<Op>)
    ensures RowsKept(b.jobs, Run(b, ops).jobs)
    decreases |ops|
  {
    if ops != [] {
      hide Apply;
      RowsKeptStep(b, ops[0]);
      RowsAreFinal(Apply(b, ops[0]), ops[1..]);
    }
  }

  /** Every stocked receipt is non-empty and comes from an imported row. */
  ghost predicate Linked(b: Book)
  {
    forall r | r in b.stock :: r != "" && exists i :: 0 <= i < |b.jobs| && ImportOf(b.jobs[i], r)
  }

  lemma {:induction false} LatestFound(jobs: seq<Row>, r: string)
    ensures LatestImport(jobs, r).Some? <==> exists i :: 0 <= i < |jobs| && ImportOf(jobs[i], r)
    ensures forall i | 0 <= i < |jobs| && ImportOf(jobs[i], r) :: jobs[i].end.at <= LatestImport(jobs, r).value
    ensures LatestImport(jobs, r).Some? ==>
              exists i :: 0 <= i < |jobs| && ImportOf(jobs[i], r) && jobs[i].end.at == LatestImport(jobs, r).value
    decreases |jobs|
  {
    if jobs != [] {
      var front := jobs[..|jobs| - 1];
      LatestFound(front, r);
      hide ImportOf;
      if LatestImport(front, r).Some? {
        var k :| 0 <= k < |front| && ImportOf(front[k], r) && front[k].end.at == LatestImport(front, r).value;
        assert jobs[k] == front[k];
      }
      forall i | 0 <= i < |jobs| && ImportOf(jobs[i], r)
        ensures LatestImport(jobs, r).Some? && jobs[i].end.at <= LatestImport(jobs, r).value
      {
        if i < |front| {
          assert front[i] == jobs[i];
        }
      }
    }
  }

  /** The join of `claim_available` loses no available row but those whose name is only spaces. */
  lemma JoinIsComplete(b: Book, r: string)
    requires Linked(b)
    ensures r in Claimable(b) <==> IsAvailable(b, r) && !Blank(r)
  {
    LatestFound(b.jobs, r);
  }

  lemma StockedStaysLinked(jobs: seq<Row>, jobs': seq<Row>, r: string)
    requires RowsKept(jobs, jobs') && exists i :: 0 <= i < |jobs| && ImportOf(jobs[i], r)
    ensures exists i :: 0 <= i < |jobs'| && ImportOf(jobs'[i], r)
  {
    var i :| 0 <= i < |jobs| && ImportOf(jobs[i], r);
    assert ImportOf(jobs'[i], r);
  }

  lemma LinkedStep(b: Book, op: Op)
    requires Linked(b)
    ensures Linked(Apply(b, op))
  {
    var b' := Apply(b, op);
    RowsKeptStep(b, op);
    forall r | r in b'.stock
      ensures r != "" && exists i :: 0 <= i < |b'.jobs| && ImportOf(b'.jobs[i], r)
    {
      if r in b.stock {
        StockedStaysLinked(b.jobs, b'.jobs, r);
      } else {
        NewlyStocked(b, op, r);
      }
    }
  }

  lemma NewlyStocked(b: Book, op: Op, r: string)
    requires r !in b.stock && r in Apply(b, op).stock
    ensures r != "" && exists i :: 0 <= i < |Apply(b, op).jobs| && ImportOf(Apply(b, op).jobs[i], r)
  {
    hide Ranked, Claimable, ClaimingIn;
    match op
    case OpFinish(id, status, reason, receipt, now) =>
      assert ImportOf(Apply(b, op).jobs[id], r);
    case OpReopen =>
      var i :| 0 <= i < |b.jobs| && WasImported(b.jobs[i]) && b.jobs[i].end.receipt == Some(r);
      assert ImportOf(Apply(b, op).jobs[i], r);
    case _ => assert false;
  }

  lemma {:induction false} LinkedRun(b: Book, ops: seq<Op>)
    requires Linked(b)
    ensures Linked(Run(b, ops))
    decreases |ops|
  {
    if ops != [] {
      hide Apply;
      LinkedStep(b, ops[0]);
      LinkedRun(Apply(b, ops[0]), ops[1..]);
    }
  }

  /** Every non-empty receipt of an imported row is stocked. */
  ghost predicate Complete(b: Book)
  {
    forall i | 0 <= i < |b.jobs| && WasImported(b.jobs[i]) && b.jobs[i].end.receipt.Some? ::
      b.jobs[i].end.receipt.value == "" || b.jobs[i].end.receipt.value in b.stock
  }

  lemma NothingUnstocked(b: Book, op: Op)
    ensures b.stock.Keys <= Apply(b, op).stock.Keys
  {
    hide Ranked, Claimable, ClaimingIn, Receipts, NextAttempt, Recovered;
  }

  lemma CompleteStep(b: Book, op: Op)
    requires Complete(b)
    ensures Complete(Apply(b, op))
  {
    var b' := Apply(b, op);
    NothingUnstocked(b, op);
    forall i | 0 <= i < |b'.jobs| && WasImported(b'.jobs[i]) && b'.jobs[i].end.receipt.Some?
      ensures b'.jobs[i].end.receipt.value == "" || b'.jobs[i].end.receipt.value in b'.stock
    {
      if i < |b.jobs| && WasImported(b.jobs[i]) {
        RowsKeptStep(b, op);
      } else {
        OnlyFinishImports(b, op, i);
      }
    }
  }

  lemma OnlyFinishImports(b: Book, op: Op, i: nat)
    requires i < |Apply(b, op).jobs| && WasImported(Apply(b, op).jobs[i])
    requires i < |b.jobs| ==> !WasImported(b.jobs[i])
    ensures op.OpFinish? && op.id == i && Apply(b, op).jobs[i].end.receipt == op.receipt
    ensures op.receipt.Some? && op.receipt.value != "" ==> op.receipt.value in Apply(b, op).stock
  {
    hide Ranked, Claimable, ClaimingIn, Receipts, NextAttempt;
  }

  lemma {:induction false} CompleteRun(b: Book, ops: seq<Op>)
    requires Complete(b)
    ensures Complete(Run(b, ops))
    decreases |ops|
  {
    if ops != [] {
      hide Apply;
      CompleteStep(b, ops[0]);
      CompleteRun(Apply(b, ops[0]), ops[1..]);
    }
  }

  /** After any run the stocked receipts are exactly the non-empty ones of imported rows, so opening the
      ledger again changes nothing. */
  lemma StockIsImports(ops: seq<Op>, r: string)
    ensures var b := Run(Blankbook, ops);
            && (r in b.stock <==> r != "" && exists i :: 0 <= i < |b.jobs| && ImportOf(b.jobs[i], r))
            && Reopen(b) == b
  {
    var b := Run(Blankbook, ops);
    LinkedRun(Blankbook, ops);
    CompleteRun(Blankbook, ops);
    hide Run;
    assert Reopen(b).stock == b.stock;
    if r != "" && exists i :: 0 <= i < |b.jobs| && ImportOf(b.jobs[i], r) {
      var i :| 0 <= i < |b.jobs| && ImportOf(b.jobs[i], r);
      assert WasImported(b.jobs[i]);
    }
  }

  function AvailableIn(b: Book): set<string> { set r | r in b.stock && IsAvailable(b, r) && !Blank(r) }

  lemma JoinIsWhole(b: Book)
    requires Linked(b)
    ensures Claimable(b) == AvailableIn(b)
  {
    forall x
      ensures x in Claimable(b) <==> x in AvailableIn(b)
    {
      JoinIsComplete(b, x);
    }
  }

  /** `rs` is the answer of a claim of at most `limit` on a book, and `after` the inventory left:
      as many distinct receipts as asked for or available, the first ones in the ranking, and each
      of them, and nothing else, moved to the batch. */
  ghost predicate ExactClaim(b: Book, limit: int, batch: string, rs: seq<string>, after: map<string, Entry>)
  {
    && |rs| == Min(limit, |AvailableIn(b)|)
    && (forall i, j | 0 <= i < j < |rs| :: rs[i] != rs[j] && Before(b.jobs, rs[i], rs[j]))
    && (forall x | x in rs :: x in AvailableIn(b))
    && (forall x, y | x in rs && y in AvailableIn(b) && y !in rs :: Before(b.jobs, x, y))
    && after.Keys == b.stock.Keys
    && forall x | x in b.stock ::
         after[x] == if x in rs then Entry(Claiming, None, batch, "") else b.stock[x]
  }

  lemma ClaimOfLinked(b: Book, limit: int, batch: string)
    requires Linked(b) && limit > 0 && batch != ""
    ensures var (b', r) := Claim(b, limit, batch);
            b'.jobs == b.jobs && r.Ok? && ExactClaim(b, limit, batch, r.value, b'.stock)
  {
    hide Before, Ranked, Claimable, Linked, Take, AvailableIn;
    JoinIsWhole(b);
    var n := Min(limit, |Ranked(b)|);
    RankedPrefix(b, n);
    TakeIsExact(b, Ranked(b)[..n], batch);
  }

  lemma TakeIsExact(b: Book, rs: seq<string>, batch: string)
    requires forall x | x in rs :: x in AvailableIn(b)
    ensures Take(b.stock, rs, batch).Keys == b.stock.Keys
    ensures forall x | x in b.stock :: Take(b.stock, rs, batch)[x] ==
              if x in rs then Entry(Claiming, None, batch, "") else b.stock[x]
  {
  }

  lemma TakeOneMore(stock: map<string, Entry>, rs: seq<string>, x: string, batch: string)
    ensures Take(stock, rs + [x], batch) ==
            if x in stock && Take(stock, rs, batch)[x].stage.Available?
            then Take(stock, rs, batch)[x := Entry(Claiming, None, batch, "")] else Take(stock, rs, batch)
  {
    assert (rs + [x])[..|rs|] == rs;
  }

  /** What a claim changes, on any book. */
  lemma ClaimShape(b: Book, limit: int, batch: string)
    requires limit > 0 && batch != ""
    ensures var (b', r) := Claim(b, limit, batch);
            && r.Ok? && b'.jobs == b.jobs && b'.stock.Keys == b.stock.Keys
            && (forall i, j | 0 <= i < j < |r.value| :: r.value[i] != r.value[j])
            && (forall x | x in r.value :: x in Claimable(b))
            && forall x | x in b.stock ::
                 b'.stock[x] == if x in r.value then Entry(Claiming, None, batch, "") else b.stock[x]
  {
    var n := Min(limit, |Ranked(b)|);
    RankedPrefix(b, n);
    hide Before, Ranked, Blank, LatestImport;
    forall x | x in Ranked(b)[..n]
      ensures b.stock[x].stage.Available?
    {
    }
  }

  /** Returning a batch undoes its claim, but for the note. */
  lemma ReturnUndoesClaim(b: Book, limit: int, batch: string, note: string)
    requires limit > 0 && batch != "" && ClaimingIn(b, Some(batch)) == {}
    ensures var (b', r) := Claim(b, limit, batch);
            var (b'', n) := RecoverClaiming(b', Some(batch), note);
            && r.Ok? && n == |r.value| && b''.jobs == b.jobs && b''.stock.Keys == b.stock.Keys
            && forall x | x in b.stock ::
                 b''.stock[x] == if x in r.value then Entry(Available, None, "", note) else b.stock[x]
  {
    ClaimShape(b, limit, batch);
    var (b', r) := Claim(b, limit, batch);
    hide Claim, Claimable;
    forall x
      ensures x in r.value <==> x in ClaimingIn(b', Some(batch))
    {
      assert x !in ClaimingIn(b, Some(batch));
    }
    SizeOfDistinct(r.value, ClaimingIn(b', Some(batch)));
  }

  /** Marking a batch completes its claim: it moves and counts exactly the claimed receipts, and leaves nothing
      of the batch to be returned. */
  lemma ClaimThenMark(b: Book, limit: int, batch: string, note: string, now: int, later: string)
    requires limit > 0 && batch != "" && ClaimingIn(b, Some(batch)) == {}
    ensures var (b', r) := Claim(b, limit, batch);
            var (b'', m) := MarkClaimed(b', batch, note, now);
            && r.Ok? && m == Ok(|r.value|) && b''.jobs == b.jobs && b''.stock.Keys == b.stock.Keys
            && (forall x | x in b.stock ::
                  b''.stock[x] == if x in r.value then Entry(Claimed, Some(now), batch, note) else b.stock[x])
            && RecoverClaiming(b'', Some(batch), later) == (b'', 0)
  {
    ClaimShape(b, limit, batch);
    var (b', r) := Claim(b, limit, batch);
    hide Claim, Claimable;
    forall x
      ensures x in r.value <==> x in ClaimingIn(b', Some(batch))
    {
      assert x !in ClaimingIn(b, Some(batch));
    }
    SizeOfDistinct(r.value, ClaimingIn(b', Some(batch)));
    var b'' := MarkClaimed(b', batch, note, now).0;
    assert ClaimingIn(b'', Some(batch)) == {};
    assert RecoverClaiming(b'', Some(batch), later).0.stock == b''.stock;
  }

  lemma {:induction false} SizeOfDistinct(rs: seq<string>, s: set<string>)
    requires (forall i, j | 0 <= i < j < |rs| :: rs[i] != rs[j]) && forall x :: x in rs <==> x in s
    ensures |rs| == |s|
    decreases |rs|
  {
    if rs == [] {
      assert s == {};
    } else {
      forall x
        ensures x in rs[1..] <==> x in s - {rs[0]}
      {
      }
      SizeOfDistinct(rs[1..], s - {rs[0]});
    }
  }

  /** After any run whatsoever, a claim of a positive number is exact. */
  lemma ClaimIsExact(ops: seq<Op>, limit: int, batch: string)
    requires limit > 0 && batch != ""
    ensures var b := Run(Blankbook, ops);
            var (b', r) := Claim(b, limit, batch);
            b'.jobs == b.jobs && r.Ok? && ExactClaim(b, limit, batch, r.value, b'.stock)
  {
    LinkedRun(Blankbook, ops);
    ClaimOfLinked(Run(Blankbook, ops), limit, batch);
  }

  /** An available receipt can be claimed if and only if its name is not all spaces. */
  lemma SomeClaimTakesIt(b: Book, r: string)
    requires Linked(b) && IsAvailable(b, r)
    ensures !Blank(r) <==>
              exists limit, batch :: Claim(b, limit, batch).1.Ok? && r in Claim(b, limit, batch).1.value
  {
    hide Claim, Ranked, Linked;
    if Blank(r) {
      forall limit, batch | Claim(b, limit, batch).1.Ok?
        ensures r !in Claim(b, limit, batch).1.value
      {
        ClaimedWereAvailable(b, limit, batch);
      }
    } else {
      JoinIsComplete(b, r);
      WholeClaim(b, "x");
    }
  }

  lemma WholeClaim(b: Book, batch: string)
    requires batch != "" && |Ranked(b)| > 0
    ensures Claim(b, |Ranked(b)|, batch).1 == Ok(Ranked(b))
  {
    hide Ranked, Take;
    assert Ranked(b)[..|Ranked(b)|] == Ranked(b);
  }

  lemma RankedPrefix(b: Book, n: nat)
    requires n <= |Ranked(b)|
    ensures forall x | x in Ranked(b)[..n] :: x in Claimable(b)
    ensures forall i, j | 0 <= i < j < n :: Ranked(b)[i] != Ranked(b)[j] && Before(b.jobs, Ranked(b)[i], Ranked(b)[j])
    ensures forall x, y | x in Ranked(b)[..n] && y in Claimable(b) && y !in Ranked(b)[..n] :: Before(b.jobs, x, y)
  {
    hide Ranked, Before, Claimable;
    var r := Ranked(b);
    forall i, j | 0 <= i < j < n
      ensures r[i] != r[j]
    {
      NotBeforeItself(b.jobs, r[i]);
    }
    assert forall j | 0 <= j < n :: r[j] in r[..n];
    forall x, y | x in r[..n] && y in Claimable(b) && y !in r[..n]
      ensures Before(b.jobs, x, y)
    {
      var i :| 0 <= i < n && r[i] == x;
      var j :| 0 <= j < |r| && r[j] == y;
    }
  }

  lemma NotBeforeItself(jobs: seq<Row>, x: string)
    ensures !Before(jobs, x, x)
  {
    LessIrreflexive(x);
  }

  // ---------------------------------------------------------------- batches over runs

  /** Whether an operation hands the receipts of `batch` back. */
  predicate Returns(op: Op, batch: string)
  {
    op.OpUnclaim? && (op.which.None? || op.which.value == batch)
  }

  lemma HeldStep(b: Book, op: Op, r: string)
    requires r in b.stock && !b.stock[r].stage.Available?
    ensures r in Apply(b, op).stock
    ensures b.stock[r].stage.Claimed? ==> Apply(b, op).stock[r] == b.stock[r]
    ensures !Returns(op, b.stock[r].batch) ==>
              !Apply(b, op).stock[r].stage.Available? && Apply(b, op).stock[r].batch == b.stock[r].batch
  {
    hide Ranked, Claimable, Receipts, NextAttempt, Recovered;
  }

  /** A claimed row never changes again, whatever follows. */
  lemma {:induction false} ClaimedForever(b: Book, ops: seq<Op>, r: string)
    requires r in b.stock && b.stock[r].stage.Claimed?
    ensures r in Run(b, ops).stock && Run(b, ops).stock[r] == b.stock[r]
    decreases |ops|
  {
    if ops != [] {
      hide Apply;
      HeldStep(b, ops[0], r);
      ClaimedForever(Apply(b, ops[0]), ops[1..], r);
    }
  }

  lemma {:induction false} HeldUntilReturned(b: Book, ops: seq<Op>, r: string)
    requires r in b.stock && !b.stock[r].stage.Available?
    requires forall i | 0 <= i < |ops| :: !Returns(ops[i], b.stock[r].batch)
    ensures r in Run(b, ops).stock && !Run(b, ops).stock[r].stage.Available?
    ensures Run(b, ops).stock[r].batch == b.stock[r].batch
    decreases |ops|
  {
    if ops != [] {
      hide Apply, Returns;
      HeldStep(b, ops[0], r);
      HeldUntilReturned(Apply(b, ops[0]), ops[1..], r);
    }
  }

  /** Two claims, with anything between them but the return of the first batch, share no receipt. */
  lemma BatchesAreDisjoint(b: Book, limit1: int, batch1: string, ops: seq<Op>, limit2: int, batch2: string)
    requires forall i | 0 <= i < |ops| :: !Returns(ops[i], batch1)
    ensures var (b1, r1) := Claim(b, limit1, batch1);
            var (b2, r2) := Claim(Run(b1, ops), limit2, batch2);
            r1.Ok? && r2.Ok? ==> forall x | x in r1.value :: x !in r2.value
  {
    var (b1, r1) := Claim(b, limit1, batch1);
    var c := Run(b1, ops);
    var (b2, r2) := Claim(c, limit2, batch2);
    if r1.Ok? && r2.Ok? {
      hide Run, Returns;
      forall x | x in r1.value
        ensures x !in r2.value
      {
        ClaimHolds(b, limit1, batch1, x);
        HeldUntilReturned(b1, ops, x);
        ClaimedWereAvailable(c, limit2, batch2);
      }
    }
  }

  lemma ClaimHolds(b: Book, limit: int, batch: string, x: string)
    requires Claim(b, limit, batch).1.Ok? && x in Claim(b, limit, batch).1.value
    ensures x in Claim(b, limit, batch).0.stock
    ensures Claim(b, limit, batch).0.stock[x] == Entry(Claiming, None, batch, "")
  {
    ClaimedWereAvailable(b, limit, batch);
  }

  lemma ClaimedWereAvailable(b: Book, limit: int, batch: string)
    requires Claim(b, limit, batch).1.Ok?
    ensures forall x | x in Claim(b, limit, batch).1.value :: x in Claimable(b)
  {
    var n := Min(limit, |Ranked(b)|);
    forall x | x in Claim(b, limit, batch).1.value
      ensures x in Claimable(b)
    {
      assert x in Ranked(b);
    }
  }

  /** A receipt of spaces is stocked by `finish`, and then stays available through every run:
      no claim ever takes it. */
  lemma {:induction false} BlankStaysForever(b: Book, ops: seq<Op>, r: string)
    requires IsAvailable(b, r) && Blank(r)
    ensures IsAvailable(Run(b, ops), r)
    decreases |ops|
  {
    if ops != [] {
      BlankStep(b, ops[0], r);
      hide Apply, IsAvailable, Blank;
      BlankStaysForever(Apply(b, ops[0]), ops[1..], r);
    }
  }

  lemma BlankStep(b: Book, op: Op, r: string)
    requires IsAvailable(b, r) && Blank(r)
    ensures IsAvailable(Apply(b, op), r)
  {
    hide Blank, Receipts, NextAttempt, Recovered;
    if op.OpClaim? {
      if op.limit > 0 && op.batch != "" {
        ClaimedWereAvailable(b, op.limit, op.batch);
        assert r !in Claimable(b);
      }
    }
  }

  /** `finish` stocks the receipt of a spaces-only name that no claim can take. */
  lemma BlankIsStocked(source: string, now: int)
    ensures var b := Finish(StartJob(Blankbook, source), 0, Imported, "imported", Some(" "), now);
            IsAvailable(b, " ") && Claimable(b) == {}
  {
    var b := Finish(StartJob(Blankbook, source), 0, Imported, "imported", Some(" "), now);
    assert Blank(" ");
    assert b.stock.Keys == {" "};
  }

  /** No row is pending after the recovery that start-up and shutdown run. */
  lemma RecoveryLeavesNone(b: Book, reason: string, now: int)
    ensures forall i | 0 <= i < |b.jobs| :: !IsPending(RecoverPending(b, reason, now).jobs, i)
    ensures |RecoverPending(b, reason, now).jobs| == |b.jobs|
    ensures forall s :: HasImported(RecoverPending(b, reason, now).jobs, s) <==> HasImported(b.jobs, s)
  {
    var b' := RecoverPending(b, reason, now);
    forall s
      ensures HasImported(b'.jobs, s) <==> HasImported(b.jobs, s)
    {
      if HasImported(b.jobs, s) {
        var i :| 0 <= i < |b.jobs| && b.jobs[i].source == s && WasImported(b.jobs[i]);
        assert WasImported(b'.jobs[i]);
      }
      if HasImported(b'.jobs, s) {
        var i :| 0 <= i < |b'.jobs| && b'.jobs[i].source == s && WasImported(b'.jobs[i]);
        assert WasImported(b.jobs[i]);
      }
    }
  }

  // ---------------------------------------------------------------- attempts

  function CountOf(jobs: seq<Row>, source: string): nat
    decreases |jobs|
  {
    if jobs == [] then 0
    else CountOf(jobs[..|jobs| - 1], source) + if jobs[|jobs| - 1].source == source then 1 else 0
  }

  /** The attempts of every source are numbered 1, 2, 3, … in the order of their rows. */
  ghost predicate Numbered(jobs: seq<Row>)
  {
    forall i | 0 <= i < |jobs| :: jobs[i].attempt == CountOf(jobs[..i], jobs[i].source) + 1
  }

  lemma {:induction false} NextIsCount(jobs: seq<Row>, source: string)
    requires Numbered(jobs)
    ensures NextAttempt(jobs, source) == CountOf(jobs, source) + 1
    decreases |jobs|
  {
    if jobs != [] {
      var front := jobs[..|jobs| - 1];
      assert forall i | 0 <= i < |front| :: front[..i] == jobs[..i];
      NextIsCount(front, source);
    }
  }

  lemma {:induction false} CountKept(before: seq<Row>, after: seq<Row>, source: string)
    requires |before| == |after| && forall i | 0 <= i < |before| :: before[i].source == after[i].source
    ensures CountOf(before, source) == CountOf(after, source)
    decreases |before|
  {
    if before != [] {
      CountKept(before[..|before| - 1], after[..|after| - 1], source);
    }
  }

  lemma NumberedKept(before: seq<Row>, after: seq<Row>)
    requires Numbered(before) && RowsKept(before, after) && |after| == |before|
    ensures Numbered(after)
  {
    forall i | 0 <= i < |after|
      ensures after[i].attempt == CountOf(after[..i], after[i].source) + 1
    {
      CountKept(before[..i], after[..i], after[i].source);
    }
  }

  lemma {:induction false} AttemptsAreNumbered(b: Book, ops: seq<Op>)
    requires Numbered(b.jobs)
    ensures Numbered(Run(b, ops).jobs)
    decreases |ops|
  {
    if ops != [] {
      var b' := Apply(b, ops[0]);
      RowsKeptStep(b, ops[0]);
      if |b'.jobs| == |b.jobs| {
        NumberedKept(b.jobs, b'.jobs);
      } else {
        OnlyStartAdds(b, ops[0]);
        NextIsCount(b.jobs, ops[0].source);
        assert forall i | 0 <= i <= |b.jobs| :: b'.jobs[..i] == b.jobs[..i];
        assert b.jobs[..|b.jobs|] == b.jobs;
      }
      AttemptsAreNumbered(b', ops[1..]);
    }
  }

  lemma OnlyStartAdds(b: Book, op: Op)
    requires |Apply(b, op).jobs| != |b.jobs|
    ensures op.OpStart?
  {
    hide NextAttempt, Ranked, Claimable, ClaimingIn, Receipts;
  }

  // ---------------------------------------------------------------- what each call writes

  /** A row that is pending ends with just what it is told, at the time given; no other row changes, and a row
      that is not pending does not end again. An import stocks its receipt, unless that is empty or stocked
      already; no stocked row changes. */
  lemma FinishWrites(
    b: Book, id: nat, status: JobStatus, reason: string, receipt: Option<string>, now: int, i: nat, r: string)
    ensures var d := Apply(b, OpFinish(id, status, reason, receipt, now));
            && |d.jobs| == |b.jobs|
            && (!IsPending(b.jobs, id) ==> d == b)
            && (i < |b.jobs| && i != id ==> d.jobs[i] == b.jobs[i])
            && (IsPending(b.jobs, id) ==>
                  && d.jobs[id].end == Done(status, now, reason, receipt)
                  && d.jobs[id].source == b.jobs[id].source && d.jobs[id].attempt == b.jobs[id].attempt
                  && d.jobs[id].begun == b.jobs[id].begun
                  && (r in d.stock <==> r in b.stock || (status == Imported && receipt == Some(r) && r != "")))
            && (r in b.stock ==> d.stock[r] == b.stock[r])
            && (r in d.stock && r !in b.stock ==> d.stock[r].stage.Available? && d.stock[r].claimedAt.None?
                                                  && d.stock[r].batch == "" && d.stock[r].note == "")
  {
  }

  /** An attempt starts as a new last row of its source, pending and not begun; the mark that it has begun is set
      on a pending row only; neither touches anything else. */
  lemma StartWrites(b: Book, source: string, id: nat, i: nat)
    ensures var d := Apply(b, OpStart(source));
            && d.stock == b.stock && |d.jobs| == |b.jobs| + 1 && d.jobs[..|b.jobs|] == b.jobs
            && d.jobs[|b.jobs|].source == source && d.jobs[|b.jobs|].end.Pending? && !d.jobs[|b.jobs|].begun
    ensures var d := Apply(b, OpBegin(id));
            && d.stock == b.stock && |d.jobs| == |b.jobs|
            && (i < |b.jobs| && (i != id || b.jobs[i].end.Done?) ==> d.jobs[i] == b.jobs[i])
            && (IsPending(b.jobs, id) ==>
                  && d.jobs[id].begun && d.jobs[id].end.Pending?
                  && d.jobs[id].source == b.jobs[id].source && d.jobs[id].attempt == b.jobs[id].attempt)
  {
    hide NextAttempt;
  }

  /** Recovery cancels each pending row for the reason given, at the time given, and touches nothing else. */
  lemma RecoveryWrites(b: Book, reason: string, now: int, i: nat)
    ensures var d := Apply(b, OpRecoverPending(reason, now));
            && d.stock == b.stock && |d.jobs| == |b.jobs|
            && (i < |b.jobs| && b.jobs[i].end.Done? ==> d.jobs[i] == b.jobs[i])
            && (IsPending(b.jobs, i) ==>
                  && d.jobs[i].end == Done(Cancelled, now, reason, None)
                  && d.jobs[i].source == b.jobs[i].source && d.jobs[i].attempt == b.jobs[i].attempt
                  && d.jobs[i].begun == b.jobs[i].begun)
  {
  }

  /** A claim of nothing returns nothing, and one without a name is refused, as is a marking without one. */
  lemma Refusals(b: Book, limit: int, batch: string, note: string, now: int)
    ensures limit <= 0 ==> Claim(b, limit, batch) == (b, Ok([]))
    ensures limit > 0 && batch == "" ==> Claim(b, limit, batch) == (b, Err(EmptyBatch))
    ensures batch == "" ==> MarkClaimed(b, batch, note, now) == (b, Err(EmptyBatch))
  {
  }
}
