/** The ledger object (class `Ledger` in xai_enroller/ledger.py): every method against its function
    in LedgerBook. The tables are fields; the loops are those of `executemany` and of the row-wise
    statements. */
module Ledgers {
  import opened Prelude
  import opened LedgerBook

  class Ledger {
    var jobs: seq<Row>
    var stock: map<string, Entry>

    function View(): Book
      reads this
    {
      Book(jobs, stock)
    }

    /** Opens existing tables. */
    constructor (tables: Book)
      ensures View() == Reopen(tables)
    {
      var book := Reopen(tables);
      jobs, stock := book.jobs, book.stock;
    }

    method AttemptAfter(source: string) returns (n: nat)
      ensures n == NextAttempt(jobs, source)
    {
      n := 1;
      for i := 0 to |jobs|
        invariant n == NextAttempt(jobs[..i], source)
      {
        assert jobs[..i + 1][..i] == jobs[..i];
        if jobs[i].source == source {
          n := Max(n, jobs[i].attempt + 1);
        }
      }
      assert jobs[..|jobs|] == jobs;
    }

    method StartFingerprint(source: string) returns (id: nat)
      modifies this`jobs
      ensures View() == StartJob(old(View()), source) && id == old(|jobs|)
    {
      var attempt := AttemptAfter(source);
      id := |jobs|;
      jobs := jobs + [Row(source, attempt, false, Pending)];
    }

    method MarkAuthorizationStarted(id: nat)
      modifies this`jobs
      ensures View() == MarkStarted(old(View()), id)
    {
      if IsPending(jobs, id) {
        jobs := jobs[id := jobs[id].(begun := true)];
      }
    }

    method FinishJob(id: nat, status: JobStatus, reason: string, receipt: Option<string>, now: int)
      modifies this
      ensures View() == Finish(old(View()), id, status, reason, receipt, now)
    {
      var changed := IsPending(jobs, id);
      if changed {
        jobs := jobs[id := jobs[id].(end := Done(status, now, reason, receipt))];
      }
      if changed && status == Imported && receipt.Some? && receipt.value != "" {
        if receipt.value !in stock {
          stock := stock[receipt.value := Stocked];
        }
      }
    }

    method RecoverPendingJobs(reason: string, now: int)
      modifies this`jobs
      ensures View() == RecoverPending(old(View()), reason, now)
    {
      for i := 0 to |jobs|
        invariant |jobs| == old(|jobs|)
        invariant forall k | 0 <= k < i :: jobs[k] == Recovered(old(jobs)[k], reason, now)
        invariant forall k | i <= k < |jobs| :: jobs[k] == old(jobs)[k]
      {
        if jobs[i].end.Pending? {
          jobs := jobs[i := jobs[i].(end := Done(Cancelled, now, reason, None))];
        }
      }
    }

    method AlreadyImported(source: string) returns (found: bool)
      ensures found == HasImported(jobs, source)
    {
      for i := 0 to |jobs|
        invariant !exists k :: 0 <= k < i && jobs[k].source == source && WasImported(jobs[k])
      {
        if jobs[i].source == source && WasImported(jobs[i]) {
          return true;
        }
      }
      return false;
    }

    method ClaimAvailable(limit: int, batch: string) returns (r: Result<seq<string>, LedgerError>)
      modifies this`stock
      ensures (View(), r) == Claim(old(View()), limit, batch)
    {
      hide Ranked, Take;
      if limit <= 0 {
        return Ok([]);
      }
      if batch == "" {
        return Err(EmptyBatch);
      }
      var rows := Ranked(View());
      rows := rows[..Min(limit, |rows|)];
      TakeRows(rows, batch);
      return Ok(rows);
    }

    method TakeRows(rows: seq<string>, batch: string)
      modifies this`stock
      ensures stock == Take(old(stock), rows, batch)
    {
      hide Take;
      TakeNone(stock, rows, batch);
      for i := 0 to |rows|
        invariant stock == Take(old(stock), rows[..i], batch)
      {
        assert rows[..i + 1] == rows[..i] + [rows[i]];
        TakeOneMore(old(stock), rows[..i], rows[i], batch);
        if rows[i] in stock && stock[rows[i]].stage.Available? {
          stock := stock[rows[i] := Entry(Claiming, None, batch, "")];
        }
      }
      assert rows[..|rows|] == rows;
    }

    /** Marks what the batch is claiming and counts it; nothing of the batch is being claimed then. */
    method MarkClaimedBatch(batch: string, note: string, now: int) returns (r: Result<nat, LedgerError>)
      modifies this`stock
      ensures (View(), r) == MarkClaimed(old(View()), batch, note, now)
      ensures r.Ok? ==> ClaimingIn(View(), Some(batch)) == {}
    {
      hide MarkClaimed, ClaimingIn, Changed, Set;
      if batch == "" {
        NoNameRefused(View(), note, now);
        return Err(EmptyBatch);
      }
      var left, n := stock.Keys, 0;
      NoneChanged(View(), Some(batch), Mark(note, now));
      while left != {}
        invariant Changed(old(View()), stock, left, n, Some(batch), Mark(note, now))
      {
        var x :| x in left;
        OneMoreChanged(old(View()), stock, left, x, n, Some(batch), Mark(note, now));
        if stock[x].stage.Claiming? && stock[x].batch == batch {
          SetIs(stock[x], note, now);
          stock := stock[x := stock[x].(stage := Claimed, claimedAt := Some(now), note := note)];
          n := n + 1;
        }
        left := left - {x};
      }
      AllMarked(old(View()), stock, n, batch, note, now);
      return Ok(n);
    }

    /** Returns what the batch, or any batch, is claiming and counts it; nothing of it is being claimed then. */
    method ReturnClaims(batch: Option<string>, note: string) returns (n: nat)
      modifies this`stock
      ensures (View(), n) == RecoverClaiming(old(View()), batch, note)
      ensures ClaimingIn(View(), batch) == {}
    {
      hide RecoverClaiming, ClaimingIn, Changed;
      var left := stock.Keys;
      n := 0;
      NoneChanged(View(), batch, Return(note));
      while left != {}
        invariant Changed(old(View()), stock, left, n, batch, Return(note))
      {
        var x :| x in left;
        OneMoreChanged(old(View()), stock, left, x, n, batch, Return(note));
        if stock[x].stage.Claiming? && (batch.None? || stock[x].batch == batch.value) {
          stock := stock[x := Entry(Available, None, "", note)];
          n := n + 1;
        }
        left := left - {x};
      }
      AllReturned(old(View()), stock, n, batch, note);
    }
  }

  // ---------------------------------------------------------------- changing row by row

  lemma TakeNone(stock: map<string, Entry>, rs: seq<string>, batch: string)
    ensures Take(stock, rs[..0], batch) == stock
  {
  }

  /** Of the rows being claimed, those outside `left` have been changed and counted. */
  ghost predicate Changed(
    b: Book, stock: map<string, Entry>, left: set<string>, n: nat, batch: Option<string>, c: Change)
  {
    var all := ClaimingIn(b, batch);
    && left <= stock.Keys && stock.Keys == b.stock.Keys && n == |all - left|
    && forall x | x in stock :: stock[x] == if x in all && x !in left then Set(b.stock[x], c) else b.stock[x]
  }

  lemma NoneChanged(b: Book, batch: Option<string>, c: Change)
    ensures Changed(b, b.stock, b.stock.Keys, 0, batch, c)
  {
    assert ClaimingIn(b, batch) - b.stock.Keys == {};
  }

  lemma OneMoreChanged(
    b: Book, stock: map<string, Entry>, left: set<string>, x: string, n: nat, batch: Option<string>, c: Change)
    requires Changed(b, stock, left, n, batch, c) && x in left
    ensures x in stock
    ensures if stock[x].stage.Claiming? && (batch.None? || stock[x].batch == batch.value)
            then Changed(b, stock[x := Set(stock[x], c)], left - {x}, n + 1, batch, c)
            else Changed(b, stock, left - {x}, n, batch, c)
  {
    hide Set;
    var all := ClaimingIn(b, batch);
    assert stock[x] == b.stock[x];
    Shrinks(all, left, x);
  }

  lemma Shrinks(all: set<string>, left: set<string>, x: string)
    requires x in left
    ensures |all - (left - {x})| == |all - left| + if x in all then 1 else 0
  {
    if x in all {
      assert all - (left - {x}) == (all - left) + {x};
    } else {
      assert all - (left - {x}) == all - left;
    }
  }

  lemma AllChanged(b: Book, stock: map<string, Entry>, n: nat, batch: Option<string>, c: Change)
    requires Changed(b, stock, {}, n, batch, c)
    ensures stock == SetAll(b.stock, ClaimingIn(b, batch), c) && n == |ClaimingIn(b, batch)|
  {
    hide SetAll, Set;
    assert ClaimingIn(b, batch) - {} == ClaimingIn(b, batch);
  }

  lemma NoneLeft(b: Book, stock: map<string, Entry>, n: nat, batch: Option<string>, c: Change)
    requires Changed(b, stock, {}, n, batch, c)
    ensures ClaimingIn(Book(b.jobs, stock), batch) == {}
  {
  }

  lemma SetIs(e: Entry, note: string, now: int)
    ensures Set(e, Mark(note, now)) == e.(stage := Claimed, claimedAt := Some(now), note := note)
  {
  }

  lemma NoNameRefused(b: Book, note: string, now: int)
    ensures MarkClaimed(b, "", note, now) == (b, Err(EmptyBatch))
  {
    hide SetAll;
  }

  lemma AllMarked(b: Book, stock: map<string, Entry>, n: nat, batch: string, note: string, now: int)
    requires batch != "" && Changed(b, stock, {}, n, Some(batch), Mark(note, now))
    ensures MarkClaimed(b, batch, note, now) == (Book(b.jobs, stock), Ok(n))
    ensures ClaimingIn(Book(b.jobs, stock), Some(batch)) == {}
  {
    hide ClaimingIn, Changed, SetAll;
    AllChanged(b, stock, n, Some(batch), Mark(note, now));
    NoneLeft(b, stock, n, Some(batch), Mark(note, now));
  }

  lemma AllReturned(b: Book, stock: map<string, Entry>, n: nat, batch: Option<string>, note: string)
    requires Changed(b, stock, {}, n, batch, Return(note))
    ensures RecoverClaiming(b, batch, note) == (Book(b.jobs, stock), n)
    ensures ClaimingIn(Book(b.jobs, stock), batch) == {}
  {
    hide ClaimingIn, Changed, SetAll;
    AllChanged(b, stock, n, batch, Return(note));
    NoneLeft(b, stock, n, batch, Return(note));
  }
}
