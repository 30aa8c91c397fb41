/** The inventory object (class `CredentialInventory` in xai_enroller/inventory.py): each method
    carries out its plan of durable steps, in order, up to the first refusal. */
module ClaimFiles {
  import opened Prelude
  import opened LedgerBook
  import opened Ledgers
  import opened Claims

  class CredentialInventory<C(!new)> {
    const ledger: Ledger
    var available: map<string, C>
    var claimed: map<(string, string), C>

    constructor (ledger: Ledger, disk: Disk<C>)
      ensures this.ledger == ledger && available == disk.loose && claimed == disk.boxed
    {
      this.ledger := ledger;
      available, claimed := disk.loose, disk.boxed;
    }

    function View(): World<C>
      reads this, ledger
    {
      World(ledger.View(), Disk(available, claimed))
    }

    method CompleteBatch(batch: string, receipts: seq<string>, note: string, now: int)
      returns (moved: nat, error: Option<ClaimError>)
      modifies this, ledger`stock
      ensures receipts == [] ==> View() == old(View()) && error.None?
      ensures receipts != [] ==> (View(), error) == Do(old(View()), BatchPlan(batch, receipts, note, now))
      ensures error.None? ==> moved == |receipts|
    {
      moved, error := 0, None;
      if receipts == [] {
        return;
      }
      ghost var plan := BatchPlan(batch, receipts, note, now);
      assert plan[0..] == plan;
      for i := 0 to |receipts|
        invariant moved == i
        invariant Do(View(), plan[i..]) == Do(old(View()), plan)
      {
        assert plan[i..][0] == Move(batch, receipts[i]) && plan[i..][1..] == plan[i + 1..];
        var receipt := receipts[i];
        if !ValidName(receipt) {
          return moved, Some(InvalidReceipt);
        }
        var here, there := receipt in available, (batch, receipt) in claimed;
        if here && there {
          return moved, Some(InBothPlaces);
        }
        if !here && !there {
          return moved, Some(InNeitherPlace);
        }
        if here {
          claimed := claimed[(batch, receipt) := available[receipt]];
          available := available - {receipt};
        }
        moved := moved + 1;
      }
      assert plan[|receipts|..] == [Commit(batch, note, now, |receipts|)];
      OneAction(View(), Commit(batch, note, now, |receipts|));
      var marked := ledger.MarkClaimedBatch(batch, note, now);
      if marked.Err? {
        error := Some(NoBatchName);
      } else if marked.value != |receipts| {
        error := Some(CommittedPartly);
      }
    }

    method Take(limit: int, note: string, batch: string, now: int)
      returns (moved: nat, error: Option<ClaimError>)
      modifies this, ledger`stock
      ensures limit <= 0 ==> error == Some(NotPositive) && View() == old(View())
      ensures limit > 0 && batch == "" ==> error == Some(NoBatchName) && View() == old(View())
      ensures limit > 0 && batch != "" ==>
                var (book, r) := Claim(old(View()).book, limit, batch);
                var start := old(View()).(book := book);
                (View(), error) == if r.value == [] then (start, None)
                                   else Do(start, BatchPlan(batch, r.value, note, now))
    {
      if limit <= 0 {
        return 0, Some(NotPositive);
      }
      var r := ledger.ClaimAvailable(limit, batch);
      if r.Err? {
        return 0, Some(NoBatchName);
      }
      hide Do, BatchPlan, Claim;
      moved, error := CompleteBatch(batch, r.value, note, now);
    }

    method RecoverAll(now: int) returns (recovered: nat, error: Option<ClaimError>)
      modifies this, ledger`stock
      ensures (View(), error) == Recover(old(View()), now)
      ensures error.None? ==> recovered == |ClaimingIn(old(View()).book, None)|
    {
      var book := ledger.View();
      var rows := PendingClaims(book);
      recovered, error := CompleteRows(book, rows, now);
    }

    /** Completes the batches of the rows read from the ledger, one after another. */
    method CompleteRows(book: Book, rows: seq<string>, now: int)
      returns (recovered: nat, error: Option<ClaimError>)
      requires forall x | x in rows :: x in book.stock
      modifies this, ledger`stock
      ensures (View(), error) == Do(old(View()), Grouped(book, rows, now))
      ensures error.None? ==> recovered == |rows|
    {
      hide Do, BatchPlan, Grouped, OfBatch;
      recovered, error := 0, None;
      var left := rows;
      while left != []
        invariant error.None?
        invariant forall x | x in left :: x in book.stock
        invariant Do(View(), Grouped(book, left, now)) == Do(old(View()), Grouped(book, rows, now))
        invariant recovered + |left| == |rows|
        decreases |left|
      {
        assert left[0] in left;
        var batch := book.stock[left[0]].batch;
        var mine, rest := OfBatch(book, left, batch, true), OfBatch(book, left, batch, false);
        GroupedHead(book, left, now);
        ghost var before := View();
        var moved;
        moved, error := CompleteBatch(batch, mine, "", now);
        if error.Some? {
          DoRefused(before, BatchPlan(batch, mine, "", now), Grouped(book, rest, now));
          return;
        }
        DoConcat(before, BatchPlan(batch, mine, "", now), Grouped(book, rest, now));
        recovered := recovered + moved;
        left := rest;
      }
      NothingLeft(View(), book, now);
    }
  }

  lemma GroupedHead(b: Book, rs: seq<string>, now: int)
    requires rs != [] && forall x | x in rs :: x in b.stock
    ensures var batch := b.stock[rs[0]].batch;
            var mine, rest := OfBatch(b, rs, batch, true), OfBatch(b, rs, batch, false);
            && mine != [] && |mine| + |rest| == |rs|
            && Grouped(b, rs, now) == BatchPlan(batch, mine, "", now) + Grouped(b, rest, now)
  {
    var batch := b.stock[rs[0]].batch;
    assert rs[0] in OfBatch(b, rs, batch, true);
    SplitsUp(b, rs, batch);
  }

  lemma NothingLeft<C>(w: World<C>, b: Book, now: int)
    ensures Do(w, Grouped(b, [], now)) == (w, None)
  {
  }

  lemma {:induction false} SplitsUp(b: Book, rs: seq<string>, batch: string)
    requires forall x | x in rs :: x in b.stock
    ensures |OfBatch(b, rs, batch, true)| + |OfBatch(b, rs, batch, false)| == |rs|
    decreases |rs|
  {
    if rs != [] {
      SplitsUp(b, rs[1..], batch);
    }
  }

  lemma {:induction false} DoRefused<C>(w: World<C>, p: seq<Action>, q: seq<Action>)
    requires Do(w, p).1.Some?
    ensures Do(w, p + q) == Do(w, p)
    decreases |p|
  {
    hide Act;
    if p != [] {
      assert (p + q)[1..] == p[1..] + q;
      if Act(w, p[0]).1.None? {
        DoRefused(Act(w, p[0]).0, p[1..], q);
      }
    }
  }
}
