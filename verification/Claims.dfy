/** Moving claimed credential files and committing the claim (xai_enroller/inventory.py), with the
    process stopping at any point and `recover` run again. */
module Claims {
  import opened Prelude
  import opened LedgerBook

  /** The credential files: `loose` in the available directory, `boxed` in the batch directories. */
  datatype Disk<C> = Disk(loose: map<string, C>, boxed: map<(string, string), C>)

  datatype World<C> = World(book: Book, disk: Disk<C>)

  datatype ClaimError = InvalidReceipt | InBothPlaces | InNeitherPlace | CommittedPartly | NotPositive | NoBatchName

  predicate Plain(c: char)
  {
    'A' <= c <= 'Z' || 'a' <= c <= 'z' || '0' <= c <= '9'
  }

  /** The pattern that a receipt must match whole to be used as a file name. */
  predicate ValidName(r: string)
  {
    && 1 <= |r| <= 128 && Plain(r[0])
    && forall i | 0 < i < |r| :: Plain(r[i]) || r[i] in {'.', '_', '-'}
  }

  /** The usable names are those of one ASCII letter or digit, followed by at most 127 more characters that are
      letters, digits, dots, underscores or hyphens. So a name is one path component, and not a hidden one. */
  lemma NamesAre(r: string, c: char)
    ensures !ValidName("") && (ValidName([c]) <==> '0' <= c <= '9' || 'A' <= c <= 'Z' || 'a' <= c <= 'z')
    ensures r != "" ==> (ValidName(r + [c]) <==> ValidName(r) && |r| < 128 && (ValidName([c]) || c in "._-"))
    ensures ValidName(r) ==> '/' !in r && '\\' !in r && r[0] != '.'
  {
    var s := r + [c];
    if r != "" {
      assert s[0] == r[0] && s[|r|] == c && forall i | 0 < i < |r| :: s[i] == r[i];
    }
  }

  /** The durable steps of `_complete_batch`, in the order taken: one per receipt, then the commit. */
  datatype Action =
    | Move(batch: string, receipt: string)
    | Commit(batch: string, note: string, now: int, count: nat)

  function MoveFile<C>(d: Disk<C>, batch: string, r: string): (Disk<C>, Option<ClaimError>)
  {
    if !ValidName(r) then (d, Some(InvalidReceipt))
    else if r in d.loose && (batch, r) in d.boxed then (d, Some(InBothPlaces))
    else if r !in d.loose && (batch, r) !in d.boxed then (d, Some(InNeitherPlace))
    else if r in d.loose then (Disk(d.loose - {r}, d.boxed[(batch, r) := d.loose[r]]), None)
    else (d, None)
  }

  function Act<C>(w: World<C>, a: Action): (World<C>, Option<ClaimError>)
  {
    match a
    case Move(batch, r) =>
      var (disk, error) := MoveFile(w.disk, batch, r);
      (w.(disk := disk), error)
    case Commit(batch, note, now, count) =>
      var (book, marked) := MarkClaimed(w.book, batch, note, now);
      (w.(book := book),
       if marked.Err? then Some(NoBatchName)
       else if marked.value != count then Some(CommittedPartly) else None)
  }

  function Do<C>(w: World<C>, plan: seq<Action>): (World<C>, Option<ClaimError>)
    decreases |plan|
  {
    if plan == [] then (w, None)
    else
      var (v, error) := Act(w, plan[0]);
      if error.Some? then (v, error) else Do(v, plan[1..])
  }

  function Moves(batch: string, rs: seq<string>): (p: seq<Action>)
    ensures |p| == |rs| && forall i | 0 <= i < |rs| :: p[i] == Move(batch, rs[i])
  {
    seq(|rs|, i requires 0 <= i < |rs| => Move(batch, rs[i]))
  }

  /** `_complete_batch` for a non-empty batch. */
  function BatchPlan(batch: string, rs: seq<string>, note: string, now: int): seq<Action>
  {
    Moves(batch, rs) + [Commit(batch, note, now, |rs|)]
  }

  function OfBatch(b: Book, rs: seq<string>, batch: string, mine: bool): (r: seq<string>)
    requires forall x | x in rs :: x in b.stock
    ensures forall x :: x in r <==> x in rs && ((b.stock[x].batch == batch) == mine)
    ensures |r| <= |rs|
    decreases |rs|
  {
    if rs == [] then []
    else
      var rest := OfBatch(b, rs[1..], batch, mine);
      if (b.stock[rs[0]].batch == batch) == mine then [rs[0]] + rest else rest
  }

  /** `recover`: the rows grouped by batch, in the order in which the batches first appear. */
  function Grouped(b: Book, rs: seq<string>, now: int): seq<Action>
    requires forall x | x in rs :: x in b.stock
    decreases |rs|
  {
    if rs == [] then []
    else
      var batch := b.stock[rs[0]].batch;
      assert OfBatch(b, rs, batch, false) == OfBatch(b, rs[1..], batch, false);
      BatchPlan(batch, OfBatch(b, rs, batch, true), "", now) + Grouped(b, OfBatch(b, rs, batch, false), now)
  }

  function RecoveryPlan(b: Book, now: int): seq<Action> { Grouped(b, PendingClaims(b), now) }

  function Recover<C>(w: World<C>, now: int): (World<C>, Option<ClaimError>)
  {
    Do(w, RecoveryPlan(w.book, now))
  }

  // ---------------------------------------------------------------- what a claim comes to

  predicate IsClaiming(b: Book, r: string) { r in b.stock && b.stock[r].stage.Claiming? }

  /** A receipt that recovery can deal with: nameable, and its file in exactly one of the two places. */
  predicate InOnePlace<C>(w: World<C>, r: string)
    requires r in w.book.stock
  {
    var batch := w.book.stock[r].batch;
    ValidName(r) && batch != "" && (r in w.disk.loose <==> (batch, r) !in w.disk.boxed)
  }

  ghost predicate Healthy<C>(w: World<C>)
  {
    forall r | IsClaiming(w.book, r) :: InOnePlace(w, r)
  }

  /** The files once every pending claim has been carried out. */
  function FinalLoose<C>(w: World<C>): map<string, C>
  {
    w.disk.loose - ClaimingIn(w.book, None)
  }

  /** A boxed file's content once every pending claim has been carried out. */
  function FinalBoxed<C>(w: World<C>, batch: string, r: string): Option<C>
  {
    if IsClaiming(w.book, r) && w.book.stock[r].batch == batch && r in w.disk.loose then Some(w.disk.loose[r])
    else if (batch, r) in w.disk.boxed then Some(w.disk.boxed[(batch, r)])
    else None
  }

  /** An inventory row once its claim has been carried out; of a claimed row, the batch alone. */
  function FinalRow(e: Entry): (Stage, string, string)
  {
    if e.stage.Available? then (Available, e.batch, e.note) else (Claimed, e.batch, "")
  }

  /** `w` and `v` come to the same files and the same rows, but for the note and the time of a
      claimed row. */
  ghost predicate SameEnd<C(!new)>(w: World<C>, v: World<C>)
  {
    && w.book.jobs == v.book.jobs
    && w.book.stock.Keys == v.book.stock.Keys
    && (forall r | r in w.book.stock :: FinalRow(w.book.stock[r]) == FinalRow(v.book.stock[r]))
    && FinalLoose(w) == FinalLoose(v)
    && forall batch, r :: FinalBoxed(w, batch, r) == FinalBoxed(v, batch, r)
  }

  /** Nothing is being claimed. */
  ghost predicate Settled<C>(w: World<C>) { forall r :: !IsClaiming(w.book, r) }

  /** An action that a claim in progress may take here. */
  ghost predicate Legal<C>(w: World<C>, a: Action)
  {
    match a
    case Move(batch, r) => IsClaiming(w.book, r) && w.book.stock[r].batch == batch
    case Commit(batch, _, _, count) =>
      && batch != ""
      && count == |ClaimingIn(w.book, Some(batch))|
      && forall r | r in ClaimingIn(w.book, Some(batch)) :: (batch, r) in w.disk.boxed
  }

  lemma MoveKeeps<C(!new)>(w: World<C>, batch: string, r: string)
    requires Healthy(w) && Legal(w, Move(batch, r))
    ensures var (v, error) := Act(w, Move(batch, r));
            && error.None? && Healthy(v) && SameEnd(w, v) && v.book == w.book
            && (batch, r) in v.disk.boxed && r !in v.disk.loose
            && forall k | k in w.disk.boxed :: k in v.disk.boxed
  {
    assert InOnePlace(w, r);
    var (v, _) := Act(w, Move(batch, r));
    forall x | IsClaiming(v.book, x)
      ensures InOnePlace(v, x)
    {
      assert InOnePlace(w, x);
    }
    assert FinalLoose(w) == FinalLoose(v);
  }

  lemma CommitKeeps<C(!new)>(w: World<C>, batch: string, note: string, now: int, count: nat)
    requires Healthy(w) && Legal(w, Commit(batch, note, now, count))
    ensures var (v, error) := Act(w, Commit(batch, note, now, count));
            && error.None? && Healthy(v) && SameEnd(w, v) && v.disk == w.disk
            && v.book.stock.Keys == w.book.stock.Keys
            && forall r | r in w.book.stock :: v.book.stock[r] ==
                 if r in ClaimingIn(w.book, Some(batch))
                 then w.book.stock[r].(stage := Claimed, claimedAt := Some(now), note := note)
                 else w.book.stock[r]
  {
    hide MarkClaimed;
    var (v, _) := Act(w, Commit(batch, note, now, count));
    MarkShape(w.book, batch, note, now);
    forall r | r in ClaimingIn(w.book, Some(batch))
      ensures r !in w.disk.loose
    {
      assert InOnePlace(w, r);
    }
    forall x | IsClaiming(v.book, x)
      ensures InOnePlace(v, x)
    {
      assert InOnePlace(w, x);
    }
    assert FinalLoose(w) == FinalLoose(v);
  }

  /** A commit is refused exactly when its batch has no name, which changes nothing, or when the rows that the batch
      is claiming are not as many as its files, which are marked all the same. */
  lemma CommitRefusals<C>(w: World<C>, batch: string, note: string, now: int, count: nat, r: string)
    ensures var (v, error) := Act(w, Commit(batch, note, now, count));
            && (error == Some(NoBatchName) <==> batch == "")
            && (error == Some(CommittedPartly) <==> batch != "" && |ClaimingIn(w.book, Some(batch))| != count)
            && (error.Some? ==> error.value.NoBatchName? || error.value.CommittedPartly?)
            && v.disk == w.disk && (batch == "" ==> v == w)
            && (batch != "" && IsClaiming(w.book, r) && w.book.stock[r].batch == batch ==>
                  r in v.book.stock && v.book.stock[r].stage.Claimed? && v.book.stock[r].claimedAt == Some(now))
  {
    hide SetAll;
    if batch != "" {
      MarkShape(w.book, batch, note, now);
    }
  }

  // ---------------------------------------------------------------- plans

  ghost predicate LegalPlan<C>(w: World<C>, plan: seq<Action>)
    decreases |plan|
  {
    plan == [] || (Legal(w, plan[0]) && LegalPlan(Act(w, plan[0]).0, plan[1..]))
  }

  lemma SameEndTransitive<C(!new)>(u: World<C>, v: World<C>, w: World<C>)
    requires SameEnd(u, v) && SameEnd(v, w)
    ensures SameEnd(u, w)
  {
    hide FinalLoose, FinalBoxed, FinalRow;
    forall batch, r
      ensures FinalBoxed(u, batch, r) == FinalBoxed(w, batch, r)
    {
      assert FinalBoxed(u, batch, r) == FinalBoxed(v, batch, r);
    }
  }

  lemma LegalKeeps<C(!new)>(w: World<C>, a: Action)
    requires Healthy(w) && Legal(w, a)
    ensures Act(w, a).1.None? && Healthy(Act(w, a).0) && SameEnd(w, Act(w, a).0)
  {
    hide Act, Healthy, Legal, SameEnd;
    match a
    case Move(batch, r) => MoveKeeps(w, batch, r);
    case Commit(batch, note, now, count) => CommitKeeps(w, batch, note, now, count);
  }

  /** Stopping anywhere in a legal plan leaves a healthy world that comes to the same end. */
  lemma {:induction false} PlanKeeps<C(!new)>(w: World<C>, plan: seq<Action>, k: nat)
    requires Healthy(w) && LegalPlan(w, plan) && k <= |plan|
    ensures Do(w, plan[..k]).1.None? && Healthy(Do(w, plan[..k]).0) && SameEnd(w, Do(w, plan[..k]).0)
    decreases k
  {
    hide Act, Healthy, Legal, SameEnd;
    if k == 0 {
      SameEndRefl(w);
    } else {
      LegalKeeps(w, plan[0]);
      var v := Act(w, plan[0]).0;
      PlanKeeps(v, plan[1..], k - 1);
      assert plan[..k][1..] == plan[1..][..k - 1];
      SameEndTransitive(w, v, Do(w, plan[..k]).0);
    }
  }

  lemma SameEndRefl<C(!new)>(w: World<C>)
    ensures SameEnd(w, w)
  {
  }

  lemma {:induction false} DoConcat<C>(w: World<C>, p: seq<Action>, q: seq<Action>)
    requires Do(w, p).1.None?
    ensures Do(w, p + q) == Do(Do(w, p).0, q)
    decreases |p|
  {
    hide Act;
    if p == [] {
      assert p + q == q;
    } else {
      DoConcat(Act(w, p[0]).0, p[1..], q);
      assert (p + q)[1..] == p[1..] + q;
    }
  }

  lemma {:induction false} LegalConcat<C>(w: World<C>, p: seq<Action>, q: seq<Action>)
    requires LegalPlan(w, p) && Do(w, p).1.None? && LegalPlan(Do(w, p).0, q)
    ensures LegalPlan(w, p + q)
    decreases |p|
  {
    hide Act, Legal;
    if p == [] {
      assert p + q == q;
    } else {
      LegalConcat(Act(w, p[0]).0, p[1..], q);
      assert (p + q)[1..] == p[1..] + q;
    }
  }

  /** Moving the files of receipts being claimed by a batch, all of them or some again. */
  lemma {:induction false} MovesLegal<C(!new)>(w: World<C>, batch: string, rs: seq<string>)
    requires Healthy(w) && forall x | x in rs :: IsClaiming(w.book, x) && w.book.stock[x].batch == batch
    ensures LegalPlan(w, Moves(batch, rs))
    ensures var (v, error) := Do(w, Moves(batch, rs));
            && error.None? && v.book == w.book && Healthy(v)
            && (forall x | x in rs :: (batch, x) in v.disk.boxed)
            && (forall k | k in w.disk.boxed :: k in v.disk.boxed)
    decreases |rs|
  {
    hide Act, Healthy, SameEnd;
    if rs != [] {
      var v := Act(w, Move(batch, rs[0])).0;
      MoveKeeps(w, batch, rs[0]);
      MovesLegal(v, batch, rs[1..]);
      assert Moves(batch, rs)[1..] == Moves(batch, rs[1..]);
    }
  }

  predicate Distinct(rs: seq<string>) { forall i, j | 0 <= i < j < |rs| :: rs[i] != rs[j] }

  lemma {:induction false} OfBatchDistinct(b: Book, rs: seq<string>, batch: string, mine: bool)
    requires (forall x | x in rs :: x in b.stock) && Distinct(rs)
    ensures Distinct(OfBatch(b, rs, batch, mine))
    decreases |rs|
  {
    if rs != [] {
      OfBatchDistinct(b, rs[1..], batch, mine);
    }
  }

  /** `_complete_batch` on all the receipts that a batch is claiming: it succeeds, from then on none
      of them is being claimed, and no other row changes. */
  lemma BatchLegal<C(!new)>(w: World<C>, batch: string, rs: seq<string>, note: string, now: int)
    requires Healthy(w) && rs != [] && Distinct(rs)
    requires forall x :: x in rs <==> x in ClaimingIn(w.book, Some(batch))
    ensures LegalPlan(w, BatchPlan(batch, rs, note, now))
    ensures var (v, error) := Do(w, BatchPlan(batch, rs, note, now));
            && error.None? && Healthy(v) && v.book.stock.Keys == w.book.stock.Keys
            && forall x | x in w.book.stock ::
                 && v.book.stock[x].batch == w.book.stock[x].batch
                 && (IsClaiming(v.book, x) <==> IsClaiming(w.book, x) && x !in rs)
  {
    assert rs[0] in rs && InOnePlace(w, rs[0]);
    MovesLegal(w, batch, rs);
    var v := Do(w, Moves(batch, rs)).0;
    var commit := Commit(batch, note, now, |rs|);
    SizeOfDistinct(rs, ClaimingIn(w.book, Some(batch)));
    hide Do, LegalPlan, Act, MoveFile, MarkClaimed, SameEnd, InOnePlace, Healthy;
    CommitKeeps(v, batch, note, now, |rs|);
    OneAction(v, commit);
    DoConcat(w, Moves(batch, rs), [commit]);
    LegalConcat(w, Moves(batch, rs), [commit]);
  }

  lemma OneAction<C>(w: World<C>, a: Action)
    ensures Do(w, [a]) == Act(w, a)
    ensures LegalPlan(w, [a]) <==> Legal(w, a)
  {
    hide Act, Legal;
    assert [a][1..] == [];
  }

  // ---------------------------------------------------------------- recovery

  /** `rs` lists receipts being claimed, each once, and with one of a batch all of that batch. */
  ghost predicate Whole(b: Book, rs: seq<string>)
  {
    && Distinct(rs)
    && (forall x | x in rs :: IsClaiming(b, x))
    && forall x, y | x in rs && IsClaiming(b, y) && b.stock[y].batch == b.stock[x].batch :: y in rs
  }

  lemma {:induction false} OfBatchSame(b: Book, c: Book, rs: seq<string>, batch: string, mine: bool)
    requires forall x | x in rs :: x in b.stock && x in c.stock && b.stock[x].batch == c.stock[x].batch
    ensures OfBatch(b, rs, batch, mine) == OfBatch(c, rs, batch, mine)
    decreases |rs|
  {
    if rs != [] {
      OfBatchSame(b, c, rs[1..], batch, mine);
    }
  }

  lemma {:induction false} GroupedSame(b: Book, c: Book, rs: seq<string>, now: int)
    requires forall x | x in rs :: x in b.stock && x in c.stock && b.stock[x].batch == c.stock[x].batch
    ensures Grouped(b, rs, now) == Grouped(c, rs, now)
    decreases |rs|
  {
    if rs != [] {
      var batch := b.stock[rs[0]].batch;
      OfBatchSame(b, c, rs, batch, true);
      OfBatchSame(b, c, rs, batch, false);
      assert OfBatch(b, rs, batch, false) == OfBatch(b, rs[1..], batch, false);
      GroupedSame(b, c, OfBatch(b, rs, batch, false), now);
    }
  }

  lemma {:induction false} GroupedLegal<C(!new)>(w: World<C>, rs: seq<string>, now: int)
    requires Healthy(w) && Whole(w.book, rs)
    ensures LegalPlan(w, Grouped(w.book, rs, now))
    ensures Do(w, Grouped(w.book, rs, now)).1.None?
    ensures var v := Do(w, Grouped(w.book, rs, now)).0;
            forall x :: IsClaiming(v.book, x) <==> IsClaiming(w.book, x) && x !in rs
    decreases |rs|
  {
    if rs != [] {
      var b := w.book;
      assert rs[0] in rs;
      var batch := b.stock[rs[0]].batch;
      var mine, rest := OfBatch(b, rs, batch, true), OfBatch(b, rs, batch, false);
      OfBatchDistinct(b, rs, batch, true);
      OfBatchDistinct(b, rs, batch, false);
      assert rs[0] in mine;
      hide Healthy, LegalPlan, Do, BatchPlan, Distinct;
      BatchLegal(w, batch, mine, "", now);
      var v := Do(w, BatchPlan(batch, mine, "", now)).0;
      GroupedSame(b, v.book, rest, now);
      assert rest == OfBatch(b, rs[1..], batch, false);
      GroupedLegal(v, rest, now);
      LegalConcat(w, BatchPlan(batch, mine, "", now), Grouped(b, rest, now));
      DoConcat(w, BatchPlan(batch, mine, "", now), Grouped(b, rest, now));
    }
  }

  lemma PendingIsWhole(b: Book)
    ensures Whole(b, PendingClaims(b))
  {
    var rs := PendingClaims(b);
    forall i, j | 0 <= i < j < |rs|
      ensures rs[i] != rs[j]
    {
      NotByBatchItself(b.stock, rs[i]);
    }
  }

  lemma NotByBatchItself(stock: map<string, Entry>, x: string)
    ensures !ByBatch(stock, x, x)
  {
    Ordering.LessIrreflexive(x);
    if x in stock {
      Ordering.LessIrreflexive(stock[x].batch);
    }
  }

  /** A recovery of a healthy world succeeds, settles every claim, and can be stopped anywhere. */
  lemma RecoverySettles<C(!new)>(w: World<C>, now: int, k: nat)
    requires Healthy(w) && k <= |RecoveryPlan(w.book, now)|
    ensures Recover(w, now).1.None? && Settled(Recover(w, now).0) && SameEnd(w, Recover(w, now).0)
    ensures var (v, error) := Do(w, RecoveryPlan(w.book, now)[..k]);
            error.None? && Healthy(v) && SameEnd(w, v)
  {
    hide Healthy, SameEnd, Do, LegalPlan, Grouped;
    var plan := RecoveryPlan(w.book, now);
    PendingIsWhole(w.book);
    GroupedLegal(w, PendingClaims(w.book), now);
    PlanKeeps(w, plan, k);
    PlanKeeps(w, plan, |plan|);
    assert plan[..|plan|] == plan;
  }

  /** Recoveries one after another, each stopped after so many durable steps. */
  function Stopped<C>(w: World<C>, cuts: seq<(nat, int)>): World<C>
    decreases |cuts|
  {
    if cuts == [] then w
    else
      var plan := RecoveryPlan(w.book, cuts[0].1);
      Stopped(Do(w, plan[..Min(cuts[0].0, |plan|)]).0, cuts[1..])
  }

  lemma {:induction false} StoppedKeeps<C(!new)>(w: World<C>, cuts: seq<(nat, int)>)
    requires Healthy(w)
    ensures Healthy(Stopped(w, cuts)) && SameEnd(w, Stopped(w, cuts))
    decreases |cuts|
  {
    hide Healthy, SameEnd, Do, RecoveryPlan;
    if cuts == [] {
      SameEndRefl(w);
    } else {
      var plan := RecoveryPlan(w.book, cuts[0].1);
      var k := Min(cuts[0].0, |plan|);
      RecoverySettles(w, cuts[0].1, k);
      var v := Do(w, plan[..k]).0;
      StoppedKeeps(v, cuts[1..]);
      SameEndTransitive(w, v, Stopped(w, cuts));
    }
  }

  lemma SettledLoose<C(!new)>(w: World<C>)
    requires Settled(w)
    ensures FinalLoose(w) == w.disk.loose
  {
    forall r
      ensures r !in ClaimingIn(w.book, None)
    {
      assert !IsClaiming(w.book, r);
    }
  }

  /** Two settled worlds that come to the same end have the same files, the same job rows and the
      same inventory rows, but for the note and the time of claimed ones. */
  lemma SettledSame<C(!new)>(w: World<C>, v: World<C>)
    requires Settled(w) && Settled(v) && SameEnd(w, v)
    ensures w.disk == v.disk && w.book.jobs == v.book.jobs && w.book.stock.Keys == v.book.stock.Keys
    ensures forall r | r in w.book.stock ::
              && w.book.stock[r].stage == v.book.stock[r].stage && w.book.stock[r].batch == v.book.stock[r].batch
  {
    SettledLoose(w);
    SettledLoose(v);
    forall k: (string, string)
      ensures k in w.disk.boxed <==> k in v.disk.boxed
      ensures k in w.disk.boxed ==> w.disk.boxed[k] == v.disk.boxed[k]
    {
      assert FinalBoxed(w, k.0, k.1) == FinalBoxed(v, k.0, k.1);
    }
    forall r | r in w.book.stock
      ensures w.book.stock[r].stage == v.book.stock[r].stage && w.book.stock[r].batch == v.book.stock[r].batch
    {
      assert FinalRow(w.book.stock[r]) == FinalRow(v.book.stock[r]);
      assert !IsClaiming(w.book, r) && !IsClaiming(v.book, r);
    }
  }

  /** A committed claim, stopped after any prefix of `_complete_batch`, followed by any number of
      recoveries stopped anywhere and one that runs to its end: nothing is refused, no claim is left,
      and files and rows are those of the run that was never stopped (with the recovery of whatever
      other batches were pending). */
  lemma CrashSafe<C(!new)>(w: World<C>, batch: string, rs: seq<string>, note: string, now: int, k: nat,
                           cuts: seq<(nat, int)>, end: int)
    requires Healthy(w) && rs != [] && Distinct(rs) && k <= |rs| + 1
    requires forall x :: x in rs <==> x in ClaimingIn(w.book, Some(batch))
    ensures var (v, error) := Recover(Stopped(Do(w, BatchPlan(batch, rs, note, now)[..k]).0, cuts), end);
            var (u, refused) := Do(w, BatchPlan(batch, rs, note, now));
            var (x, failed) := Recover(u, end);
            && error.None? && refused.None? && failed.None? && Settled(v)
            && v.disk == x.disk && v.book.jobs == x.book.jobs && v.book.stock.Keys == x.book.stock.Keys
            && (forall r | r in v.book.stock ::
                  v.book.stock[r].stage == x.book.stock[r].stage && v.book.stock[r].batch == x.book.stock[r].batch)
            && (ClaimingIn(w.book, None) == ClaimingIn(w.book, Some(batch)) ==> x == u)
  {
    var plan := BatchPlan(batch, rs, note, now);
    BatchLegal(w, batch, rs, note, now);
    hide Healthy, SameEnd, Do, LegalPlan, BatchPlan, RecoveryPlan, Settled;
    PlanKeeps(w, plan, k);
    PlanKeeps(w, plan, |plan|);
    assert plan[..|plan|] == plan;
    var u, c := Do(w, plan).0, Do(w, plan[..k]).0;
    StoppedKeeps(c, cuts);
    var s := Stopped(c, cuts);
    RecoverySettles(s, end, 0);
    RecoverySettles(u, end, 0);
    var v, x := Recover(s, end).0, Recover(u, end).0;
    SameEndTransitive(w, c, s);
    SameEndTransitive(w, s, v);
    SameEndTransitive(w, u, x);
    SameEndFlip(w, v);
    SameEndTransitive(v, w, x);
    SettledSame(v, x);
    if ClaimingIn(w.book, None) == ClaimingIn(w.book, Some(batch)) {
      forall r
        ensures !IsClaiming(u.book, r)
      {
        assert r in rs <==> r in ClaimingIn(w.book, None);
      }
      NothingToRecover(u, end);
    }
  }

  lemma SameEndFlip<C(!new)>(w: World<C>, v: World<C>)
    requires SameEnd(w, v)
    ensures SameEnd(v, w)
  {
    hide FinalLoose, FinalBoxed, FinalRow;
    forall batch, r
      ensures FinalBoxed(v, batch, r) == FinalBoxed(w, batch, r)
    {
      assert FinalBoxed(w, batch, r) == FinalBoxed(v, batch, r);
    }
  }

  lemma NothingToRecover<C>(w: World<C>, now: int)
    requires forall r :: !IsClaiming(w.book, r)
    ensures Recover(w, now) == (w, None)
  {
    forall r
      ensures r !in ClaimingIn(w.book, None)
    {
      assert !IsClaiming(w.book, r);
    }
    assert PendingClaims(w.book) == [];
  }

  // ---------------------------------------------------------------- when recovery works

  lemma {:induction false} DoChecksMove<C>(w: World<C>, plan: seq<Action>, batch: string, r: string)
    requires Do(w, plan).1.None? && Move(batch, r) in plan
    requires forall b | Move(b, r) in plan :: b == batch
    ensures MoveFile(w.disk, batch, r).1.None?
    decreases |plan|
  {
    hide MarkClaimed;
    if plan[0] != Move(batch, r) {
      assert plan == [plan[0]] + plan[1..];
      var v := Act(w, plan[0]).0;
      DoChecksMove(v, plan[1..], batch, r);
      assert plan[0].Move? ==> plan[0].receipt != r;
      OthersKept(w, plan[0], batch, r);
    }
  }

  lemma OthersKept<C>(w: World<C>, a: Action, batch: string, r: string)
    requires a.Move? ==> a.receipt != r
    ensures var v := Act(w, a).0;
            && (r in v.disk.loose <==> r in w.disk.loose)
            && ((batch, r) in v.disk.boxed <==> (batch, r) in w.disk.boxed)
            && (r in w.disk.loose ==> v.disk.loose[r] == w.disk.loose[r])
            && ((batch, r) in w.disk.boxed ==> v.disk.boxed[(batch, r)] == w.disk.boxed[(batch, r)])
  {
  }

  lemma {:induction false} DoChecksCommit<C>(w: World<C>, plan: seq<Action>, a: Action)
    requires Do(w, plan).1.None? && a.Commit? && a in plan
    ensures a.batch != ""
    decreases |plan|
  {
    if plan[0] != a {
      DoChecksCommit(Act(w, plan[0]).0, plan[1..], a);
    }
  }

  lemma {:induction false} GroupedHas(b: Book, rs: seq<string>, now: int, r: string)
    requires r in rs && forall x | x in rs :: x in b.stock
    ensures Move(b.stock[r].batch, r) in Grouped(b, rs, now)
    ensures exists a :: a in Grouped(b, rs, now) && a.Commit? && a.batch == b.stock[r].batch
    decreases |rs|
  {
    var batch := b.stock[rs[0]].batch;
    var mine, rest := OfBatch(b, rs, batch, true), OfBatch(b, rs, batch, false);
    assert rest == OfBatch(b, rs[1..], batch, false);
    var head := BatchPlan(batch, mine, "", now);
    if r in mine {
      var i :| 0 <= i < |mine| && mine[i] == r;
      assert head[i] == Move(batch, r) && head[|mine|] == Commit(batch, "", now, |mine|);
    } else {
      GroupedHas(b, rest, now, r);
    }
  }

  lemma {:induction false} GroupedMoves(b: Book, rs: seq<string>, now: int, batch: string, r: string)
    requires (forall x | x in rs :: x in b.stock) && Move(batch, r) in Grouped(b, rs, now)
    ensures r in rs && b.stock[r].batch == batch
    decreases |rs|
  {
    if rs != [] {
      var first := b.stock[rs[0]].batch;
      var mine, rest := OfBatch(b, rs, first, true), OfBatch(b, rs, first, false);
      assert rest == OfBatch(b, rs[1..], first, false);
      if Move(batch, r) in BatchPlan(first, mine, "", now) {
        assert Move(batch, r) in Moves(first, mine);
        assert r in mine;
      } else {
        GroupedMoves(b, rest, now, batch, r);
      }
    }
  }

  lemma MovableIsInPlace<C>(w: World<C>, r: string)
    requires r in w.book.stock && w.book.stock[r].batch != ""
    ensures MoveFile(w.disk, w.book.stock[r].batch, r).1.None? <==> InOnePlace(w, r)
  {
  }

  lemma RecoveredIsInPlace<C(!new)>(w: World<C>, now: int, r: string)
    requires Recover(w, now).1.None? && IsClaiming(w.book, r)
    ensures InOnePlace(w, r)
  {
    var rs, plan, batch := PendingClaims(w.book), RecoveryPlan(w.book, now), w.book.stock[r].batch;
    assert r in ClaimingIn(w.book, None) && r in rs;
    hide Do, Grouped, PendingClaims, MoveFile, InOnePlace, ByBatch;
    GroupedHas(w.book, rs, now, r);
    var a :| a in plan && a.Commit? && a.batch == batch;
    DoChecksCommit(w, plan, a);
    forall b | Move(b, r) in plan
      ensures b == batch
    {
      GroupedMoves(w.book, rs, now, b, r);
    }
    DoChecksMove(w, plan, batch, r);
    MovableIsInPlace(w, r);
  }

  /** `recover` refuses nothing if and only if every receipt being claimed has a usable name and a
      file in exactly one of the two places. */
  lemma RecoversIff<C(!new)>(w: World<C>, now: int)
    ensures Recover(w, now).1.None? <==> Healthy(w)
  {
    hide Recover, InOnePlace;
    if Healthy(w) {
      RecoverySettles(w, now, 0);
    }
    if Recover(w, now).1.None? {
      forall r | IsClaiming(w.book, r)
        ensures InOnePlace(w, r)
      {
        RecoveredIsInPlace(w, now, r);
      }
    }
  }

  /** Storing a credential again under a receipt whose file has already been moved stops recovery. */
  lemma RestoreBlocks<C(!new)>(w: World<C>, r: string, content: C, now: int)
    requires IsClaiming(w.book, r) && (w.book.stock[r].batch, r) in w.disk.boxed
    ensures Recover(w.(disk := w.disk.(loose := w.disk.loose[r := content])), now).1.Some?
  {
    var v := w.(disk := w.disk.(loose := w.disk.loose[r := content]));
    RecoversIff(v, now);
    assert IsClaiming(v.book, r) && !InOnePlace(v, r);
  }

  // ---------------------------------------------------------------- what a batch touches

  /** However far a plan gets, and whether or not it is refused, a file it does not name is where it
      was, with its content. */
  lemma {:induction false} OtherFilesKept<C>(w: World<C>, plan: seq<Action>, batch: string, r: string)
    requires forall a | a in plan && a.Move? :: a.receipt != r
    ensures var v := Do(w, plan).0;
            && (r in v.disk.loose <==> r in w.disk.loose)
            && ((batch, r) in v.disk.boxed <==> (batch, r) in w.disk.boxed)
            && (r in w.disk.loose ==> v.disk.loose[r] == w.disk.loose[r])
            && ((batch, r) in w.disk.boxed ==> v.disk.boxed[(batch, r)] == w.disk.boxed[(batch, r)])
    decreases |plan|
  {
    if plan != [] {
      assert plan[0] in plan;
      OthersKept(w, plan[0], batch, r);
      hide Act;
      if Act(w, plan[0]).1.None? {
        OtherFilesKept(Act(w, plan[0]).0, plan[1..], batch, r);
      }
    }
  }

  /** Where a claimed file is, and what is in it. */
  function Content<C>(w: World<C>, batch: string, r: string): Option<C>
  {
    if r in w.disk.loose && (batch, r) in w.disk.boxed then None
    else if r in w.disk.loose then Some(w.disk.loose[r])
    else if (batch, r) in w.disk.boxed then Some(w.disk.boxed[(batch, r)])
    else None
  }

  ghost predicate InOnePlaceStill<C(!new)>(w: World<C>, v: World<C>, batch: string, rs: seq<string>)
  {
    forall r | r in rs ::
      && (r in v.disk.loose <==> (batch, r) !in v.disk.boxed)
      && Content(v, batch, r) == Content(w, batch, r) && Content(w, batch, r).Some?
  }

  ghost predicate OthersUntouched<C(!new)>(w: World<C>, v: World<C>, rs: seq<string>)
  {
    && (forall r | r !in rs && r in w.disk.loose + v.disk.loose ::
          r in w.disk.loose && r in v.disk.loose && v.disk.loose[r] == w.disk.loose[r])
    && (forall k | k in w.disk.boxed + v.disk.boxed && k.1 !in rs ::
          k in w.disk.boxed && k in v.disk.boxed && v.disk.boxed[k] == w.disk.boxed[k])
  }

  lemma PlanLeavesOthers<C(!new)>(w: World<C>, batch: string, rs: seq<string>, note: string, now: int, k: nat)
    requires k <= |rs| + 1
    ensures OthersUntouched(w, Do(w, BatchPlan(batch, rs, note, now)[..k]).0, rs)
  {
    var plan := BatchPlan(batch, rs, note, now)[..k];
    var v := Do(w, plan).0;
    forall a | a in plan && a.Move?
      ensures a.receipt in rs
    {
    }
    hide Do;
    forall r | r !in rs && r in w.disk.loose + v.disk.loose
      ensures r in w.disk.loose && r in v.disk.loose && v.disk.loose[r] == w.disk.loose[r]
    {
      OtherFilesKept(w, plan, batch, r);
    }
    forall k | k in w.disk.boxed + v.disk.boxed && k.1 !in rs
      ensures k in w.disk.boxed && k in v.disk.boxed && v.disk.boxed[k] == w.disk.boxed[k]
    {
      OtherFilesKept(w, plan, k.0, k.1);
    }
  }

  /** At every point of a claim, each of its files is in exactly one place with its content, and no
      file of another receipt has changed. */
  lemma ClaimStep<C(!new)>(w: World<C>, batch: string, rs: seq<string>, note: string, now: int, k: nat)
    requires Healthy(w) && rs != [] && Distinct(rs) && k <= |rs| + 1
    requires forall x :: x in rs <==> x in ClaimingIn(w.book, Some(batch))
    ensures var v := Do(w, BatchPlan(batch, rs, note, now)[..k]).0;
            InOnePlaceStill(w, v, batch, rs) && OthersUntouched(w, v, rs)
  {
    PlanLeavesOthers(w, batch, rs, note, now, k);
    BatchLegal(w, batch, rs, note, now);
    hide Do, LegalPlan, Healthy, SameEnd, OthersUntouched, Content, Distinct;
    var plan := BatchPlan(batch, rs, note, now);
    PlanKeeps(w, plan, k);
    var v := Do(w, plan[..k]).0;
    forall r | r in rs
      ensures r in v.disk.loose <==> (batch, r) !in v.disk.boxed
      ensures Content(v, batch, r) == Content(w, batch, r) && Content(w, batch, r).Some?
    {
      OneFile(w, v, batch, r);
    }
  }

  /** A receipt being claimed has one file, wherever a healthy world with the same end has it. */
  lemma OneFile<C(!new)>(w: World<C>, v: World<C>, batch: string, r: string)
    requires Healthy(w) && Healthy(v) && SameEnd(w, v)
    requires IsClaiming(w.book, r) && w.book.stock[r].batch == batch
    ensures r in v.disk.loose <==> (batch, r) !in v.disk.boxed
    ensures Content(v, batch, r) == Content(w, batch, r) && Content(w, batch, r).Some?
  {
    assert InOnePlace(w, r);
    assert FinalBoxed(w, batch, r) == FinalBoxed(v, batch, r);
    assert r !in FinalLoose(w);
    assert FinalRow(w.book.stock[r]) == FinalRow(v.book.stock[r]);
    if IsClaiming(v.book, r) {
      assert InOnePlace(v, r);
    } else {
      assert r in v.disk.loose ==> r in FinalLoose(v);
    }
  }

  /** Every receipt that could be claimed has a usable name and its file in the available directory. */
  ghost predicate Shelved<C>(w: World<C>)
  {
    forall r | r in Claimable(w.book) :: ValidName(r) && r in w.disk.loose
  }

  /** A claim for a batch name not used before leaves a world from which `CrashSafe` starts. */
  lemma ClaimIsReady<C(!new)>(w: World<C>, limit: int, batch: string)
    requires Healthy(w) && Shelved(w) && limit > 0 && batch != ""
    requires ClaimingIn(w.book, Some(batch)) == {} && forall r :: (batch, r) !in w.disk.boxed
    ensures var (book, r) := Claim(w.book, limit, batch);
            && r.Ok? && Healthy(w.(book := book)) && Distinct(r.value)
            && forall x :: x in r.value <==> x in ClaimingIn(book, Some(batch))
  {
    ClaimShape(w.book, limit, batch);
    var (book, r) := Claim(w.book, limit, batch);
    hide Claim;
    forall x
      ensures x in r.value <==> x in ClaimingIn(book, Some(batch))
    {
      assert x !in ClaimingIn(w.book, Some(batch));
    }
    forall x | IsClaiming(book, x)
      ensures InOnePlace(w.(book := book), x)
    {
      if x !in r.value {
        assert IsClaiming(w.book, x) && InOnePlace(w, x);
      }
    }
  }
}
