/** The inventory refines two plain FIFO queues filtered by expiry
    (grok_register/core/inventory.py). */
module Fifo {
  import opened Prelude
  import opened Stock

  datatype Op = DoPutT(x: Item) | DoPutQ(x: Item) | DoClaim

  /** An operation and what the wall clock reads under the lock. */
  datatype Timed = Timed(op: Op, now: real)

  function Implemented(sh: Shelf, o: Timed): (r: (Shelf, Option<Pair>))
  {
    match o.op
    case DoPutT(x) => (PutT(sh, x, o.now), None)
    case DoPutQ(x) => (PutQ(sh, x, o.now), None)
    case DoClaim => TryPop(sh, o.now)
  }

  // ---------------------------------------------------------------- the reference

  /** Two queues that nobody ever cleans: a put appends, a claim takes the oldest unexpired T and
      the oldest unexpired Q if there are both, and leaves everything else alone. */
  function Reference(sh: Shelf, o: Timed): (r: (Shelf, Option<Pair>))
  {
    match o.op
    case DoPutT(x) => (sh.(t := sh.t + [x]), None)
    case DoPutQ(x) => (sh.(q := sh.q + [x]), None)
    case DoClaim =>
      var i, j := Oldest(sh.t, o.now), Oldest(sh.q, o.now);
      if i < |sh.t| && j < |sh.q| then
        (Shelf(sh.t[..i] + sh.t[i + 1..], sh.q[..j] + sh.q[j + 1..]), Some(Pair(sh.t[i], sh.q[j])))
      else (sh, None)
  }

  /** The index of the oldest unexpired item, or the length if there is none. */
  function Oldest(buf: seq<Item>, now: real): (i: nat)
    ensures i <= |buf|
    ensures i < |buf| ==> !Expired(buf[i], now)
    ensures forall k :: 0 <= k < i ==> Expired(buf[k], now)
  {
    if buf == [] then 0
    else if !Expired(buf[0], now) then 0
    else 1 + Oldest(buf[1..], now)
  }

  function Outputs(impl: bool, sh: Shelf, os: seq<Timed>): seq<Option<Pair>>
    decreases |os|
  {
    if os == [] then []
    else
      var (sh', out) := if impl then Implemented(sh, os[0]) else Reference(sh, os[0]);
      [out] + Outputs(impl, sh', os[1..])
  }

  /** From `now` on nobody can tell the two queues apart. */
  ghost predicate Alike(a: seq<Item>, b: seq<Item>, now: real)
  {
    forall late :: late >= now ==> Fresh(a, late) == Fresh(b, late)
  }

  lemma OneStep(buf: seq<Item>, now: real)
    requires buf != []
    ensures Expired(buf[0], now) ==> Fresh(buf, now) == Fresh(buf[1..], now)
    ensures Expired(buf[0], now) ==> Oldest(buf, now) == Oldest(buf[1..], now) + 1
    ensures !Expired(buf[0], now) ==> Fresh(buf, now) == [buf[0]] + Fresh(buf[1..], now) && Oldest(buf, now) == 0
  {
  }

  lemma {:induction false} FreshFromOldest(buf: seq<Item>, now: real)
    ensures var i := Oldest(buf, now);
            Fresh(buf, now) == if i == |buf| then [] else [buf[i]] + Fresh(buf[i + 1..], now)
  {
    if buf == [] {
    } else {
      hide Fresh, Oldest;
      OneStep(buf, now);
      if Expired(buf[0], now) {
        FreshFromOldest(buf[1..], now);
        var i := Oldest(buf[1..], now);
        if i < |buf[1..]| {
          assert buf[1..][i + 1..] == buf[i + 2..];
        }
      }
    }
  }

  lemma {:induction false} AllStale(buf: seq<Item>, now: real)
    requires forall k :: 0 <= k < |buf| ==> Expired(buf[k], now)
    ensures Fresh(buf, now) == []
  {
    if buf != [] {
      AllStale(buf[1..], now);
    }
  }

  lemma DropOldest(buf: seq<Item>, now: real, late: real)
    requires Oldest(buf, now) < |buf| && now <= late
    ensures var i := Oldest(buf, now);
            Fresh(buf[..i] + buf[i + 1..], late) == Fresh(Fresh(buf[i + 1..], now), late)
  {
    var i := Oldest(buf, now);
    FreshTwice(buf[i + 1..], now, late);
    FreshAppend(buf[..i], buf[i + 1..], late);
    AllStale(buf[..i], late);
    assert [] + Fresh(buf[i + 1..], late) == Fresh(buf[i + 1..], late);
  }

  lemma AlikeNow(a: seq<Item>, b: seq<Item>, now: real)
    requires Alike(a, b, now)
    ensures Fresh(a, now) == Fresh(b, now)
  {
  }

  lemma LeftAlike(buf: seq<Item>, now: real)
    requires Oldest(buf, now) < |buf|
    ensures var i := Oldest(buf, now); Alike(Fresh(buf[i + 1..], now), buf[..i] + buf[i + 1..], now)
  {
    hide Fresh, Oldest;
    var i := Oldest(buf, now);
    var rest, left := Fresh(buf[i + 1..], now), buf[..i] + buf[i + 1..];
    forall late | late >= now
      ensures Fresh(rest, late) == Fresh(left, late)
    {
      DropOldest(buf, now, late);
    }
  }

  /** Taking the oldest unexpired item out leaves, for the future, the rest of the clean queue. */
  lemma TakeAlike(clean: seq<Item>, buf: seq<Item>, now: real)
    requires Alike(clean, buf, now)
    ensures var c, i := Fresh(clean, now), Oldest(buf, now);
            && (c == [] <==> i == |buf|)
            && (c != [] ==> c[0] == buf[i] && Alike(c[1..], buf[..i] + buf[i + 1..], now))
  {
    hide Fresh, Oldest, Alike;
    AlikeNow(clean, buf, now);
    FreshFromOldest(buf, now);
    var i := Oldest(buf, now);
    if i < |buf| {
      LeftAlike(buf, now);
      assert Fresh(clean, now)[1..] == Fresh(buf[i + 1..], now);
    }
  }

  lemma CleanAlike(a: seq<Item>, b: seq<Item>, now: real)
    requires Alike(a, b, now)
    ensures Alike(Fresh(a, now), b, now)
  {
    forall late | late >= now
      ensures Fresh(Fresh(a, now), late) == Fresh(b, late)
    {
      FreshTwice(a, now, late);
    }
  }

  lemma PutAlike(a: seq<Item>, b: seq<Item>, x: Item, now: real)
    requires Alike(a, b, now)
    ensures Alike(if Expired(x, now) then a else Fresh(a, now) + [x], b + [x], now)
  {
    forall late | late >= now
      ensures Fresh(if Expired(x, now) then a else Fresh(a, now) + [x], late)
           == Fresh(b + [x], late)
    {
      FreshAppend(b, [x], late);
      FreshAppend(Fresh(a, now), [x], late);
      FreshTwice(a, now, late);
      if Expired(x, now) {
        assert Fresh([x], late) == [];
        assert Fresh(b, late) + [] == Fresh(b, late);
      }
    }
  }

  ghost predicate Shelves(a: Shelf, b: Shelf, now: real)
  {
    Alike(a.t, b.t, now) && Alike(a.q, b.q, now)
  }

  lemma StepAlike(a: Shelf, b: Shelf, o: Timed)
    requires Shelves(a, b, o.now)
    ensures Implemented(a, o).1 == Reference(b, o).1
    ensures Shelves(Implemented(a, o).0, Reference(b, o).0, o.now)
  {
    CleanAlike(a.t, b.t, o.now);
    CleanAlike(a.q, b.q, o.now);
    match o.op {
      case DoPutT(x) => PutAlike(a.t, b.t, x, o.now);
      case DoPutQ(x) => PutAlike(a.q, b.q, x, o.now);
      case DoClaim =>
        TakeAlike(a.t, b.t, o.now);
        TakeAlike(a.q, b.q, o.now);
    }
  }

  ghost predicate Ordered(os: seq<Timed>)
  {
    forall i, j :: 0 <= i < j < |os| ==> os[i].now <= os[j].now
  }

  lemma {:induction false} Refines(a: Shelf, b: Shelf, os: seq<Timed>, start: real)
    requires Ordered(os) && Shelves(a, b, start)
    requires forall k :: 0 <= k < |os| ==> start <= os[k].now
    ensures Outputs(true, a, os) == Outputs(false, b, os)
    decreases |os|
  {
    if os != [] {
      assert Shelves(a, b, os[0].now);
      StepAlike(a, b, os[0]);
      Refines(Implemented(a, os[0]).0, Reference(b, os[0]).0, os[1..], os[0].now);
    }
  }

  /** On a wall clock that never goes back, every sequence of puts and claims is answered exactly as
      by the reference queues. */
  lemma InventoryIsFifo(os: seq<Timed>)
    requires Ordered(os)
    ensures Outputs(true, Shelf([], []), os) == Outputs(false, Shelf([], []), os)
  {
    var start := if os == [] then 0.0 else os[0].now;
    Refines(Shelf([], []), Shelf([], []), os, start);
  }

  /** The wall clock must not go back: for every put, every later cleaning and every claim before that cleaning
      there is a T that the cleaning takes away although it is valid when the claim is made. */
  lemma ClockMatters(put: real, clean: real, claim: real)
    requires put < clean && claim < clean
    ensures var x, y, z := Item(0, Some(MaxR(put, claim))), Item(1, None), Item(2, None);
            var os := [Timed(DoPutT(x), put), Timed(DoPutQ(y), put), Timed(DoPutQ(z), clean), Timed(DoClaim, claim)];
            && !Expired(x, put) && !Expired(x, claim)
            && Outputs(true, Shelf([], []), os) == [None, None, None, None]
            && Outputs(false, Shelf([], []), os) == [None, None, None, Some(Pair(x, y))]
  {
    var x, y, z := Item(0, Some(MaxR(put, claim))), Item(1, None), Item(2, None);
    hide Outputs;
    TakenAway(x, y, z, put, clean, claim);
    StillThere(x, y, z, put, clean, claim);
  }

  lemma TakenAway(x: Item, y: Item, z: Item, put: real, clean: real, claim: real)
    requires !Expired(x, put) && Expired(x, clean) && y.expires.None? && z.expires.None?
    ensures Outputs(true, Shelf([], []),
                    [Timed(DoPutT(x), put), Timed(DoPutQ(y), put), Timed(DoPutQ(z), clean), Timed(DoClaim, claim)])
            == [None, None, None, None]
  {
    var none, a, b, c, d := Shelf([], []), Timed(DoPutT(x), put), Timed(DoPutQ(y), put), Timed(DoPutQ(z), clean),
                            Timed(DoClaim, claim);
    FourOutputs(true, none, a, b, c, d);
    hide Outputs, Reference;
    assert Fresh([x], put) == [x] && Fresh([x], clean) == [];
    assert forall now: real :: Fresh([y], now) == [y];
    assert Implemented(none, a).0 == Shelf([x], []);
    assert Implemented(Shelf([x], []), b).0 == Shelf([x], [y]);
    assert Implemented(Shelf([x], [y]), c).0 == Shelf([], [y, z]);
    assert Implemented(Shelf([], [y, z]), d).1 == None;
  }

  lemma StillThere(x: Item, y: Item, z: Item, put: real, clean: real, claim: real)
    requires !Expired(x, claim) && y.expires.None?
    ensures Outputs(false, Shelf([], []),
                    [Timed(DoPutT(x), put), Timed(DoPutQ(y), put), Timed(DoPutQ(z), clean), Timed(DoClaim, claim)])
            == [None, None, None, Some(Pair(x, y))]
  {
    var none, a, b, c, d := Shelf([], []), Timed(DoPutT(x), put), Timed(DoPutQ(y), put), Timed(DoPutQ(z), clean),
                            Timed(DoClaim, claim);
    FourOutputs(false, none, a, b, c, d);
    hide Outputs, Implemented;
    assert Reference(none, a).0 == Shelf([x], []);
    assert Reference(Shelf([x], []), b).0 == Shelf([x], [y]);
    assert Reference(Shelf([x], [y]), c).0 == Shelf([x], [y, z]);
    assert Reference(Shelf([x], [y, z]), d).1 == Some(Pair(x, y));
  }

  lemma FourOutputs(impl: bool, sh: Shelf, a: Timed, b: Timed, c: Timed, d: Timed)
    ensures var (s1, o1) := if impl then Implemented(sh, a) else Reference(sh, a);
            var (s2, o2) := if impl then Implemented(s1, b) else Reference(s1, b);
            var (s3, o3) := if impl then Implemented(s2, c) else Reference(s2, c);
            var (s4, o4) := if impl then Implemented(s3, d) else Reference(s3, d);
            Outputs(impl, sh, [a, b, c, d]) == [o1, o2, o3, o4]
  {
    hide Implemented, Reference;
    var (s1, o1) := if impl then Implemented(sh, a) else Reference(sh, a);
    var (s2, o2) := if impl then Implemented(s1, b) else Reference(s1, b);
    var (s3, o3) := if impl then Implemented(s2, c) else Reference(s2, c);
    var (s4, o4) := if impl then Implemented(s3, d) else Reference(s3, d);
    assert [a, b, c, d][1..] == [b, c, d] && [b, c, d][1..] == [c, d] && [c, d][1..] == [d] && [d][1..] == [];
    assert Outputs(impl, s4, []) == [] && Outputs(impl, s3, [d]) == [o4];
    assert Outputs(impl, s2, [c, d]) == [o3] + [o4] && Outputs(impl, s1, [b, c, d]) == [o2] + ([o3] + [o4]);
  }

  // ---------------------------------------------------------------- order and accounting

  /** `a` can be got from `b` by leaving items out. */
  ghost predicate Subsequence(a: seq<Item>, b: seq<Item>)
  {
    a == []
    || (b != [] && ((a[0] == b[0] && Subsequence(a[1..], b[1..])) || Subsequence(a, b[1..])))
  }

  lemma {:induction false} SubsequenceSelf(a: seq<Item>)
    ensures Subsequence(a, a)
  {
    if a != [] {
      SubsequenceSelf(a[1..]);
    }
  }

  lemma {:induction false} SubsequenceJoin(
    a: seq<Item>, b: seq<Item>, x: seq<Item>, y: seq<Item>)
    requires Subsequence(a, b) && Subsequence(x, y)
    ensures Subsequence(a + x, b + y)
    decreases |b|
  {
    if b == [] {
      assert a + x == x && b + y == y;
    } else {
      assert (b + y)[1..] == b[1..] + y;
      if a != [] && a[0] == b[0] && Subsequence(a[1..], b[1..]) {
        assert (a + x)[1..] == a[1..] + x;
        SubsequenceJoin(a[1..], b[1..], x, y);
      } else {
        SubsequenceJoin(a, b[1..], x, y);
      }
    }
  }

  lemma {:induction false} SubsequenceTrans(a: seq<Item>, b: seq<Item>, d: seq<Item>)
    requires Subsequence(a, b) && Subsequence(b, d)
    ensures Subsequence(a, d)
    decreases |d|
  {
    if a != [] {
      if b[0] == d[0] && Subsequence(b[1..], d[1..]) {
        if a[0] == b[0] && Subsequence(a[1..], b[1..]) {
          SubsequenceTrans(a[1..], b[1..], d[1..]);
        } else {
          SubsequenceTrans(a, b[1..], d[1..]);
        }
      } else {
        SubsequenceTrans(a, b, d[1..]);
      }
    }
  }

  lemma {:induction false} FreshIsSubsequence(buf: seq<Item>, now: real)
    ensures Subsequence(Fresh(buf, now), buf)
  {
    if buf != [] {
      FreshIsSubsequence(buf[1..], now);
      if Expired(buf[0], now) {
        assert Fresh(buf, now) == Fresh(buf[1..], now);
      } else {
        assert Fresh(buf, now)[1..] == Fresh(buf[1..], now);
      }
    }
  }

  /** One side of a history: what was put, what claims took, and how many expired. */
  datatype Side = Side(puts: seq<Item>, taken: seq<Item>, expired: nat)

  /** `puts == depth + claimed + expired`, and what was taken followed by what is in stock is in the
      order of the puts. */
  ghost predicate Accounts(side: Side, buf: seq<Item>)
  {
    && |side.puts| == |buf| + |side.taken| + side.expired
    && Subsequence(side.taken + buf, side.puts)
  }

  lemma CleanAccounts(side: Side, buf: seq<Item>, now: real)
    requires Accounts(side, buf)
    ensures Accounts(side.(expired := side.expired + |Stale(buf, now)|), Fresh(buf, now))
  {
    Split(buf, now);
    SubsequenceSelf(side.taken);
    FreshIsSubsequence(buf, now);
    SubsequenceJoin(side.taken, side.taken, Fresh(buf, now), buf);
    SubsequenceTrans(side.taken + Fresh(buf, now), side.taken + buf, side.puts);
  }

  lemma PutAccounts(side: Side, buf: seq<Item>, x: Item)
    requires Accounts(side, buf)
    ensures Accounts(side.(puts := side.puts + [x]), buf + [x])
    ensures Accounts(side.(puts := side.puts + [x], expired := side.expired + 1), buf)
  {
    SubsequenceSelf([x]);
    SubsequenceJoin(side.taken + buf, side.puts, [x], [x]);
    assert (side.taken + buf) + [x] == side.taken + (buf + [x]);
    SubsequenceJoin(side.taken + buf, side.puts, [], [x]);
    assert (side.taken + buf) + [] == side.taken + buf;
  }

  lemma TakeAccounts(side: Side, buf: seq<Item>)
    requires Accounts(side, buf) && buf != []
    ensures Accounts(side.(taken := side.taken + [buf[0]]), buf[1..])
  {
    assert side.taken + buf == side.taken + [buf[0]] + buf[1..];
  }

  /** A history of both sides, as the metrics count it. */
  datatype History = History(sh: Shelf, t: Side, q: Side)

  function Cleaned(h: History, now: real): History
  {
    History(Clean(h.sh, now),
            h.t.(expired := h.t.expired + |Stale(h.sh.t, now)|),
            h.q.(expired := h.q.expired + |Stale(h.sh.q, now)|))
  }

  function Record(h: History, o: Timed): History
  {
    var (sh', got) := Implemented(h.sh, o);
    match o.op
    case DoPutT(x) =>
      if Expired(x, o.now) then
        h.(t := h.t.(puts := h.t.puts + [x], expired := h.t.expired + 1))
      else var c := Cleaned(h, o.now); c.(sh := sh', t := c.t.(puts := c.t.puts + [x]))
    case DoPutQ(x) =>
      if Expired(x, o.now) then
        h.(q := h.q.(puts := h.q.puts + [x], expired := h.q.expired + 1))
      else var c := Cleaned(h, o.now); c.(sh := sh', q := c.q.(puts := c.q.puts + [x]))
    case DoClaim =>
      var c := Cleaned(h, o.now).(sh := sh');
      if got.None? then c
      else c.(t := c.t.(taken := c.t.taken + [got.value.t]),
              q := c.q.(taken := c.q.taken + [got.value.q]))
  }

  function Recorded(h: History, os: seq<Timed>): History
    decreases |os|
  {
    if os == [] then h else Recorded(Record(h, os[0]), os[1..])
  }

  lemma RecordAccounts(h: History, o: Timed)
    requires Accounts(h.t, h.sh.t) && Accounts(h.q, h.sh.q) && |h.t.taken| == |h.q.taken|
    ensures var h' := Record(h, o);
            Accounts(h'.t, h'.sh.t) && Accounts(h'.q, h'.sh.q) && |h'.t.taken| == |h'.q.taken|
  {
    hide Accounts;
    CleanAccounts(h.t, h.sh.t, o.now);
    CleanAccounts(h.q, h.sh.q, o.now);
    var c := Cleaned(h, o.now);
    match o.op {
      case DoPutT(x) =>
        PutAccounts(h.t, h.sh.t, x);
        PutAccounts(c.t, c.sh.t, x);
      case DoPutQ(x) =>
        PutAccounts(h.q, h.sh.q, x);
        PutAccounts(c.q, c.sh.q, x);
      case DoClaim =>
        if c.sh.t != [] && c.sh.q != [] {
          TakeAccounts(c.t, c.sh.t);
          TakeAccounts(c.q, c.sh.q);
        }
    }
  }

  /** Whatever happens: on each side puts = depth + pairs claimed + expired, and claims take items
      in the order of the puts, each put at most once, as many T as Q. */
  lemma {:induction false} HistoryAccounts(h: History, os: seq<Timed>)
    requires Accounts(h.t, h.sh.t) && Accounts(h.q, h.sh.q) && |h.t.taken| == |h.q.taken|
    ensures var h' := Recorded(h, os);
            Accounts(h'.t, h'.sh.t) && Accounts(h'.q, h'.sh.q) && |h'.t.taken| == |h'.q.taken|
    decreases |os|
  {
    if os != [] {
      RecordAccounts(h, os[0]);
      HistoryAccounts(Record(h, os[0]), os[1..]);
    }
  }
}
