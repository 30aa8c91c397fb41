/** The two-queue inventory of T and Q resources (grok_register/core/inventory.py). */
module Stock {
  import opened Prelude
  import opened Slots

  /** What the inventory reads of an envelope: its identity and its expiry, if it has one. */
  datatype Item = Item(id: nat, expires: Option<real>)

  datatype Pair = Pair(t: Item, q: Item)

  predicate Expired(x: Item, now: real) { x.expires.Some? && now > x.expires.value }

  /** The unexpired items of `buf`, in their original order. */
  function Fresh(buf: seq<Item>, now: real): seq<Item>
  {
    if buf == [] then []
    else (if Expired(buf[0], now) then [] else [buf[0]]) + Fresh(buf[1..], now)
  }

  function Stale(buf: seq<Item>, now: real): seq<Item>
  {
    if buf == [] then []
    else (if Expired(buf[0], now) then [buf[0]] else []) + Stale(buf[1..], now)
  }

  function Ids(buf: seq<Item>): set<nat> { set i | 0 <= i < |buf| :: buf[i].id }

  ghost predicate Distinct(buf: seq<Item>)
  {
    forall i, j :: 0 <= i < j < |buf| ==> buf[i].id != buf[j].id
  }

  /** `t` and `q` are the two deques, oldest item first. */
  datatype Shelf = Shelf(t: seq<Item>, q: seq<Item>)

  function Clean(sh: Shelf, now: real): Shelf { Shelf(Fresh(sh.t, now), Fresh(sh.q, now)) }

  function PutT(sh: Shelf, x: Item, now: real): Shelf
  {
    if Expired(x, now) then sh else var c := Clean(sh, now); c.(t := c.t + [x])
  }

  function PutQ(sh: Shelf, x: Item, now: real): Shelf
  {
    if Expired(x, now) then sh else var c := Clean(sh, now); c.(q := c.q + [x])
  }

  /** One look by a waiting claim: clean both queues, then take both heads or neither. */
  function TryPop(sh: Shelf, now: real): (r: (Shelf, Option<Pair>))
  {
    var c := Clean(sh, now);
    if c.t != [] && c.q != [] then (Shelf(c.t[1..], c.q[1..]), Some(Pair(c.t[0], c.q[0])))
    else (c, None)
  }

  // ---------------------------------------------------------------- facts about filtering

  lemma {:induction false} FreshAppend(a: seq<Item>, b: seq<Item>, now: real)
    ensures Fresh(a + b, now) == Fresh(a, now) + Fresh(b, now)
  {
    if a == [] {
      assert a + b == b;
    } else {
      assert (a + b)[1..] == a[1..] + b;
      FreshAppend(a[1..], b, now);
      var head := if Expired(a[0], now) then [] else [a[0]];
      assert Fresh(a, now) == head + Fresh(a[1..], now);
      assert head + (Fresh(a[1..], now) + Fresh(b, now)) == Fresh(a, now) + Fresh(b, now);
    }
  }

  lemma {:induction false} StaleAppend(a: seq<Item>, b: seq<Item>, now: real)
    ensures Stale(a + b, now) == Stale(a, now) + Stale(b, now)
  {
    if a == [] {
      assert a + b == b;
    } else {
      assert (a + b)[1..] == a[1..] + b;
      StaleAppend(a[1..], b, now);
      var head := if Expired(a[0], now) then [a[0]] else [];
      assert Stale(a, now) == head + Stale(a[1..], now);
      assert head + (Stale(a[1..], now) + Stale(b, now)) == Stale(a, now) + Stale(b, now);
    }
  }

  /** Cleaning keeps an item up to its expiry, that instant included, and one without an expiry for ever. */
  lemma {:induction false} FreshIs(buf: seq<Item>, now: real, x: Item)
    ensures x in Fresh(buf, now) <==> x in buf && (x.expires.None? || now <= x.expires.value)
    ensures x in Stale(buf, now) <==> x in buf && x.expires.Some? && now > x.expires.value
  {
    if buf != [] {
      FreshIs(buf[1..], now, x);
      assert buf == [buf[0]] + buf[1..];
    }
  }

  /** With a clock that does not go back, cleaning early never hides an item from later. */
  lemma {:induction false} FreshTwice(buf: seq<Item>, early: real, late: real)
    requires early <= late
    ensures Fresh(Fresh(buf, early), late) == Fresh(buf, late)
  {
    if buf != [] {
      FreshTwice(buf[1..], early, late);
      var head := if Expired(buf[0], early) then [] else [buf[0]];
      FreshAppend(head, Fresh(buf[1..], early), late);
    }
  }

  /** Fresh and stale items split the buffer, without inventing or losing any. */
  lemma {:induction false} Split(buf: seq<Item>, now: real)
    ensures |Fresh(buf, now)| + |Stale(buf, now)| == |buf|
    ensures Ids(Fresh(buf, now)) + Ids(Stale(buf, now)) == Ids(buf)
    ensures Distinct(buf) ==> Distinct(Fresh(buf, now)) && Distinct(Stale(buf, now))
    ensures Distinct(buf) ==> Ids(Fresh(buf, now)) !! Ids(Stale(buf, now))
  {
    if buf != [] {
      Split(buf[1..], now);
      IdsCons(buf[0], buf[1..]);
      IdsCons(buf[0], Fresh(buf[1..], now));
      IdsCons(buf[0], Stale(buf[1..], now));
      assert [buf[0]] + buf[1..] == buf;
      assert [] + Fresh(buf[1..], now) == Fresh(buf[1..], now);
      assert [] + Stale(buf[1..], now) == Stale(buf[1..], now);
      if Distinct(buf) {
        assert Distinct(buf[1..]);
        assert buf[0].id !in Ids(buf[1..]);
        if Expired(buf[0], now) {
          DistinctCons(buf[0], Stale(buf[1..], now));
        } else {
          DistinctCons(buf[0], Fresh(buf[1..], now));
        }
      }
    }
  }

  lemma IdsCons(x: Item, rest: seq<Item>)
    ensures Ids([x] + rest) == {x.id} + Ids(rest)
  {
    var all := [x] + rest;
    forall k | k in {x.id} + Ids(rest)
      ensures k in Ids(all)
    {
      if k == x.id {
        assert all[0].id == k;
      } else {
        var j :| 0 <= j < |rest| && rest[j].id == k;
        assert all[j + 1].id == k;
      }
    }
    forall k | k in Ids(all)
      ensures k in {x.id} + Ids(rest)
    {
      var j :| 0 <= j < |all| && all[j].id == k;
      if j > 0 {
        assert rest[j - 1].id == k;
      }
    }
  }

  lemma IdsSnoc(buf: seq<Item>, x: Item)
    ensures Ids(buf + [x]) == Ids(buf) + {x.id}
    ensures Distinct(buf) && x.id !in Ids(buf) ==> Distinct(buf + [x])
  {
    var all := buf + [x];
    forall id | id in Ids(buf) + {x.id}
      ensures id in Ids(all)
    {
      if id == x.id {
        assert all[|buf|].id == id;
      } else {
        var j :| 0 <= j < |buf| && buf[j].id == id;
        assert all[j].id == id;
      }
    }
    forall id | id in Ids(all)
      ensures id in Ids(buf) + {x.id}
    {
      var j :| 0 <= j < |all| && all[j].id == id;
      if j < |buf| {
        assert buf[j].id == id;
      }
    }
    if Distinct(buf) && x.id !in Ids(buf) {
      forall i, j | 0 <= i < j < |all|
        ensures all[i].id != all[j].id
      {
        assert buf[i].id in Ids(buf);
      }
    }
  }

  lemma DistinctCons(x: Item, rest: seq<Item>)
    requires Distinct(rest) && x.id !in Ids(rest)
    ensures Distinct([x] + rest)
  {
    var all := [x] + rest;
    forall i, j | 0 <= i < j < |all|
      ensures all[i].id != all[j].id
    {
      assert all[j] == rest[j - 1];
      assert rest[j - 1].id in Ids(rest);
    }
  }

  lemma {:induction false} DistinctCount(buf: seq<Item>)
    requires Distinct(buf)
    ensures |Ids(buf)| == |buf|
  {
    if buf == [] {
      assert Ids(buf) == {};
    } else {
      DistinctCount(buf[1..]);
      IdsCons(buf[0], buf[1..]);
      assert [buf[0]] + buf[1..] == buf;
      assert buf[0].id !in Ids(buf[1..]);
    }
  }
}
