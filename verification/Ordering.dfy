/** Sorting a finite set under a strict total order, as `ORDER BY` does. */
module Ordering {

  ghost predicate StrictTotal<T(!new)>(s: set<T>, less: (T, T) -> bool)
  {
    && (forall x | x in s :: !less(x, x))
    && (forall x, y | x in s && y in s :: x == y || less(x, y) || less(y, x))
    && (forall x, y, z | x in s && y in s && z in s && less(x, y) && less(y, z) :: less(x, z))
  }

  predicate Increasing<T>(r: seq<T>, less: (T, T) -> bool)
  {
    forall i, j | 0 <= i < j < |r| :: less(r[i], r[j])
  }

  ghost predicate Leads<T(!new)>(x: T, s: set<T>, less: (T, T) -> bool)
  {
    x in s && forall y | y in s :: y == x || less(x, y)
  }

  lemma {:induction false} HasFirst<T(!new)>(s: set<T>, less: (T, T) -> bool)
    requires StrictTotal(s, less) && s != {}
    ensures exists x :: Leads(x, s, less)
    decreases |s|
  {
    var x :| x in s;
    var rest := s - {x};
    if rest == {} {
      assert s == {x};
      assert Leads(x, s, less);
    } else {
      HasFirst(rest, less);
      var y :| Leads(y, rest, less);
      assert Leads(if less(x, y) then x else y, s, less);
    }
  }

  function First<T(!new, ==)>(s: set<T>, less: (T, T) -> bool): (x: T)
    requires StrictTotal(s, less) && s != {}
    ensures Leads(x, s, less)
  {
    HasFirst(s, less);
    assert exists x :: Leads(x, s, less) && x in s;
    var x :| x in s && forall y | y in s :: y == x || less(x, y);
    x
  }

  function Sorted<T(!new, ==)>(s: set<T>, less: (T, T) -> bool): (r: seq<T>)
    requires StrictTotal(s, less)
    ensures |r| == |s|
    ensures forall x :: x in r <==> x in s
    ensures Increasing(r, less)
    decreases |s|
  {
    if s == {} then [] else
      var x := First(s, less);
      [x] + Sorted(s - {x}, less)
  }

  // ---------------------------------------------------------------- text

  /** The order of SQLite's default collation. */
  predicate Less(a: string, b: string)
    decreases |a|
  {
    if b == [] then false
    else if a == [] then true
    else a[0] < b[0] || (a[0] == b[0] && Less(a[1..], b[1..]))
  }

  /** The texts agree before `k`, and there `a` has ended or has the smaller character. */
  predicate DiffersAt(a: string, b: string, k: nat)
  {
    k <= |a| && k < |b| && a[..k] == b[..k] && (k == |a| || a[k] < b[k])
  }

  /** The order is decided at the first difference, where the end comes before every character. */
  lemma {:induction false} LessIff(a: string, b: string)
    ensures Less(a, b) <==> exists k :: DiffersAt(a, b, k)
    decreases |a|
  {
    if a == [] || b == [] || a[0] != b[0] {
      assert b != [] && (a == [] || a[0] < b[0]) ==> DiffersAt(a, b, 0);
    } else {
      LessIff(a[1..], b[1..]);
      if k: nat :| DiffersAt(a[1..], b[1..], k) {
        assert a[..k + 1] == [a[0]] + a[1..][..k] && b[..k + 1] == [b[0]] + b[1..][..k];
        assert DiffersAt(a, b, k + 1);
      }
      if k: nat :| DiffersAt(a, b, k) {
        assert a[1..][..k - 1] == a[..k][1..] && b[1..][..k - 1] == b[..k][1..];
        assert DiffersAt(a[1..], b[1..], k - 1);
      }
    }
  }

  lemma {:induction false} LessIrreflexive(a: string)
    ensures !Less(a, a)
    decreases |a|
  {
    if a != [] {
      LessIrreflexive(a[1..]);
    }
  }

  lemma {:induction false} LessTotal(a: string, b: string)
    ensures a == b || Less(a, b) || Less(b, a)
    decreases |a|
  {
    if a != [] && b != [] {
      LessTotal(a[1..], b[1..]);
      if a[1..] == b[1..] && a[0] == b[0] {
        assert a == [a[0]] + a[1..] && b == [b[0]] + b[1..];
      }
    }
  }

  lemma {:induction false} LessTransitive(a: string, b: string, c: string)
    requires Less(a, b) && Less(b, c)
    ensures Less(a, c)
    decreases |a|
  {
    if a != [] && a[0] == b[0] == c[0] {
      LessTransitive(a[1..], b[1..], c[1..]);
    }
  }
}
