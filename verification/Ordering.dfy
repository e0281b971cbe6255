/** Byte-wise string order, and sorted sequences as the unique enumeration of a finite set. */
module Ordering {

  predicate Less(a: string, b: string) {
    b != [] && (a == [] || a[0] < b[0] || (a[0] == b[0] && Less(a[1..], b[1..])))
  }

  lemma {:induction false} LessIrreflexive(a: string)
    ensures !Less(a, a)
  {
    if a != [] {
      LessIrreflexive(a[1..]);
    }
  }

  lemma {:induction false} LessTransitive(a: string, b: string, c: string)
    requires Less(a, b) && Less(b, c)
    ensures Less(a, c)
  {
    if a != [] && a[0] == b[0] && b[0] == c[0] {
      LessTransitive(a[1..], b[1..], c[1..]);
    }
  }

  lemma {:induction false} LessTotal(a: string, b: string)
    ensures a == b || Less(a, b) || Less(b, a)
  {
    if a != [] && b != [] && a[0] == b[0] {
      LessTotal(a[1..], b[1..]);
      assert a == [a[0]] + a[1..] && b == [b[0]] + b[1..];
    }
  }

  lemma LessAsymmetric(a: string, b: string)
    requires Less(a, b)
    ensures a != b && !Less(b, a)
  {
    LessIrreflexive(a);
    if Less(b, a) {
      LessTransitive(a, b, a);
    }
  }

  // ----- sorted sequences

  predicate Ascending(q: seq<string>) {
    forall i, j :: 0 <= i < j < |q| ==> Less(q[i], q[j])
  }

  function Elems<T>(q: seq<T>): set<T> {
    set x | x in q
  }

  ghost function AnyOf<T>(s: set<T>): (x: T)
    requires s != {}
    ensures x in s
  {
    var x :| x in s;
    x
  }

  lemma NoMembers<T(!new)>(s: set<T>)
    requires forall x :: x !in s
    ensures s == {}
  {
  }

  /** An arbitrary element, as the next one of a map iteration. */
  method Take<T(==)>(s: set<T>) returns (x: T)
    requires s != {}
    ensures x in s
  {
    x :| x in s;
  }

  predicate IsLeast(m: string, s: set<string>) {
    m in s && forall x :: x in s && x != m ==> Less(m, x)
  }

  lemma {:induction false} LeastExists(s: set<string>)
    requires s != {}
    ensures exists m :: IsLeast(m, s)
  {
    var x := AnyOf(s);
    if s == {x} {
      assert IsLeast(x, s);
    } else {
      LeastExists(s - {x});
      var y :| IsLeast(y, s - {x});
      LessTotal(x, y);
      if Less(x, y) {
        forall z | z in s && z != x ensures Less(x, z) {
          if z != y {
            LessTransitive(x, y, z);
          }
        }
        assert IsLeast(x, s);
      } else {
        assert IsLeast(y, s);
      }
    }
  }

  ghost function Least(s: set<string>): (m: string)
    requires s != {}
    ensures IsLeast(m, s)
  {
    LeastExists(s);
    var m :| IsLeast(m, s);
    m
  }

  /** What sort.Slice leaves for pairwise distinct identifiers. */
  ghost function Sorted(s: set<string>): (q: seq<string>)
    ensures Elems(q) == s && |q| == |s| && Ascending(q)
  {
    if s == {} then []
    else
      var m := Least(s);
      Smaller(m, s, Sorted(s - {m}));
      [m] + Sorted(s - {m})
  }

  lemma Smaller(m: string, s: set<string>, rest: seq<string>)
    requires IsLeast(m, s) && Elems(rest) == s - {m} && Ascending(rest) && |rest| == |s - {m}|
    ensures Elems([m] + rest) == s && |[m] + rest| == |s| && Ascending([m] + rest)
  {
    assert forall x :: x in rest <==> x in Elems(rest);
  }

  lemma {:induction false} SortedUnique(q: seq<string>, r: seq<string>)
    requires Ascending(q) && Ascending(r) && Elems(q) == Elems(r)
    ensures q == r
  {
    assert forall x :: x in q <==> x in Elems(q);
    assert forall x :: x in r <==> x in Elems(r);
    assert r != [] ==> r[0] in Elems(r);
    assert q != [] ==> q[0] in Elems(q);
    if q != [] {
      if q[0] != r[0] {
        LessAsymmetric(q[0], r[0]);
        assert false;
      }
      TailElems(q);
      TailElems(r);
      SortedUnique(q[1..], r[1..]);
    }
  }

  lemma TailElems(q: seq<string>)
    requires Ascending(q) && q != []
    ensures Ascending(q[1..]) && Elems(q[1..]) == Elems(q) - {q[0]}
  {
    LessIrreflexive(q[0]);
    assert q == [q[0]] + q[1..];
  }

  /** One insertion step of a sort. */
  method Insert(q: seq<string>, x: string) returns (r: seq<string>)
    requires Ascending(q) && x !in q
    ensures Ascending(r) && Elems(r) == Elems(q) + {x} && |r| == |q| + 1
  {
    var i := 0;
    while i < |q| && Less(q[i], x)
      invariant 0 <= i <= |q|
      invariant forall k :: 0 <= k < i ==> Less(q[k], x)
    {
      i := i + 1;
    }
    forall k | i <= k < |q| ensures Less(x, q[k]) {
      LessTotal(x, q[i]);
      if k > i { LessTransitive(x, q[i], q[k]); }
    }
    r := q[..i] + [x] + q[i..];
    assert q == q[..i] + q[i..];
  }

  // ----- extremes of sets of integers

  predicate IsGreatest(m: int, s: set<int>) {
    m in s && forall x :: x in s ==> x <= m
  }

  predicate IsSmallest(m: int, s: set<int>) {
    m in s && forall x :: x in s ==> m <= x
  }

  lemma {:induction false} ExtremesExist(s: set<int>)
    requires s != {}
    ensures (exists m :: IsGreatest(m, s)) && (exists m :: IsSmallest(m, s))
  {
    var x := AnyOf(s);
    if s == {x} {
      assert IsGreatest(x, s) && IsSmallest(x, s);
    } else {
      ExtremesExist(s - {x});
      var g :| IsGreatest(g, s - {x});
      var l :| IsSmallest(l, s - {x});
      assert forall y :: y in s ==> y == x || y in s - {x};
      assert IsGreatest(if x > g then x else g, s);
      assert IsSmallest(if x < l then x else l, s);
    }
  }

  ghost function Greatest(s: set<int>): (m: int)
    requires s != {}
    ensures IsGreatest(m, s)
  {
    ExtremesExist(s);
    var m :| IsGreatest(m, s);
    m
  }

  ghost function Smallest(s: set<int>): (m: int)
    requires s != {}
    ensures IsSmallest(m, s)
  {
    ExtremesExist(s);
    var m :| IsSmallest(m, s);
    m
  }
}
