/** Total orders, sorted sequences and the sorted enumeration of a finite set.
    Python's `sorted` is used throughout the tools on keys that are pairwise
    distinct, so its result is the one sequence described here. */
module Orders {

  ghost predicate TotalOrder<T(!new)>(le: (T, T) -> bool) {
    && (forall a, b {:trigger le(a, b), le(b, a)} :: le(a, b) || le(b, a))
    && (forall a, b {:trigger le(a, b), le(b, a)} :: le(a, b) && le(b, a) ==> a == b)
    && (forall a, b, c {:trigger le(a, b), le(b, c), le(a, c)} :: le(a, b) && le(b, c) ==> le(a, c))
  }

  ghost predicate SortedBy<T>(s: seq<T>, le: (T, T) -> bool) {
    forall i, j :: 0 <= i < j < |s| ==> le(s[i], s[j])
  }

  ghost predicate Distinct<T>(s: seq<T>) {
    forall i, j :: 0 <= i < j < |s| ==> s[i] != s[j]
  }

  function Elements<T>(s: seq<T>): set<T> {
    set x | x in s
  }

  ghost predicate IsLeast<T>(m: T, s: set<T>, le: (T, T) -> bool) {
    m in s && forall y :: y in s ==> le(m, y)
  }

  lemma {:induction false} FindLeast<T(!new)>(s: set<T>, le: (T, T) -> bool) returns (m: T)
    requires TotalOrder(le) && s != {}
    ensures IsLeast(m, s, le)
    decreases |s|
  {
    m :| m in s;
    var rest := s - {m};
    assert le(m, m);
    if rest != {} {
      var r := FindLeast(rest, le);
      assert le(m, r) || le(r, m);
      var x := m;
      m := if le(x, r) then x else r;
      forall y | y in s
        ensures le(m, y)
      {
        if y != x {
          assert y in rest;
          assert le(r, y);
        }
      }
    } else {
      assert s == {m};
    }
  }

  ghost predicate IsGreatest<T>(m: T, s: set<T>, le: (T, T) -> bool) {
    m in s && forall y :: y in s ==> le(y, m)
  }

  lemma {:induction false} FindGreatest<T(!new)>(s: set<T>, le: (T, T) -> bool) returns (m: T)
    requires TotalOrder(le) && s != {}
    ensures IsGreatest(m, s, le)
  {
    var ge := (a: T, b: T) => le(b, a);
    assert TotalOrder(ge) by {
      forall a, b, c | ge(a, b) && ge(b, c)
        ensures ge(a, c)
      {
        assert le(c, b) && le(b, a);
      }
      forall a, b
        ensures ge(a, b) || ge(b, a)
        ensures ge(a, b) && ge(b, a) ==> a == b
      {
        assert le(a, b) || le(b, a);
      }
    }
    m := FindLeast(s, ge);
    forall y | y in s
      ensures le(y, m)
    {
      assert ge(m, y);
    }
  }

  function Least<T(!new)>(s: set<T>, le: (T, T) -> bool): (x: T)
    requires TotalOrder(le) && s != {}
    ensures x in s && forall y :: y in s ==> le(x, y)
  {
    assert exists x :: x in s && forall y :: y in s ==> le(x, y) by {
      var m := FindLeast(s, le);
      assert IsLeast(m, s, le);
    }
    var x :| x in s && forall y :: y in s ==> le(x, y);
    x
  }

  /** `sorted(s)` for a set of keys. */
  function SortedSet<T(!new)>(s: set<T>, le: (T, T) -> bool): seq<T>
    requires TotalOrder(le)
    decreases |s|
  {
    if s == {} then []
    else
      var x := Least(s, le);
      [x] + SortedSet(s - {x}, le)
  }

  /** It lists every element once, in order. */
  lemma {:induction false} SortedSetLists<T(!new)>(s: set<T>, le: (T, T) -> bool)
    requires TotalOrder(le)
    ensures SortedBy(SortedSet(s, le), le) && Distinct(SortedSet(s, le))
    ensures forall x :: x in SortedSet(s, le) <==> x in s
    ensures |SortedSet(s, le)| == |s|
    decreases |s|
  {
    if s != {} {
      var x := Least(s, le);
      SortedSetLists(s - {x}, le);
      PrependLeast(x, SortedSet(s - {x}, le), s, le);
    }
  }

  lemma {:induction false} PrependLeast<T(!new)>(x: T, tail: seq<T>, s: set<T>, le: (T, T) -> bool)
    requires IsLeast(x, s, le)
    requires SortedBy(tail, le) && Distinct(tail) && forall y :: y in tail <==> y in s - {x}
    ensures SortedBy([x] + tail, le) && Distinct([x] + tail)
    ensures forall y :: y in [x] + tail <==> y in s
  {
    var r := [x] + tail;
    forall i, j | 0 <= i < j < |r|
      ensures le(r[i], r[j]) && r[i] != r[j]
    {
      assert r[j] == tail[j - 1] && tail[j - 1] in tail;
      if i > 0 { assert r[i] == tail[i - 1]; }
    }
  }

  /** A sorted enumeration without repetitions is determined by its elements. */
  lemma {:induction false} SortedUnique<T(!new)>(a: seq<T>, b: seq<T>, le: (T, T) -> bool)
    requires TotalOrder(le)
    requires SortedBy(a, le) && Distinct(a) && SortedBy(b, le) && Distinct(b)
    requires Elements(a) == Elements(b)
    ensures a == b
  {
    assert |a| == 0 <==> Elements(a) == {} by { NoElements(a); }
    assert |b| == 0 <==> Elements(b) == {} by { NoElements(b); }
    if a != [] {
      assert a[0] in Elements(b) && b[0] in Elements(a);
      var i :| 0 <= i < |b| && b[i] == a[0];
      var j :| 0 <= j < |a| && a[j] == b[0];
      assert a[0] == b[0];
      TailElements(a);
      TailElements(b);
      SortedUnique(a[1..], b[1..], le);
      assert a == [a[0]] + a[1..] && b == [b[0]] + b[1..];
    }
  }

  lemma {:induction false} NoElements<T>(s: seq<T>)
    ensures s == [] <==> Elements(s) == {}
  {
    if s != [] { assert s[0] in Elements(s); }
  }

  lemma {:induction false} TailElements<T>(s: seq<T>)
    requires s != [] && Distinct(s)
    ensures Elements(s[1..]) == Elements(s) - {s[0]}
  {
    forall x
      ensures x in Elements(s[1..]) <==> x in Elements(s) && x != s[0]
    {
      if x in s && x != s[0] {
        var i :| 0 <= i < |s| && s[i] == x;
        assert s[1..][i - 1] == x;
      }
    }
  }

  lemma {:induction false} DistinctCount<T>(s: seq<T>, x: T)
    requires Distinct(s)
    ensures multiset(s)[x] == if x in s then 1 else 0
  {
    if s != [] {
      DistinctCount(s[1..], x);
      assert s == [s[0]] + s[1..];
    }
  }

  /** Lists without repetitions and with the same elements are permutations of each other. */
  lemma {:induction false} DistinctSameElements<T>(a: seq<T>, b: seq<T>)
    requires Distinct(a) && Distinct(b)
    requires forall x :: x in a <==> x in b
    ensures multiset(a) == multiset(b)
  {
    forall x
      ensures multiset(a)[x] == multiset(b)[x]
    {
      DistinctCount(a, x);
      DistinctCount(b, x);
    }
  }

  lemma {:induction false} SubsetAtMost<T>(a: set<T>, b: set<T>)
    requires a <= b
    ensures |a| <= |b|
  {
    assert b == a + (b - a);
  }

  lemma {:induction false} DistinctSize<T>(s: seq<T>)
    requires Distinct(s)
    ensures |Elements(s)| == |s|
  {
    if s != [] {
      DistinctSize(s[1..]);
      TailElements(s);
      assert s[0] in Elements(s);
    } else {
      assert Elements(s) == {};
    }
  }
}
