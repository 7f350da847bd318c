/** Comprehensions over lists: what they keep under concatenation and reordering. */
module Seqs {
  import opened Orders

  datatype Option<+T> = None | Some(value: T)

  datatype Result<+T> = Ok(value: T) | Err(error: string)

  /** `[y for x in s for y in f(x)]`. */
  function FlatMap<T, U>(s: seq<T>, f: T -> seq<U>): seq<U> {
    if s == [] then [] else f(s[0]) + FlatMap(s[1..], f)
  }

  lemma {:induction false} FlatMapAppend<T, U>(a: seq<T>, b: seq<T>, f: T -> seq<U>)
    ensures FlatMap(a + b, f) == FlatMap(a, f) + FlatMap(b, f)
  {
    if a == [] {
      assert a + b == b;
    } else {
      FlatMapAppend(a[1..], b, f);
      assert (a + b)[0] == a[0] && (a + b)[1..] == a[1..] + b;
      AppendAssociates(f(a[0]), FlatMap(a[1..], f), FlatMap(b, f));
    }
  }

  lemma {:induction false} AppendAssociates<T>(a: seq<T>, b: seq<T>, c: seq<T>)
    ensures a + (b + c) == a + b + c
  {}

  lemma {:induction false} FlatMapSnoc<T, U>(s: seq<T>, x: T, f: T -> seq<U>)
    ensures FlatMap(s + [x], f) == FlatMap(s, f) + f(x)
  {
    FlatMapAppend(s, [x], f);
    assert FlatMap([x], f) == f(x) + FlatMap([], f);
  }

  /** Where the loop `for x in s: for y in f(x)` stands at iteration (i, j). */
  lemma {:induction false} FlatMapSplit<T, U>(s: seq<T>, f: T -> seq<U>, i: nat, j: nat) returns (rest: seq<U>)
    requires i < |s| && j < |f(s[i])|
    ensures FlatMap(s, f) == FlatMap(s[..i], f) + f(s[i])[..j] + [f(s[i])[j]] + rest
  {
    var row := f(s[i]);
    assert s == s[..i] + ([s[i]] + s[i + 1..]);
    FlatMapAppend(s[..i], [s[i]] + s[i + 1..], f);
    FlatMapAppend([s[i]], s[i + 1..], f);
    FlatMapSnoc([], s[i], f);
    assert [] + [s[i]] == [s[i]];
    assert row == row[..j] + [row[j]] + row[j + 1..];
    rest := row[j + 1..] + FlatMap(s[i + 1..], f);
  }

  /** The outer loop moves on. */
  lemma {:induction false} FlatMapNext<T, U>(s: seq<T>, f: T -> seq<U>, i: nat)
    requires i < |s|
    ensures FlatMap(s[..i + 1], f) == FlatMap(s[..i], f) + f(s[i])
  {
    assert s[..i + 1] == s[..i] + [s[i]];
    FlatMapSnoc(s[..i], s[i], f);
  }

  lemma {:induction false} FlatMapMember<T, U>(s: seq<T>, f: T -> seq<U>, y: U)
    ensures y in FlatMap(s, f) <==> exists x :: x in s && y in f(x)
  {
    if s != [] {
      FlatMapMember(s[1..], f, y);
      assert s == [s[0]] + s[1..];
      if y in FlatMap(s, f) {
        if y in f(s[0]) { assert s[0] in s; }
      }
    }
  }

  lemma {:induction false} FlatMapOne<T, U>(a: T, f: T -> seq<U>)
    ensures FlatMap([a], f) == f(a)
  {
    assert [a][1..] == [];
    assert f(a) + [] == f(a);
  }

  lemma {:induction false} FlatMapTwo<T, U>(a: T, b: T, f: T -> seq<U>)
    ensures FlatMap([a, b], f) == f(a) + f(b)
  {
    assert [a, b][1..] == [b];
    FlatMapOne(b, f);
  }

  lemma {:induction false} TakeNext<T>(s: seq<T>, i: nat)
    requires i < |s|
    ensures s[..i + 1] == s[..i] + [s[i]]
  {}

  lemma {:induction false} Associate<T>(a: seq<T>, b: seq<T>, x: T)
    ensures a + (b + [x]) == a + b + [x]
  {}

  // ---------------------------------------------------------------- sums

  /** `sum(v(x) for x in s)`. */
  function Sum<T>(s: seq<T>, v: T -> nat): nat {
    if s == [] then 0 else v(s[0]) + Sum(s[1..], v)
  }

  lemma {:induction false} SumAppend<T>(a: seq<T>, b: seq<T>, v: T -> nat)
    ensures Sum(a + b, v) == Sum(a, v) + Sum(b, v)
  {
    if a == [] { assert a + b == b; } else {
      SumAppend(a[1..], b, v);
      assert (a + b)[1..] == a[1..] + b;
    }
  }

  /** Summing a comprehension is summing its parts. */
  lemma {:induction false} SumFlatMap<T, U>(s: seq<T>, f: T -> seq<U>, v: U -> nat, part: T -> nat)
    requires forall x :: x in s ==> part(x) == Sum(f(x), v)
    ensures Sum(FlatMap(s, f), v) == Sum(s, part)
  {
    if s != [] {
      assert s[0] in s;
      SumFlatMap(s[1..], f, v, part);
      SumAppend(f(s[0]), FlatMap(s[1..], f), v);
    }
  }

  /** How many elements satisfy `p`. */
  function Count<T>(s: seq<T>, p: T -> bool): nat {
    if s == [] then 0 else (if p(s[0]) then 1 else 0) + Count(s[1..], p)
  }

  lemma {:induction false} CountAppend<T>(a: seq<T>, b: seq<T>, p: T -> bool)
    ensures Count(a + b, p) == Count(a, p) + Count(b, p)
  {
    if a == [] { assert a + b == b; } else {
      CountAppend(a[1..], b, p);
      assert (a + b)[1..] == a[1..] + b;
    }
  }

  lemma {:induction false} SumNext<T>(s: seq<T>, i: nat, v: T -> nat)
    requires i < |s|
    ensures Sum(s[..i + 1], v) == Sum(s[..i], v) + v(s[i])
  {
    TakeNext(s, i);
    SumAppend(s[..i], [s[i]], v);
    SumOne(s[i], v);
  }

  lemma {:induction false} CountNext<T>(s: seq<T>, i: nat, p: T -> bool)
    requires i < |s|
    ensures Count(s[..i + 1], p) == Count(s[..i], p) + if p(s[i]) then 1 else 0
  {
    TakeNext(s, i);
    CountAppend(s[..i], [s[i]], p);
    CountOne(s[i], p);
  }

  /** The positions below `n` of elements with the property. */
  ghost function Positions<T>(s: seq<T>, n: nat, p: T -> bool): set<nat>
    requires n <= |s|
  {
    set i: nat | i < n && p(s[i])
  }

  /** The count is the number of positions. */
  lemma {:induction false} CountPositions<T>(s: seq<T>, n: nat, p: T -> bool)
    requires n <= |s|
    ensures Count(s[..n], p) == |Positions(s, n, p)|
  {
    if n == 0 {
      assert Positions(s, 0, p) == {};
    } else {
      CountPositions(s, n - 1, p);
      TakeNext(s, n - 1);
      CountAppend(s[..n - 1], [s[n - 1]], p);
      CountOne(s[n - 1], p);
      assert Positions(s, n, p) == Positions(s, n - 1, p) + if p(s[n - 1]) then {n - 1} else {};
    }
  }

  lemma {:induction false} CountedAt<T>(s: seq<T>, p: T -> bool)
    ensures Count(s, p) == |Positions(s, |s|, p)|
  {
    CountPositions(s, |s|, p);
    assert s[..|s|] == s;
  }

  lemma {:induction false} CountOne<T>(x: T, p: T -> bool)
    ensures Count([x], p) == if p(x) then 1 else 0
  {
    assert [x][1..] == [];
  }

  lemma {:induction false} NoneCounted<T>(s: seq<T>, p: T -> bool)
    ensures Count(s, p) == 0 <==> forall x :: x in s ==> !p(x)
  {
    if s != [] {
      assert s == [s[0]] + s[1..];
      NoneCounted(s[1..], p);
      if p(s[0]) { assert s[0] in s; }
    }
  }

  /** Of two properties, one implying the other, equally many have both exactly when all do. */
  lemma {:induction false} CountsEqual<T>(s: seq<T>, q: T -> bool, p: T -> bool)
    requires forall x :: x in s && q(x) ==> p(x)
    ensures Count(s, q) <= Count(s, p)
    ensures Count(s, q) == Count(s, p) <==> forall x :: x in s && p(x) ==> q(x)
  {
    if s != [] {
      assert s == [s[0]] + s[1..];
      CountsEqual(s[1..], q, p);
    }
  }

  /** The weight of the elements with key `k`. */
  function SumAt<T, K(==)>(s: seq<T>, key: T -> K, v: T -> nat, k: K): nat {
    if s == [] then 0 else (if key(s[0]) == k then v(s[0]) else 0) + SumAt(s[1..], key, v, k)
  }

  function SumGroups<T, K(==)>(keys: seq<K>, s: seq<T>, key: T -> K, v: T -> nat): nat {
    if keys == [] then 0 else SumAt(s, key, v, keys[0]) + SumGroups(keys[1..], s, key, v)
  }

  lemma {:induction false} GroupsWithHead<T, K>(keys: seq<K>, s: seq<T>, key: T -> K, v: T -> nat)
    requires s != [] && Distinct(keys)
    ensures SumGroups(keys, s, key, v) ==
            SumGroups(keys, s[1..], key, v) + if key(s[0]) in keys then v(s[0]) else 0
  {
    if keys != [] {
      GroupsWithHead(keys[1..], s, key, v);
      assert keys == [keys[0]] + keys[1..];
      if key(s[0]) == keys[0] {
        assert key(s[0]) !in keys[1..];
      }
    }
  }

  lemma {:induction false} GroupsOfNothing<T, K>(keys: seq<K>, s: seq<T>, key: T -> K, v: T -> nat)
    requires s == []
    ensures SumGroups(keys, s, key, v) == 0
  {
    if keys != [] { GroupsOfNothing(keys[1..], s, key, v); }
  }

  /** Summing group by group is summing everything. */
  lemma {:induction false} GroupsPartition<T, K>(keys: seq<K>, s: seq<T>, key: T -> K, v: T -> nat)
    requires Distinct(keys) && forall x :: x in s ==> key(x) in keys
    ensures SumGroups(keys, s, key, v) == Sum(s, v)
  {
    if s == [] {
      GroupsOfNothing(keys, s, key, v);
    } else {
      GroupsWithHead(keys, s, key, v);
      assert s[0] in s;
      GroupsPartition(keys, s[1..], key, v);
    }
  }

  /** One summand per group. */
  lemma {:induction false} SumByGroups<T, U, K>(xs: seq<U>, part: U -> nat, keys: seq<K>, s: seq<T>, key: T -> K, v: T -> nat)
    requires |xs| == |keys| && forall i :: 0 <= i < |xs| ==> part(xs[i]) == SumAt(s, key, v, keys[i])
    ensures Sum(xs, part) == SumGroups(keys, s, key, v)
  {
    if xs != [] {
      SumByGroups(xs[1..], part, keys[1..], s, key, v);
    }
  }

  lemma {:induction false} HeadOrTail<T>(s: seq<T>, q: T -> bool)
    requires s != []
    ensures (exists x :: x in s && q(x)) <==> q(s[0]) || exists x :: x in s[1..] && q(x)
  {
    if q(s[0]) { assert s[0] in s; }
  }

  function Without<T>(s: seq<T>, k: nat): seq<T>
    requires k < |s|
  {
    s[..k] + s[k + 1..]
  }

  lemma {:induction false} WithoutMultiset<T>(s: seq<T>, k: nat)
    requires k < |s|
    ensures multiset(s) == multiset(Without(s, k)) + multiset{s[k]}
    ensures multiset(Without(s, k)) == multiset(s) - multiset{s[k]}
  {
    assert s == s[..k] + [s[k]] + s[k + 1..];
  }

  lemma {:induction false} FlatMapWithout<T, U>(s: seq<T>, k: nat, f: T -> seq<U>)
    requires k < |s|
    ensures multiset(FlatMap(s, f)) == multiset(FlatMap(Without(s, k), f)) + multiset(f(s[k]))
  {
    assert s == s[..k] + ([s[k]] + s[k + 1..]);
    FlatMapAppend(s[..k], [s[k]] + s[k + 1..], f);
    FlatMapAppend([s[k]], s[k + 1..], f);
    FlatMapAppend(s[..k], s[k + 1..], f);
    FlatMapSnoc([], s[k], f);
    assert [] + [s[k]] == [s[k]];
  }

  /** Reordering a list reorders its comprehension. */
  lemma {:induction false} FlatMapPermutation<T, U>(a: seq<T>, b: seq<T>, f: T -> seq<U>)
    requires multiset(a) == multiset(b)
    ensures multiset(FlatMap(a, f)) == multiset(FlatMap(b, f))
    decreases |a|
  {
    if a == [] {
      NoMembers(b);
    } else {
      assert a[0] in multiset(b);
      var k :| 0 <= k < |b| && b[k] == a[0];
      WithoutMultiset(a, 0);
      WithoutMultiset(b, k);
      FlatMapPermutation(Without(a, 0), Without(b, k), f);
      FlatMapWithout(a, 0, f);
      FlatMapWithout(b, k, f);
    }
  }

  lemma {:induction false} NoMembers<T>(s: seq<T>)
    requires multiset(s) == multiset{}
    ensures s == []
  {
    assert |multiset(s)| == |s|;
  }

  lemma {:induction false} SameMembers<T>(a: seq<T>, b: seq<T>)
    requires multiset(a) == multiset(b)
    ensures forall x :: x in a <==> x in b
    ensures |a| == |b|
  {
    forall x
      ensures x in a <==> x in b
    {
      assert x in a <==> x in multiset(a);
      assert x in b <==> x in multiset(b);
    }
    assert |multiset(a)| == |a| && |multiset(b)| == |b|;
  }

  /** Reordering a list keeps its sum. */
  lemma {:induction false} SumPermutation<T>(a: seq<T>, b: seq<T>, v: T -> nat)
    requires multiset(a) == multiset(b)
    ensures Sum(a, v) == Sum(b, v)
    decreases |a|
  {
    if a == [] {
      NoMembers(b);
    } else {
      assert a[0] in multiset(b);
      var k :| 0 <= k < |b| && b[k] == a[0];
      WithoutMultiset(a, 0);
      WithoutMultiset(b, k);
      SumPermutation(Without(a, 0), Without(b, k), v);
      SumWithout(a, 0, v);
      SumWithout(b, k, v);
    }
  }

  lemma {:induction false} SumWithout<T>(s: seq<T>, k: nat, v: T -> nat)
    requires k < |s|
    ensures Sum(s, v) == Sum(Without(s, k), v) + v(s[k])
  {
    assert s == s[..k] + ([s[k]] + s[k + 1..]);
    SumAppend(s[..k], [s[k]] + s[k + 1..], v);
    SumAppend([s[k]], s[k + 1..], v);
    SumAppend(s[..k], s[k + 1..], v);
    SumOne(s[k], v);
  }

  lemma {:induction false} SumOne<T>(x: T, v: T -> nat)
    ensures Sum([x], v) == v(x)
  {
    assert [x][1..] == [];
  }

  /** `g` places `a` inside `b` at distinct positions. */
  ghost predicate Places<T>(g: seq<nat>, a: seq<T>, b: seq<T>) {
    && |g| == |a|
    && (forall i :: 0 <= i < |a| ==> g[i] < |b| && a[i] == b[g[i]])
    && (forall i, j :: 0 <= i < j < |a| ==> g[i] != g[j])
  }

  /** A sub-multiset sits inside the larger list at distinct positions. */
  lemma {:induction false} EmbedFromMultiset<T>(a: seq<T>, b: seq<T>) returns (g: seq<nat>)
    requires multiset(a) <= multiset(b)
    ensures Places(g, a, b)
    decreases |a|
  {
    if a == [] {
      g := [];
    } else {
      var last := |a| - 1;
      assert a[last] in multiset(b);
      var k :| 0 <= k < |b| && b[k] == a[last];
      WithoutMultiset(a, last);
      WithoutMultiset(b, k);
      assert Without(a, last) == a[..last];
      var h := EmbedFromMultiset(a[..last], Without(b, k));
      g := PlaceAround(h, a, b, k);
    }
  }

  lemma {:induction false} PlaceAround<T>(h: seq<nat>, a: seq<T>, b: seq<T>, k: nat) returns (g: seq<nat>)
    requires a != [] && k < |b| && b[k] == a[|a| - 1]
    requires Places(h, a[..|a| - 1], Without(b, k))
    ensures Places(g, a, b)
  {
    g := seq(|h|, (i: nat) requires i < |h| => if h[i] < k then h[i] else h[i] + 1) + [k];
    forall i | 0 <= i < |a| - 1
      ensures g[i] < |b| && g[i] != k && a[i] == b[g[i]]
    {
      assert a[..|a| - 1][i] == Without(b, k)[h[i]];
    }
  }
}
