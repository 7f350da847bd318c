/** `setdefault(key, []).append(x)`: insertion-ordered groups of a list. */
module Grouping {
  import opened Orders

  /** The elements with key `k`, in order. */
  function WithKey<T>(s: seq<T>, key: T -> string, k: string): seq<T> {
    if s == [] then []
    else if key(s[|s| - 1]) == k then WithKey(s[..|s| - 1], key, k) + [s[|s| - 1]]
    else WithKey(s[..|s| - 1], key, k)
  }

  /** The keys, in the order of their first appearance. */
  function KeysSeen<T>(s: seq<T>, key: T -> string): seq<string> {
    if s == [] then []
    else
      var init, k := KeysSeen(s[..|s| - 1], key), key(s[|s| - 1]);
      if k in init then init else init + [k]
  }

  lemma {:induction false} WithKeyMember<T>(s: seq<T>, key: T -> string, k: string, x: T)
    ensures x in WithKey(s, key, k) <==> x in s && key(x) == k
  {
    if s != [] {
      WithKeyMember(s[..|s| - 1], key, k, x);
      assert s == s[..|s| - 1] + [s[|s| - 1]];
    }
  }

  lemma {:induction false} KeysSeenMember<T>(s: seq<T>, key: T -> string, k: string)
    ensures k in KeysSeen(s, key) <==> exists x :: x in s && key(x) == k
  {
    if s != [] {
      var init, last := s[..|s| - 1], s[|s| - 1];
      KeysSeenMember(init, key, k);
      assert s == init + [last];
      if x :| x in s && key(x) == k {
        if x !in init { assert x == last; }
      }
      if k in KeysSeen(init, key) {
        var x :| x in init && key(x) == k;
        assert x in s;
      }
      if k == key(last) { assert last in s; }
    }
  }

  lemma {:induction false} KeysSeenDistinct<T>(s: seq<T>, key: T -> string)
    ensures Distinct(KeysSeen(s, key))
  {
    if s != [] {
      var init := KeysSeen(s[..|s| - 1], key);
      KeysSeenDistinct(s[..|s| - 1], key);
      var k := key(s[|s| - 1]);
      if k !in init { DistinctSnoc(init, k); }
    }
  }

  lemma {:induction false} DistinctSnoc<T>(s: seq<T>, x: T)
    requires Distinct(s) && x !in s
    ensures Distinct(s + [x])
  {}

  /** A seen key has a non-empty group. */
  lemma {:induction false} GroupNotEmpty<T>(s: seq<T>, key: T -> string, k: string)
    requires k in KeysSeen(s, key)
    ensures WithKey(s, key, k) != []
    ensures forall x :: x in WithKey(s, key, k) ==> x in s && key(x) == k
  {
    KeysSeenMember(s, key, k);
    var x :| x in s && key(x) == k;
    WithKeyMember(s, key, k, x);
    forall y | y in WithKey(s, key, k)
      ensures y in s && key(y) == k
    {
      WithKeyMember(s, key, k, y);
    }
  }

  /** All groups, one after the other. */
  function Regrouped<T>(s: seq<T>, key: T -> string, keys: seq<string>): seq<T> {
    if keys == [] then [] else Regrouped(s, key, keys[..|keys| - 1]) + WithKey(s, key, keys[|keys| - 1])
  }

  lemma {:induction false} WithKeyCount<T>(s: seq<T>, key: T -> string, k: string, x: T)
    ensures multiset(WithKey(s, key, k))[x] == if key(x) == k then multiset(s)[x] else 0
  {
    if s != [] {
      WithKeyCount(s[..|s| - 1], key, k, x);
      assert s == s[..|s| - 1] + [s[|s| - 1]];
    }
  }

  lemma {:induction false} RegroupedCount<T>(s: seq<T>, key: T -> string, keys: seq<string>, x: T)
    requires Distinct(keys)
    ensures multiset(Regrouped(s, key, keys))[x] == if key(x) in keys then multiset(s)[x] else 0
  {
    if keys != [] {
      var init, last := keys[..|keys| - 1], keys[|keys| - 1];
      RegroupedCount(s, key, init, x);
      WithKeyCount(s, key, last, x);
      assert keys == init + [last];
      LastIsNew(keys);
    }
  }

  lemma {:induction false} LastIsNew<T>(s: seq<T>)
    requires s != [] && Distinct(s)
    ensures s[|s| - 1] !in s[..|s| - 1]
  {
    var init := s[..|s| - 1];
    forall x | x in init
      ensures x != s[|s| - 1]
    {
      var i :| 0 <= i < |init| && init[i] == x;
      assert s[i] == x;
    }
  }

  lemma {:induction false} RegroupedKeeps<T>(s: seq<T>, key: T -> string, x: T)
    ensures multiset(Regrouped(s, key, KeysSeen(s, key)))[x] == multiset(s)[x]
  {
    KeysSeenDistinct(s, key);
    RegroupedCount(s, key, KeysSeen(s, key), x);
    KeysSeenMember(s, key, key(x));
    assert x in s <==> multiset(s)[x] > 0;
  }

  /** Regrouping only reorders. */
  lemma {:induction false} RegroupedPermutes<T(!new)>(s: seq<T>, key: T -> string)
    ensures multiset(Regrouped(s, key, KeysSeen(s, key))) == multiset(s)
  {
    var r := Regrouped(s, key, KeysSeen(s, key));
    forall x
      ensures multiset(r)[x] == multiset(s)[x]
    {
      RegroupedKeeps(s, key, x);
    }
    assert multiset(r) == multiset(s);
  }

  /** The loop that fills the dictionary. */
  method GroupBy<T(==)>(s: seq<T>, key: T -> string) returns (keys: seq<string>, groups: map<string, seq<T>>)
    ensures keys == KeysSeen(s, key)
    ensures groups.Keys == Elements(keys)
    ensures forall k :: k in groups ==> groups[k] == WithKey(s, key, k)
  {
    keys, groups := [], map[];
    for i := 0 to |s|
      invariant keys == KeysSeen(s[..i], key)
      invariant groups.Keys == Elements(keys)
      invariant forall k :: k in groups ==> groups[k] == WithKey(s[..i], key, k)
    {
      assert s[..i + 1][..i] == s[..i] && s[..i + 1][i] == s[i];
      var k := key(s[i]);
      if k in groups {
        groups := groups[k := groups[k] + [s[i]]];
      } else {
        NoGroupYet(s[..i], key, k);
        keys, groups := keys + [k], groups[k := [s[i]]];
      }
    }
    assert s[..|s|] == s;
  }

  lemma {:induction false} NoGroupYet<T>(s: seq<T>, key: T -> string, k: string)
    requires k !in KeysSeen(s, key)
    ensures WithKey(s, key, k) == []
  {
    if s != [] { NoGroupYet(s[..|s| - 1], key, k); }
  }
}
