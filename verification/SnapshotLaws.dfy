/** The merged snapshot inventory is a join of the shards' inventories. */
module SnapshotLaws {
  import opened Orders
  import opened Seqs
  import opened Text
  import opened Snapshots

  // ---------------------------------------------------------------- a join, key by key

  function IsReferenced(e: Entry): bool { e.referenced }

  function IsDynamic(e: Entry): bool { e.dynamic }

  ghost predicate Known(entries: seq<Entry>, k: Key) {
    exists e :: e in entries && KeyOf(e) == k
  }

  ghost predicate Any(entries: seq<Entry>, k: Key, p: Entry -> bool) {
    exists e :: e in entries && KeyOf(e) == k && p(e)
  }

  ghost predicate Executed(entries: seq<Entry>, k: Key, x: string) {
    exists e :: e in entries && KeyOf(e) == k && x in e.executionIds
  }

  ghost predicate Observed(entries: seq<Entry>, k: Key, x: string) {
    exists e :: e in entries && KeyOf(e) == k && x in e.observedStatuses
  }

  /** Entry `j` is the join of the entries with key `k`. */
  ghost predicate IsJoin(j: Entry, entries: seq<Entry>, k: Key) {
    && KeyOf(j) == k
    && (j.referenced <==> Any(entries, k, IsReferenced))
    && (j.declared <==> Any(entries, k, IsDeclared))
    && (j.dynamic <==> Any(entries, k, IsDynamic))
    && (j.stored <==> Any(entries, k, IsStored))
    && (j.unsafe <==> Any(entries, k, IsUnsafe))
    && (forall x :: x in j.executionIds <==> Executed(entries, k, x))
    && (forall x :: x in j.observedStatuses <==> Observed(entries, k, x))
  }

  lemma {:induction false} AnySnoc(init: seq<Entry>, last: Entry, k: Key, p: Entry -> bool)
    ensures Any(init + [last], k, p) <==> Any(init, k, p) || (KeyOf(last) == k && p(last))
  {
    if Any(init, k, p) {
      var e :| e in init && KeyOf(e) == k && p(e);
      assert e in init + [last];
    }
    if KeyOf(last) == k && p(last) { assert last in init + [last]; }
  }

  lemma {:induction false} SetsSnoc(init: seq<Entry>, last: Entry, k: Key, x: string)
    ensures Executed(init + [last], k, x) <==> Executed(init, k, x) || (KeyOf(last) == k && x in last.executionIds)
    ensures Observed(init + [last], k, x) <==> Observed(init, k, x) || (KeyOf(last) == k && x in last.observedStatuses)
    ensures Known(init + [last], k) <==> Known(init, k) || KeyOf(last) == k
  {
    assert last in init + [last];
    if Executed(init, k, x) {
      var e :| e in init && KeyOf(e) == k && x in e.executionIds;
      assert e in init + [last];
    }
    if Observed(init, k, x) {
      var e :| e in init && KeyOf(e) == k && x in e.observedStatuses;
      assert e in init + [last];
    }
    if Known(init, k) {
      var e :| e in init && KeyOf(e) == k;
      assert e in init + [last];
    }
  }

  lemma {:induction false} JoinStep(prior: Entry, init: seq<Entry>, last: Entry, k: Key)
    requires KeyOf(last) == k && IsJoin(prior, init, k)
    ensures IsJoin(Join(prior, last), init + [last], k)
  {
    AnySnoc(init, last, k, IsReferenced);
    AnySnoc(init, last, k, IsDeclared);
    AnySnoc(init, last, k, IsDynamic);
    AnySnoc(init, last, k, IsStored);
    AnySnoc(init, last, k, IsUnsafe);
    forall x
      ensures x in Join(prior, last).executionIds <==> Executed(init + [last], k, x)
      ensures x in Join(prior, last).observedStatuses <==> Observed(init + [last], k, x)
    {
      SetsSnoc(init, last, k, x);
    }
  }

  lemma {:induction false} FirstCopy(init: seq<Entry>, last: Entry, k: Key)
    requires KeyOf(last) == k && !Known(init, k)
    ensures IsJoin(last, init + [last], k)
  {
    AnySnoc(init, last, k, IsReferenced);
    AnySnoc(init, last, k, IsDeclared);
    AnySnoc(init, last, k, IsDynamic);
    AnySnoc(init, last, k, IsStored);
    AnySnoc(init, last, k, IsUnsafe);
    forall x
      ensures x in last.executionIds <==> Executed(init + [last], k, x)
      ensures x in last.observedStatuses <==> Observed(init + [last], k, x)
    {
      SetsSnoc(init, last, k, x);
    }
  }

  lemma {:induction false} OtherKey(j: Entry, init: seq<Entry>, last: Entry, k: Key)
    requires KeyOf(last) != k && IsJoin(j, init, k)
    ensures IsJoin(j, init + [last], k)
  {
    AnySnoc(init, last, k, IsReferenced);
    AnySnoc(init, last, k, IsDeclared);
    AnySnoc(init, last, k, IsDynamic);
    AnySnoc(init, last, k, IsStored);
    AnySnoc(init, last, k, IsUnsafe);
    forall x
      ensures x in j.executionIds <==> Executed(init + [last], k, x)
      ensures x in j.observedStatuses <==> Observed(init + [last], k, x)
    {
      SetsSnoc(init, last, k, x);
    }
  }

  /** Every key of any shard has one entry, and it is the join of all copies. */
  lemma {:induction false} JoinedAt(entries: seq<Entry>, k: Key)
    ensures k in JoinAll(entries) <==> Known(entries, k)
    ensures k in JoinAll(entries) ==> IsJoin(JoinAll(entries)[k], entries, k)
  {
    if entries != [] {
      var init, last := entries[..|entries| - 1], entries[|entries| - 1];
      assert entries == init + [last];
      JoinedAt(init, k);
      SetsSnoc(init, last, k, "");
      if KeyOf(last) == k {
        if k in JoinAll(init) { JoinStep(JoinAll(init)[k], init, last, k); } else { FirstCopy(init, last, k); }
      } else if k in JoinAll(init) {
        OtherKey(JoinAll(init)[k], init, last, k);
      }
    }
  }

  // ---------------------------------------------------------------- independence of order and grouping

  /** Two lists say the same about a key. */
  ghost predicate SayAt(a: seq<Entry>, b: seq<Entry>, k: Key) {
    && (Known(a, k) <==> Known(b, k))
    && (Any(a, k, IsReferenced) <==> Any(b, k, IsReferenced))
    && (Any(a, k, IsDeclared) <==> Any(b, k, IsDeclared))
    && (Any(a, k, IsDynamic) <==> Any(b, k, IsDynamic))
    && (Any(a, k, IsStored) <==> Any(b, k, IsStored))
    && (Any(a, k, IsUnsafe) <==> Any(b, k, IsUnsafe))
    && (forall x :: Executed(a, k, x) <==> Executed(b, k, x))
    && (forall x :: Observed(a, k, x) <==> Observed(b, k, x))
  }

  ghost predicate SaySame(a: seq<Entry>, b: seq<Entry>) {
    forall k: Key :: SayAt(a, b, k)
  }

  /** The same flags, identities, statuses and verdict. */
  ghost predicate SameEntry(a: Entry, b: Entry) {
    && KeyOf(a) == KeyOf(b)
    && a.referenced == b.referenced && a.declared == b.declared && a.dynamic == b.dynamic
    && a.stored == b.stored && a.unsafe == b.unsafe && a.status == b.status
    && Elements(a.executionIds) == Elements(b.executionIds)
    && Elements(a.observedStatuses) == Elements(b.observedStatuses)
  }

  lemma {:induction false} SameJoin(a: seq<Entry>, b: seq<Entry>, k: Key)
    requires SaySame(a, b)
    ensures k in JoinAll(a) <==> k in JoinAll(b)
    ensures k in JoinAll(a) ==> SameEntry(Judged(JoinAll(a)[k]), Judged(JoinAll(b)[k]))
  {
    JoinedAt(a, k);
    JoinedAt(b, k);
    assert SayAt(a, b, k);
    if k in JoinAll(a) {
      var p, q := JoinAll(a)[k], JoinAll(b)[k];
      forall x
        ensures x in p.executionIds <==> x in q.executionIds
        ensures x in p.observedStatuses <==> x in q.observedStatuses
      {
        assert Executed(a, k, x) <==> Executed(b, k, x);
        assert Observed(a, k, x) <==> Observed(b, k, x);
      }
    }
  }

  function EntryList(entries: seq<Entry>): seq<Entry> { JudgeAll(InKeyOrder(JoinAll(entries))) }

  ghost predicate SameLists(a: seq<Entry>, b: seq<Entry>) {
    |a| == |b| && forall i :: 0 <= i < |a| ==> SameEntry(a[i], b[i])
  }

  /** Lists that say the same are joined into the same entries, in the same order. */
  lemma {:induction false} SameEntryLists(a: seq<Entry>, b: seq<Entry>)
    requires SaySame(a, b)
    ensures SameLists(EntryList(a), EntryList(b))
  {
    forall k
      ensures k in JoinAll(a) <==> k in JoinAll(b)
      ensures k in JoinAll(a) ==> SameEntry(Judged(JoinAll(a)[k]), Judged(JoinAll(b)[k]))
    {
      SameJoin(a, b, k);
    }
    assert JoinAll(a).Keys == JoinAll(b).Keys;
    KeyLeIsTotalOrder();
    SortedSetLists(JoinAll(a).Keys, KeyLe);
    var keys := SortedSet(JoinAll(a).Keys, KeyLe);
    forall i | 0 <= i < |keys|
      ensures SameEntry(EntryList(a)[i], EntryList(b)[i])
    {
      assert keys[i] in keys;
    }
  }

  lemma {:induction false} SameCount(a: seq<Entry>, b: seq<Entry>, p: Entry -> bool)
    requires |a| == |b| && forall i :: 0 <= i < |a| ==> p(a[i]) == p(b[i])
    ensures Count(a, p) == Count(b, p)
  {
    if a != [] { SameCount(a[1..], b[1..], p); }
  }

  lemma {:induction false} SameMembersSaySame(a: seq<Entry>, b: seq<Entry>)
    requires forall e :: e in a <==> e in b
    ensures SaySame(a, b)
  {
    forall k: Key
      ensures SayAt(a, b, k)
    {
    }
  }

  lemma {:induction false} EntriesByMembers(a: seq<Inventory>, b: seq<Inventory>)
    requires multiset(a) == multiset(b)
    ensures SaySame(FlatMap(a, EntriesOf), FlatMap(b, EntriesOf))
  {
    SameMembers(a, b);
    forall e
      ensures e in FlatMap(a, EntriesOf) <==> e in FlatMap(b, EntriesOf)
    {
      FlatMapMember(a, EntriesOf, e);
      FlatMapMember(b, EntriesOf, e);
    }
    SameMembersSaySame(FlatMap(a, EntriesOf), FlatMap(b, EntriesOf));
  }

  lemma {:induction false} SameEntryCounts(a: seq<Entry>, b: seq<Entry>)
    requires SameLists(a, b)
    ensures Count(a, HasStatus(Referenced)) == Count(b, HasStatus(Referenced))
    ensures Count(a, HasStatus(Missing)) == Count(b, HasStatus(Missing))
    ensures Count(a, HasStatus(Obsolete)) == Count(b, HasStatus(Obsolete))
    ensures Count(a, IsUnsafe) == Count(b, IsUnsafe)
    ensures Count(a, IsStored) == Count(b, IsStored) && Count(a, IsDeclared) == Count(b, IsDeclared)
  {
    SameCount(a, b, HasStatus(Referenced));
    SameCount(a, b, HasStatus(Missing));
    SameCount(a, b, HasStatus(Obsolete));
    SameCount(a, b, IsUnsafe);
    SameCount(a, b, IsStored);
    SameCount(a, b, IsDeclared);
  }

  lemma {:induction false} LastRootAt(roots: seq<Root>, k: Key)
    ensures k in LastRoots(roots) <==> exists r :: r in roots && RootKey(r) == k
    ensures k in LastRoots(roots) ==> LastRoots(roots)[k] in roots && RootKey(LastRoots(roots)[k]) == k
  {
    if roots != [] {
      var init, last := roots[..|roots| - 1], roots[|roots| - 1];
      assert roots == init + [last];
      LastRootAt(init, k);
      assert last in roots;
    }
  }

  /** Later roots replace earlier ones. */
  lemma {:induction false} LastRootsAppend(a: seq<Root>, b: seq<Root>)
    ensures LastRoots(a + b) == LastRoots(a) + LastRoots(b)
  {
    if b == [] {
      assert a + b == a;
    } else {
      var init, last := b[..|b| - 1], b[|b| - 1];
      LastRootsAppend(a, init);
      assert b == init + [last];
      OneMoreRoot(a, init, last);
    }
  }

  lemma {:induction false} OneMoreRoot(a: seq<Root>, init: seq<Root>, last: Root)
    requires LastRoots(a + init) == LastRoots(a) + LastRoots(init)
    ensures LastRoots(a + (init + [last])) == LastRoots(a) + LastRoots(init + [last])
  {
    Associate(a, init, last);
    RootSnoc(a + init, last);
    RootSnoc(init, last);
    LaterWins(LastRoots(a), LastRoots(init), RootKey(last), last);
  }

  lemma {:induction false} LaterWins<V>(m: map<Key, V>, n: map<Key, V>, k: Key, v: V)
    ensures (m + n)[k := v] == m + n[k := v]
  {}

  /** The roots of one shard, of a repeated one the last copy. */
  function Kept(d: Inventory): map<Key, Root> { LastRoots(d.roots) }

  /** Shards that keep a root under one key keep the same root. */
  ghost predicate RootsAgree(docs: seq<Inventory>) {
    forall d, e, k :: d in docs && e in docs && k in Kept(d) && k in Kept(e) ==> Kept(d)[k] == Kept(e)[k]
  }

  function RootsTogether(docs: seq<Inventory>): map<Key, Root> { LastRoots(FlatMap(docs, RootsOf)) }

  lemma {:induction false} RootsSnoc(docs: seq<Inventory>, d: Inventory)
    ensures RootsTogether(docs + [d]) == RootsTogether(docs) + Kept(d)
  {
    FlatMapSnoc(docs, d, RootsOf);
    LastRootsAppend(FlatMap(docs, RootsOf), d.roots);
  }

  /** A key is kept exactly when some shard keeps it, and then as some shard keeps it. */
  lemma {:induction false} SomeShardKeeps(docs: seq<Inventory>, k: Key)
    ensures k in RootsTogether(docs) <==> exists d :: d in docs && k in Kept(d)
    ensures k in RootsTogether(docs) ==> exists d :: d in docs && k in Kept(d) && RootsTogether(docs)[k] == Kept(d)[k]
  {
    if docs != [] {
      var init, last := docs[..|docs| - 1], docs[|docs| - 1];
      assert docs == init + [last];
      SomeShardKeeps(init, k);
      RootsSnoc(init, last);
      assert last in docs;
    }
  }

  lemma {:induction false} AgreedRoots(a: seq<Inventory>, b: seq<Inventory>)
    requires (forall d :: d in a <==> d in b) && RootsAgree(a)
    ensures RootsTogether(a) == RootsTogether(b)
  {
    forall k
      ensures k in RootsTogether(a) <==> k in RootsTogether(b)
      ensures k in RootsTogether(a) ==> RootsTogether(a)[k] == RootsTogether(b)[k]
    {
      SomeShardKeeps(a, k);
      SomeShardKeeps(b, k);
    }
  }

  /** The list of roots determines which root every key keeps. */
  lemma {:induction false} RootListDetermines(a: seq<Root>, b: seq<Root>)
    requires InKeyOrder(LastRoots(a)) == InKeyOrder(LastRoots(b))
    ensures LastRoots(a) == LastRoots(b)
  {
    forall k
      ensures k in LastRoots(a) <==> k in LastRoots(b)
      ensures k in LastRoots(a) ==> LastRoots(a)[k] == LastRoots(b)[k]
    {
      if k in LastRoots(a) { RootCarriesOver(a, b, k); }
      if k in LastRoots(b) { RootCarriesOver(b, a, k); }
    }
  }

  lemma {:induction false} RootCarriesOver(a: seq<Root>, b: seq<Root>, k: Key)
    requires InKeyOrder(LastRoots(a)) == InKeyOrder(LastRoots(b)) && k in LastRoots(a)
    ensures k in LastRoots(b) && LastRoots(b)[k] == LastRoots(a)[k]
  {
    InKeyOrderLists(LastRoots(a));
    InKeyOrderLists(LastRoots(b));
    var r := LastRoots(a)[k];
    assert r in InKeyOrder(LastRoots(b));
    var j :| j in LastRoots(b) && LastRoots(b)[j] == r;
    LastRootAt(a, k);
    LastRootAt(b, j);
  }

  /** Moving one shard to the end makes its roots the kept ones. */
  lemma {:induction false} LastShardDecides(docs: seq<Inventory>, d: Inventory, k: Key) returns (b: seq<Inventory>)
    requires d in docs && k in Kept(d)
    ensures multiset(b) == multiset(docs)
    ensures k in RootsTogether(b) && RootsTogether(b)[k] == Kept(d)[k]
  {
    var i: nat :| i < |docs| && docs[i] == d;
    WithoutMultiset(docs, i);
    b := Without(docs, i) + [d];
    RootsSnoc(Without(docs, i), d);
  }

  /** The merged roots do not depend on the order of the shards if and only if the shards agree about
      every root that several of them keep. */
  lemma {:induction false} RootsIgnoreOrder(docs: seq<Inventory>)
    ensures (forall b: seq<Inventory> :: multiset(b) == multiset(docs) ==> Merged(b).roots == Merged(docs).roots) <==>
            RootsAgree(docs)
  {
    if RootsAgree(docs) {
      forall b: seq<Inventory> | multiset(b) == multiset(docs)
        ensures Merged(b).roots == Merged(docs).roots
      {
        SameMembers(b, docs);
        AgreedRoots(docs, b);
      }
    } else {
      var d, e, k :| d in docs && e in docs && k in Kept(d) && k in Kept(e) && Kept(d)[k] != Kept(e)[k];
      var x := LastShardDecides(docs, d, k);
      var y := LastShardDecides(docs, e, k);
      if Merged(x).roots == Merged(docs).roots && Merged(y).roots == Merged(docs).roots {
        RootListDetermines(FlatMap(x, RootsOf), FlatMap(y, RootsOf));
      }
    }
  }

  /** The order in which shards are merged leaves no trace in entries, completeness and the counts of
      entries, whatever the roots are. */
  lemma {:induction false} EntriesIgnoreOrder(a: seq<Inventory>, b: seq<Inventory>)
    requires multiset(a) == multiset(b)
    ensures SameLists(Merged(a).entries, Merged(b).entries)
    ensures Merged(a).enabled == Merged(b).enabled && Merged(a).complete == Merged(b).complete
    ensures Merged(a).gate.enabled == Merged(b).gate.enabled
    ensures var x, y := Merged(a).counts, Merged(b).counts;
            && x.referenced == y.referenced && x.missing == y.missing && x.obsolete == y.obsolete
            && x.unverified == y.unverified && x.stored == y.stored && x.declared == y.declared
  {
    SameMembers(a, b);
    EntriesByMembers(a, b);
    SameEntryLists(FlatMap(a, EntriesOf), FlatMap(b, EntriesOf));
    SumPermutation(a, b, UnverifiedOf);
    SameEntryCounts(EntryList(FlatMap(a, EntriesOf)), EntryList(FlatMap(b, EntriesOf)));
    SameGate(a, b, Merged(a).counts);
  }

  /** When shards agree about their roots, nothing in the merged inventory depends on their order. */
  lemma {:induction false} OrderIgnored(a: seq<Inventory>, b: seq<Inventory>)
    requires multiset(a) == multiset(b) && RootsAgree(a)
    ensures SameLists(Merged(a).entries, Merged(b).entries)
    ensures Merged(a).roots == Merged(b).roots && Merged(a).counts == Merged(b).counts
    ensures Merged(a).enabled == Merged(b).enabled && Merged(a).complete == Merged(b).complete
    ensures Merged(a).gate == Merged(b).gate
  {
    EntriesIgnoreOrder(a, b);
    SameMembers(a, b);
    AgreedRoots(a, b);
    SameUnsafe(a, b);
    SameGate(a, b, Merged(a).counts);
  }

  lemma {:induction false} SameUnsafe(a: seq<Inventory>, b: seq<Inventory>)
    requires SameLists(Merged(a).entries, Merged(b).entries) && Merged(a).roots == Merged(b).roots
    ensures Merged(a).counts.unsafe == Merged(b).counts.unsafe
  {
    SameEntryCounts(Merged(a).entries, Merged(b).entries);
  }

  lemma {:induction false} SameGate(a: seq<Inventory>, b: seq<Inventory>, counts: Counts)
    requires (forall d :: d in a <==> d in b) && |a| == |b|
    ensures GateReasons(a, counts) == GateReasons(b, counts)
    ensures AllComplete(a) == AllComplete(b)
    ensures (exists d :: d in a && d.enabled) <==> (exists d :: d in b && d.enabled)
    ensures (exists d :: d in a && d.gate.enabled) <==> (exists d :: d in b && d.gate.enabled)
  {
    forall x
      ensures x in FlatMap(a, GateReasonsOf) <==> x in FlatMap(b, GateReasonsOf)
    {
      FlatMapMember(a, GateReasonsOf, x);
      FlatMapMember(b, GateReasonsOf, x);
    }
    assert Elements(FlatMap(a, GateReasonsOf)) == Elements(FlatMap(b, GateReasonsOf));
  }

  /** Without that agreement the last shard decides: two reports whose order changes the unsafe count. */
  lemma {:induction false} RootOrderMatters() returns (a: Inventory, b: Inventory)
    ensures SoundInventory(a) && SoundInventory(b)
    ensures Merged([a, b]).counts.unsafe != Merged([b, a]).counts.unsafe
  {
    a, b := Auditing(Link()), Gated([Plain()]);
    OneRootInventories();
    LaterRoot(a, b, Plain());
    LaterRoot(b, a, Link());
  }

  /** Of two shards with one root each under one key, the later one's is merged. */
  lemma {:induction false} LaterRoot(a: Inventory, b: Inventory, s: Root)
    requires a.entries == [] && b.entries == [] && Kept(b) == map[RootKey(s) := s] && Kept(a).Keys == Kept(b).Keys
    ensures RootsTogether([a, b]) == Kept(b)
    ensures Merged([a, b]).counts.unsafe == if s.symlink then 1 else 0
  {
    RootsSnoc([], a);
    RootsSnoc([a], b);
    assert [] + [a] == [a] && [a] + [b] == [a, b];
    SingleRoot([a, b], s);
  }

  lemma {:induction false} OnlyOne<V>(k: Key, v: V)
    ensures InKeyOrder(map[k := v]) == [v]
  {
    var table := map[k := v];
    InKeyOrderLists(table);
    assert table[k] in InKeyOrder(table);
    assert table.Keys == {k};
  }

  // ---------------------------------------------------------------- grouping

  lemma {:induction false} AnyAppend(a: seq<Entry>, b: seq<Entry>, k: Key, p: Entry -> bool)
    ensures Any(a + b, k, p) <==> Any(a, k, p) || Any(b, k, p)
  {
    if Any(a, k, p) {
      var e :| e in a && KeyOf(e) == k && p(e);
      assert e in a + b;
    }
    if Any(b, k, p) {
      var e :| e in b && KeyOf(e) == k && p(e);
      assert e in a + b;
    }
  }

  lemma {:induction false} SetsAppend(a: seq<Entry>, b: seq<Entry>, k: Key, x: string)
    ensures Executed(a + b, k, x) <==> Executed(a, k, x) || Executed(b, k, x)
    ensures Observed(a + b, k, x) <==> Observed(a, k, x) || Observed(b, k, x)
    ensures Known(a + b, k) <==> Known(a, k) || Known(b, k)
  {
    if Executed(a, k, x) { var e :| e in a && KeyOf(e) == k && x in e.executionIds; assert e in a + b; }
    if Executed(b, k, x) { var e :| e in b && KeyOf(e) == k && x in e.executionIds; assert e in a + b; }
    if Observed(a, k, x) { var e :| e in a && KeyOf(e) == k && x in e.observedStatuses; assert e in a + b; }
    if Observed(b, k, x) { var e :| e in b && KeyOf(e) == k && x in e.observedStatuses; assert e in a + b; }
    if Known(a, k) { var e :| e in a && KeyOf(e) == k; assert e in a + b; }
    if Known(b, k) { var e :| e in b && KeyOf(e) == k; assert e in a + b; }
  }

  lemma {:induction false} SayAppend(a: seq<Entry>, b: seq<Entry>, c: seq<Entry>)
    requires SaySame(a, b)
    ensures SaySame(a + c, b + c)
  {
    forall k: Key
      ensures SayAt(a + c, b + c, k)
    {
      assert SayAt(a, b, k);
      AnyAppend(a, c, k, IsReferenced);
      AnyAppend(b, c, k, IsReferenced);
      AnyAppend(a, c, k, IsDeclared);
      AnyAppend(b, c, k, IsDeclared);
      AnyAppend(a, c, k, IsDynamic);
      AnyAppend(b, c, k, IsDynamic);
      AnyAppend(a, c, k, IsStored);
      AnyAppend(b, c, k, IsStored);
      AnyAppend(a, c, k, IsUnsafe);
      AnyAppend(b, c, k, IsUnsafe);
      forall x
        ensures Executed(a + c, k, x) <==> Executed(b + c, k, x)
        ensures Observed(a + c, k, x) <==> Observed(b + c, k, x)
        ensures Known(a + c, k) <==> Known(b + c, k)
      {
        SetsAppend(a, c, k, x);
        SetsAppend(b, c, k, x);
      }
      SetsAppend(a, c, k, "");
      SetsAppend(b, c, k, "");
    }
  }

  /** The merged entry of a key, and no other, is in the merged list. */
  lemma {:induction false} MergedEntryAt(entries: seq<Entry>, e: Entry, k: Key)
    ensures e in EntryList(entries) && KeyOf(e) == k <==> k in JoinAll(entries) && e == Judged(JoinAll(entries)[k])
  {
    var table := JoinAll(entries);
    InKeyOrderLists(table);
    var list := InKeyOrder(table);
    if e in EntryList(entries) && KeyOf(e) == k {
      var i :| 0 <= i < |list| && EntryList(entries)[i] == e;
      assert list[i] in list;
      var j :| j in table && table[j] == list[i];
      JoinedAt(entries, j);
      assert j == k;
    }
    if k in table && e == Judged(table[k]) {
      JoinedAt(entries, k);
      assert table[k] in list;
      var i :| 0 <= i < |list| && list[i] == table[k];
      assert EntryList(entries)[i] == e;
    }
  }

  lemma {:induction false} ListAny(entries: seq<Entry>, k: Key, p: Entry -> bool)
    requires forall e :: p(e) == p(Judged(e))
    ensures Any(EntryList(entries), k, p) <==> k in JoinAll(entries) && p(JoinAll(entries)[k])
  {
    if Any(EntryList(entries), k, p) {
      var e :| e in EntryList(entries) && KeyOf(e) == k && p(e);
      MergedEntryAt(entries, e, k);
    }
    if k in JoinAll(entries) && p(JoinAll(entries)[k]) {
      var e := Judged(JoinAll(entries)[k]);
      MergedEntryAt(entries, e, k);
      assert e in EntryList(entries) && KeyOf(e) == k && p(e);
    }
  }

  lemma {:induction false} ListSets(entries: seq<Entry>, k: Key, x: string)
    ensures Executed(EntryList(entries), k, x) <==> k in JoinAll(entries) && x in JoinAll(entries)[k].executionIds
    ensures Observed(EntryList(entries), k, x) <==> k in JoinAll(entries) && x in JoinAll(entries)[k].observedStatuses
    ensures Known(EntryList(entries), k) <==> k in JoinAll(entries)
  {
    if e :| e in EntryList(entries) && KeyOf(e) == k { MergedEntryAt(entries, e, k); }
    forall e | e in EntryList(entries) && KeyOf(e) == k
      ensures k in JoinAll(entries) && e == Judged(JoinAll(entries)[k])
    {
      MergedEntryAt(entries, e, k);
    }
    if k in JoinAll(entries) {
      var e := Judged(JoinAll(entries)[k]);
      MergedEntryAt(entries, e, k);
      assert e in EntryList(entries) && KeyOf(e) == k;
    }
  }

  /** A merged list says what the shards' lists say. */
  lemma {:induction false} MergedSaysSame(entries: seq<Entry>)
    ensures SaySame(EntryList(entries), entries)
  {
    forall k: Key
      ensures SayAt(EntryList(entries), entries, k)
    {
      JoinedAt(entries, k);
      ListAny(entries, k, IsReferenced);
      ListAny(entries, k, IsDeclared);
      ListAny(entries, k, IsDynamic);
      ListAny(entries, k, IsStored);
      ListAny(entries, k, IsUnsafe);
      NoneKnown(entries, k);
      forall x
        ensures Executed(EntryList(entries), k, x) <==> Executed(entries, k, x)
        ensures Observed(EntryList(entries), k, x) <==> Observed(entries, k, x)
      {
        ListSets(entries, k, x);
      }
      ListSets(entries, k, "");
    }
  }

  lemma {:induction false} NoneKnown(entries: seq<Entry>, k: Key)
    ensures !Known(entries, k) ==> forall p: Entry -> bool :: !Any(entries, k, p)
    ensures !Known(entries, k) ==> forall x :: !Executed(entries, k, x) && !Observed(entries, k, x)
  {}

  lemma {:induction false} GroupedEntries(a: seq<Inventory>, b: seq<Inventory>)
    ensures SameLists(Merged([Merged(a)] + b).entries, Merged(a + b).entries)
    ensures Merged([Merged(a)] + b).counts.unverified == Merged(a + b).counts.unverified
  {
    var first := FlatMap(a, EntriesOf);
    var rest := FlatMap(b, EntriesOf);
    FlatMapAppend(a, b, EntriesOf);
    FlatMapAppend([Merged(a)], b, EntriesOf);
    FlatMapOne(Merged(a), EntriesOf);
    MergedSaysSame(first);
    SayAppend(EntryList(first), first, rest);
    SameEntryLists(EntryList(first) + rest, first + rest);
    SumAppend(a, b, UnverifiedOf);
    SumAppend([Merged(a)], b, UnverifiedOf);
    SumOne(Merged(a), UnverifiedOf);
  }

  /** The list of kept roots keeps the same roots. */
  lemma {:induction false} KeptRootsStay(roots: seq<Root>)
    ensures LastRoots(InKeyOrder(LastRoots(roots))) == LastRoots(roots)
  {
    var table := LastRoots(roots);
    var list := InKeyOrder(table);
    InKeyOrderLists(table);
    forall k
      ensures k in LastRoots(list) <==> k in table
      ensures k in table ==> LastRoots(list)[k] == table[k]
    {
      LastRootAt(roots, k);
      LastRootAt(list, k);
      forall r | r in list && RootKey(r) == k
        ensures k in table && table[k] == r
      {
        var j :| j in table && table[j] == r;
        LastRootAt(roots, j);
      }
    }
  }

  lemma {:induction false} GroupedRoots(a: seq<Inventory>, b: seq<Inventory>)
    ensures RootsTogether([Merged(a)] + b) == RootsTogether(a + b)
  {
    FlatMapAppend(a, b, RootsOf);
    FlatMapAppend([Merged(a)], b, RootsOf);
    FlatMapOne(Merged(a), RootsOf);
    LastRootsAppend(FlatMap(a, RootsOf), FlatMap(b, RootsOf));
    LastRootsAppend(Merged(a).roots, FlatMap(b, RootsOf));
    KeptRootsStay(FlatMap(a, RootsOf));
  }

  lemma {:induction false} GroupedFlags(a: seq<Inventory>, b: seq<Inventory>)
    requires a != []
    ensures AllComplete([Merged(a)] + b) <==> AllComplete(a + b)
    ensures (exists d :: d in [Merged(a)] + b && d.enabled) <==> (exists d :: d in a + b && d.enabled)
    ensures (exists d :: d in [Merged(a)] + b && d.gate.enabled) <==> (exists d :: d in a + b && d.gate.enabled)
  {
    StandsFor(Merged(a), a, b);
  }

  /** A shard that is enabled, complete and gated exactly when a group is can stand for the group. */
  lemma {:induction false} StandsFor(m: Inventory, a: seq<Inventory>, b: seq<Inventory>)
    requires a != [] && (m.complete <==> AllComplete(a))
    requires m.enabled <==> exists d :: d in a && d.enabled
    requires m.gate.enabled <==> exists d :: d in a && d.gate.enabled
    ensures AllComplete([m] + b) <==> AllComplete(a + b)
    ensures (exists d :: d in [m] + b && d.enabled) <==> (exists d :: d in a + b && d.enabled)
    ensures (exists d :: d in [m] + b && d.gate.enabled) <==> (exists d :: d in a + b && d.gate.enabled)
  {
    assert a[0] in a && m in [m] + b;
    AppendMembers([m], b);
    AppendMembers(a, b);
  }

  lemma {:induction false} AppendMembers<T>(a: seq<T>, b: seq<T>)
    ensures forall d :: d in a + b <==> d in a || d in b
  {}

  /** Merging in groups is merging at once: a merged inventory can stand for its shards in entries,
      roots, counts and completeness. Its gate can only be stricter: what a group alone misses stays on
      record even if a later shard supplies it. */
  lemma {:induction false} GroupingIgnored(a: seq<Inventory>, b: seq<Inventory>)
    requires a != []
    ensures var grouped, direct := Merged([Merged(a)] + b), Merged(a + b);
            && SameLists(grouped.entries, direct.entries) && grouped.roots == direct.roots
            && grouped.counts == direct.counts
            && grouped.enabled == direct.enabled && grouped.complete == direct.complete
            && grouped.gate.enabled == direct.gate.enabled
            && (grouped.gate.passed <==> direct.gate.passed && Merged(a).gate.passed)
  {
    GroupedCounts(a, b);
    GroupedFlags(a, b);
    GroupedGate(a, b);
  }

  lemma {:induction false} GroupedCounts(a: seq<Inventory>, b: seq<Inventory>)
    ensures var grouped, direct := Merged([Merged(a)] + b), Merged(a + b);
            && SameLists(grouped.entries, direct.entries) && grouped.roots == direct.roots
            && grouped.counts == direct.counts
  {
    GroupedEntries(a, b);
    GroupedRoots(a, b);
    SameEntryCounts(Merged([Merged(a)] + b).entries, Merged(a + b).entries);
  }

  lemma {:induction false} GroupedGate(a: seq<Inventory>, b: seq<Inventory>)
    requires a != [] && Merged([Merged(a)] + b).counts == Merged(a + b).counts
    ensures Merged([Merged(a)] + b).gate.passed <==> Merged(a + b).gate.passed && Merged(a).gate.passed
  {
    GroupedFlags(a, b);
    GatePasses([Merged(a)] + b);
    GatePasses(a + b);
    GroupedReasons(a, b);
  }

  lemma {:induction false} GroupedReasons(a: seq<Inventory>, b: seq<Inventory>)
    ensures ShardReasons([Merged(a)] + b) <==> !Merged(a).gate.passed || ShardReasons(b)
    ensures ShardReasons(a + b) <==> ShardReasons(a) || ShardReasons(b)
    ensures Merged(a).gate.passed ==> !ShardReasons(a)
  {
    var m := Merged(a);
    GatePasses(a);
    NamedReasons(a);
    if !m.gate.passed {
      assert m in [m] + b && m.gate.reasons[0] in m.gate.reasons;
    }
    if ShardReasons(b) {
      var d, x :| d in b && x in d.gate.reasons && x != "";
      assert d in [m] + b && d in a + b;
    }
    if ShardReasons(a) {
      var d, x :| d in a && x in d.gate.reasons && x != "";
      assert d in a + b;
    }
  }

  /** A gate fails for named reasons only. */
  lemma {:induction false} NamedReasons(docs: seq<Inventory>)
    ensures Merged(docs).gate.passed <==> Merged(docs).gate.reasons == []
    ensures forall x :: x in Merged(docs).gate.reasons ==> x != ""
  {}

  // ---------------------------------------------------------------- verdicts

  /** An entry is obsolete exactly when no shard references or declares it. */
  lemma {:induction false} ObsoleteMeansUnused(docs: seq<Inventory>, e: Entry)
    requires e in Merged(docs).entries
    ensures e.status == Obsolete <==>
            forall d, x :: d in docs && x in d.entries && KeyOf(x) == KeyOf(e) ==> !x.referenced && !x.declared
  {
    var entries := FlatMap(docs, EntriesOf);
    MergedEntryAt(entries, e, KeyOf(e));
    JoinedAt(entries, KeyOf(e));
    forall x
      ensures x in entries <==> exists d :: d in docs && x in d.entries
    {
      FlatMapMember(docs, EntriesOf, x);
      if d :| d in docs && x in d.entries { assert x in EntriesOf(d); }
    }
    assert e.status == Obsolete <==> !Any(entries, KeyOf(e), IsReferenced) && !Any(entries, KeyOf(e), IsDeclared);
    if forall d, x :: d in docs && x in d.entries && KeyOf(x) == KeyOf(e) ==> !x.referenced && !x.declared {
      assert !Any(entries, KeyOf(e), IsReferenced) && !Any(entries, KeyOf(e), IsDeclared);
    }
    if e.status == Obsolete {
      forall d, x | d in docs && x in d.entries && KeyOf(x) == KeyOf(e)
        ensures !x.referenced && !x.declared
      {
        assert x in entries;
        assert IsReferenced(x) == x.referenced && IsDeclared(x) == x.declared;
      }
    }
  }

  lemma {:induction false} StatusPartition(entries: seq<Entry>)
    requires forall e :: e in entries ==> e.status != Unverified
    ensures Count(entries, HasStatus(Referenced)) + Count(entries, HasStatus(Missing))
            + Count(entries, HasStatus(Obsolete)) == |entries|
  {
    if entries != [] {
      assert entries[0] in entries;
      StatusPartition(entries[1..]);
    }
  }

  /** Every merged entry is counted under one status; unverified paths are carried from every shard. */
  lemma {:induction false} CountsAddUp(docs: seq<Inventory>)
    ensures var counts := Merged(docs).counts;
            && counts.referenced + counts.missing + counts.obsolete == |Merged(docs).entries|
            && counts.unverified == Sum(docs, UnverifiedOf)
  {
    StatusPartition(Merged(docs).entries);
  }

  lemma {:induction false} NoNames(names: seq<string>)
    ensures SortedNames(Elements(names)) == [] <==> names == []
  {
    SortedNamesSorted(Elements(names));
    NoElements(names);
  }

  /** Shards give reasons of their own. */
  ghost predicate ShardReasons(docs: seq<Inventory>) {
    exists d, x :: d in docs && x in d.gate.reasons && x != ""
  }

  lemma {:induction false} ReasonsCollected(docs: seq<Inventory>)
    ensures Reasons(FlatMap(docs, GateReasonsOf)) != [] <==> ShardReasons(docs)
  {
    var reasons := Reasons(FlatMap(docs, GateReasonsOf));
    if reasons != [] {
      var x := reasons[0];
      assert x in reasons;
      FlatMapMember(docs, GateReasonsOf, x);
    }
    if ShardReasons(docs) {
      var d, x :| d in docs && x in d.gate.reasons && x != "";
      FlatMapMember(docs, GateReasonsOf, x);
      assert x in GateReasonsOf(d);
      assert x in reasons;
    }
  }

  /** When the merged gate passes. */
  lemma {:induction false} GatePasses(docs: seq<Inventory>)
    ensures var m := Merged(docs);
            m.gate.passed <==>
              && !ShardReasons(docs)
              && (m.gate.enabled ==> m.complete && m.counts.missing == 0 && m.counts.obsolete == 0 && m.counts.unsafe == 0)
  {
    var m := Merged(docs);
    ReasonsCollected(docs);
    var all := Reasons(FlatMap(docs, GateReasonsOf))
      + If(m.gate.enabled && !m.complete, "incomplete-snapshot-inventory")
      + If(m.gate.enabled && m.counts.missing > 0, "missing-snapshots")
      + If(m.gate.enabled && m.counts.obsolete > 0, "obsolete-snapshots")
      + If(m.gate.enabled && m.counts.unsafe > 0, "unsafe-snapshot-paths");
    assert m.gate.reasons == SortedNames(Elements(all));
    NoNames(all);
  }

  /** No shard keeps a root that is a symbolic link. */
  ghost predicate NoLinks(docs: seq<Inventory>) {
    forall d, k :: d in docs && k in Kept(d) ==> !Kept(d)[k].symlink
  }

  /** Shards that keep a root under one key agree on whether it is a symbolic link. */
  ghost predicate LinksAgree(docs: seq<Inventory>) {
    forall d, e, k :: d in docs && e in docs && k in Kept(d) && k in Kept(e) ==> Kept(d)[k].symlink == Kept(e)[k].symlink
  }

  /** An enabled gate that passes is evidence about every shard, entry and kept root; that no shard kept a
      symbolic link follows if and only if the shards agree about links. */
  lemma {:induction false} PassedGateIsClean(docs: seq<Inventory>)
    requires Merged(docs).gate.enabled && Merged(docs).gate.passed
    ensures docs != [] && forall d :: d in docs ==> d.enabled && d.complete
    ensures forall e :: e in Merged(docs).entries ==> e.status == Referenced && e.stored && !e.unsafe
    ensures forall r :: r in Merged(docs).roots ==> !r.symlink
    ensures NoLinks(docs) <==> LinksAgree(docs)
  {
    var m := Merged(docs);
    GatePasses(docs);
    NoneCounted(m.entries, HasStatus(Missing));
    NoneCounted(m.entries, HasStatus(Obsolete));
    NoneCounted(m.entries, IsUnsafe);
    NoneCounted(m.roots, IsSymlink);
    forall e | e in m.entries
      ensures e.status == Referenced && e.stored && !e.unsafe
    {
      MergedEntryAt(FlatMap(docs, EntriesOf), e, KeyOf(e));
      assert !HasStatus(Missing)(e) && !HasStatus(Obsolete)(e) && !IsUnsafe(e);
    }
    forall r | r in m.roots
      ensures !r.symlink
    {
      assert !IsSymlink(r);
    }
    if LinksAgree(docs) {
      forall d, k | d in docs && k in Kept(d)
        ensures !Kept(d)[k].symlink
      {
        var e := MergedRootOf(docs, d, k);
      }
    }
  }

  /** The shard whose root of that key is the merged one. */
  lemma {:induction false} MergedRootOf(docs: seq<Inventory>, d: Inventory, k: Key) returns (e: Inventory)
    requires d in docs && k in Kept(d)
    ensures e in docs && k in Kept(e) && Kept(e)[k] in Merged(docs).roots
  {
    SomeShardKeeps(docs, k);
    InKeyOrderLists(RootsTogether(docs));
    e :| e in docs && k in Kept(e) && RootsTogether(docs)[k] == Kept(e)[k];
  }

  /** Without that agreement a symbolic link goes unseen: a shard that only audits counts it as unsafe,
      but a gated shard's plain copy of the root replaces it, and the merged gate passes. */
  lemma {:induction false} ReplacedLinkGoesUnseen() returns (a: Inventory, b: Inventory)
    ensures SoundInventory(a) && SoundInventory(b)
    ensures Merged([a, b]).gate.enabled && Merged([a, b]).gate.passed
    ensures !NoLinks([a, b])
  {
    a, b := Auditing(Link()), Gated([Plain()]);
    OneRootInventories();
    LinkHidden(a, b, Link(), Plain());
  }

  lemma {:induction false} LinkHidden(a: Inventory, b: Inventory, link: Root, plain: Root)
    requires Quiet(a) && Quiet(b) && b.gate.enabled && RootKey(link) == RootKey(plain)
    requires Kept(a) == map[RootKey(link) := link] && Kept(b) == map[RootKey(plain) := plain]
    requires link.symlink && !plain.symlink
    ensures Merged([a, b]).gate.enabled && Merged([a, b]).gate.passed && !NoLinks([a, b])
  {
    LaterRoot(a, b, plain);
    QuietShardsPass([a, b], b);
    assert a in [a, b];
    LinkKept([a, b], a, RootKey(link));
  }

  lemma {:induction false} LinkKept(docs: seq<Inventory>, d: Inventory, k: Key)
    requires d in docs && k in Kept(d) && Kept(d)[k].symlink
    ensures !NoLinks(docs)
  {}

  function Link(): Root { Root("text", "/s", true, "") }

  function Plain(): Root { Root("text", "/s", false, "") }

  /** A complete audit of one linked root, without a gate. */
  function Auditing(link: Root): Inventory {
    Inventory(true, true, [], [link], [], Counts(0, 0, 0, 0, 1, 0, 0), Gate(false, true, []))
  }

  /** A complete audit without entries, whose gate is enabled and passes. */
  function Gated(roots: seq<Root>): Inventory {
    Inventory(true, true, [], roots, [], Counts(0, 0, 0, 0, 0, 0, 0), Gate(true, true, []))
  }

  lemma {:induction false} OneRootInventories()
    ensures RootKey(Link()) == RootKey(Plain())
    ensures Kept(Auditing(Link())) == map[RootKey(Link()) := Link()]
    ensures Kept(Gated([Plain()])) == map[RootKey(Plain()) := Plain()] && Kept(Gated([])) == map[]
    ensures SoundInventory(Auditing(Link())) && SoundInventory(Gated([Plain()])) && SoundInventory(Gated([]))
  {
    assert [Link()][..0] == [] && [Plain()][..0] == [];
  }

  /** The gate of a merge in groups keeps what the group alone missed: here a linked root whose plain copy
      comes from a later shard. Merged at once, the same shards pass. */
  lemma {:induction false} GroupGateRemembers() returns (a: seq<Inventory>, b: seq<Inventory>)
    ensures a != [] && forall d :: d in a + b ==> SoundInventory(d)
    ensures Merged(a + b).gate.enabled && Merged(a + b).gate.passed
    ensures !Merged([Merged(a)] + b).gate.passed
  {
    var d, link, plain;
    a, b, d, link, plain := AuditedGroup();
    GroupFails(a, d, link);
    DirectPasses(a + b, d, plain);
    GroupStaysFailed(a, b);
  }

  /** An audit of a linked root and a gated shard without roots; then a gated shard with a plain copy. */
  lemma {:induction false} AuditedGroup()
    returns (a: seq<Inventory>, b: seq<Inventory>, d: Inventory, link: Root, plain: Root)
    ensures a != [] && forall e :: e in a + b ==> SoundInventory(e) && Quiet(e)
    ensures d in a && d.gate.enabled && link.symlink && !plain.symlink
    ensures RootsTogether(a) == map[RootKey(link) := link] && RootsTogether(a + b) == map[RootKey(plain) := plain]
  {
    link, plain := Link(), Plain();
    var x, z := Auditing(link), Gated([plain]);
    d := Gated([]);
    a, b := [x, d], [z];
    OneRootInventories();
    RootsOfThree(x, d, z);
  }

  lemma {:induction false} GroupFails(docs: seq<Inventory>, d: Inventory, link: Root)
    requires (forall e :: e in docs ==> Quiet(e)) && d in docs && d.gate.enabled && link.symlink
    requires RootsTogether(docs) == map[RootKey(link) := link]
    ensures !Merged(docs).gate.passed
  {
    SingleRoot(docs, link);
    GatePasses(docs);
  }

  lemma {:induction false} DirectPasses(docs: seq<Inventory>, d: Inventory, plain: Root)
    requires (forall e :: e in docs ==> Quiet(e)) && d in docs && d.gate.enabled && !plain.symlink
    requires RootsTogether(docs) == map[RootKey(plain) := plain]
    ensures Merged(docs).gate.enabled && Merged(docs).gate.passed
  {
    SingleRoot(docs, plain);
    QuietShardsPass(docs, d);
  }

  lemma {:induction false} GroupStaysFailed(a: seq<Inventory>, b: seq<Inventory>)
    requires a != [] && !Merged(a).gate.passed
    ensures !Merged([Merged(a)] + b).gate.passed
  {
    GroupingIgnored(a, b);
  }

  lemma {:induction false} RootsOfThree(x: Inventory, y: Inventory, z: Inventory)
    requires Kept(y) == map[] && Kept(x).Keys == Kept(z).Keys
    ensures RootsTogether([x, y]) == Kept(x) && RootsTogether([x, y] + [z]) == Kept(z)
  {
    RootsSnoc([], x);
    RootsSnoc([x], y);
    RootsSnoc([x, y], z);
    assert [] + [x] == [x] && [x] + [y] == [x, y];
  }

  lemma {:induction false} SingleRoot(docs: seq<Inventory>, r: Root)
    requires (forall d :: d in docs ==> d.entries == []) && RootsTogether(docs) == map[RootKey(r) := r]
    ensures Merged(docs).counts.unsafe == if r.symlink then 1 else 0
  {
    NoEntries(docs);
    OnlyOne(RootKey(r), r);
    assert Count([r], IsSymlink) == if r.symlink then 1 else 0;
  }

  // ---------------------------------------------------------------- the shards' own gates

  /** What a shard writes: statuses by the rule once it is complete, and a gate that passes exactly without
      reasons, an enabled one exactly when the inventory is complete and clean. */
  ghost predicate SoundInventory(d: Inventory) {
    && (d.complete ==> forall e :: e in d.entries ==> e.status == StatusOf(e))
    && (d.gate.passed <==> d.gate.reasons == []) && (forall x :: x in d.gate.reasons ==> x != "")
    && (d.gate.enabled ==> (d.gate.passed <==> d.complete && Clean(d)))
  }

  ghost predicate Clean(d: Inventory) {
    && (forall e :: e in d.entries ==> e.status != Missing && e.status != Obsolete && !e.unsafe)
    && (forall r :: r in d.roots ==> !r.symlink)
  }

  /** With all gates enabled, the merged gate passes exactly when every shard's own gate does. */
  lemma {:induction false} ShardGatesDecide(docs: seq<Inventory>)
    requires docs != [] && forall d :: d in docs ==> SoundInventory(d) && d.enabled && d.gate.enabled
    ensures Merged(docs).gate.passed <==> forall d :: d in docs ==> d.gate.passed
  {
    GatePasses(docs);
    assert docs[0] in docs;
    if forall d :: d in docs ==> d.gate.passed {
      assert forall d :: d in docs ==> SoundInventory(d) && d.complete && Clean(d);
      CleanEntries(docs);
      CleanRoots(docs);
      QuietShards(docs);
    }
    if Merged(docs).gate.passed {
      forall d | d in docs
        ensures d.gate.passed
      {
        assert SoundInventory(d);
        NoReasons(docs, d);
      }
    }
  }

  lemma {:induction false} NoReasons(docs: seq<Inventory>, d: Inventory)
    requires d in docs && !ShardReasons(docs) && forall x :: x in d.gate.reasons ==> x != ""
    ensures d.gate.reasons == []
  {
    assert forall x :: x !in d.gate.reasons;
    NoElements(d.gate.reasons);
  }

  lemma {:induction false} CleanEntries(docs: seq<Inventory>)
    requires forall d :: d in docs ==> SoundInventory(d) && d.complete && Clean(d)
    ensures Merged(docs).counts.missing == 0 && Merged(docs).counts.obsolete == 0
    ensures Count(Merged(docs).entries, IsUnsafe) == 0
  {
    var entries := FlatMap(docs, EntriesOf);
    forall e | e in entries
      ensures e.stored && (e.referenced || e.declared) && !e.unsafe
    {
      FlatMapMember(docs, EntriesOf, e);
      var d :| d in docs && e in EntriesOf(d);
      assert SoundInventory(d) && Clean(d);
    }
    forall e | e in Merged(docs).entries
      ensures e.status == Referenced && !e.unsafe
    {
      CleanEntry(entries, e);
    }
    NoneCounted(Merged(docs).entries, HasStatus(Missing));
    NoneCounted(Merged(docs).entries, HasStatus(Obsolete));
    NoneCounted(Merged(docs).entries, IsUnsafe);
  }

  lemma {:induction false} CleanEntry(entries: seq<Entry>, e: Entry)
    requires forall x :: x in entries ==> x.stored && (x.referenced || x.declared) && !x.unsafe
    requires e in EntryList(entries)
    ensures e.status == Referenced && !e.unsafe
  {
    var k := KeyOf(e);
    MergedEntryAt(entries, e, k);
    JoinedAt(entries, k);
    var x :| x in entries && KeyOf(x) == k;
    assert IsStored(x) && (IsReferenced(x) || IsDeclared(x));
    assert Any(entries, k, IsStored) && (Any(entries, k, IsReferenced) || Any(entries, k, IsDeclared));
  }

  lemma {:induction false} CleanRoots(docs: seq<Inventory>)
    requires forall d :: d in docs ==> Clean(d)
    ensures Count(Merged(docs).roots, IsSymlink) == 0
  {
    InKeyOrderLists(RootsTogether(docs));
    forall r | r in Merged(docs).roots
      ensures !r.symlink
    {
      var k :| k in RootsTogether(docs) && RootsTogether(docs)[k] == r;
      SomeShardKeeps(docs, k);
      var d :| d in docs && k in Kept(d) && RootsTogether(docs)[k] == Kept(d)[k];
      LastRootAt(d.roots, k);
      assert Clean(d);
    }
    NoneCounted(Merged(docs).roots, IsSymlink);
  }

  /** A complete inventory without entries and without reasons against it. */
  predicate Quiet(d: Inventory) {
    d.enabled && d.complete && d.entries == [] && d.gate.reasons == []
  }

  lemma {:induction false} QuietShardsPass(docs: seq<Inventory>, d: Inventory)
    requires d in docs && d.gate.enabled && Merged(docs).counts.unsafe == 0
    requires forall e :: e in docs ==> Quiet(e)
    ensures Merged(docs).gate.enabled && Merged(docs).gate.passed
  {
    NoEntries(docs);
    QuietShards(docs);
    GatePasses(docs);
    QuietGate(docs, d);
  }

  lemma {:induction false} QuietGate(docs: seq<Inventory>, d: Inventory)
    requires d in docs && d.gate.enabled && forall e :: e in docs ==> e.enabled && e.complete
    ensures Merged(docs).gate.enabled && Merged(docs).complete
  {}

  lemma {:induction false} NoEntries(docs: seq<Inventory>)
    requires forall d :: d in docs ==> d.entries == []
    ensures Merged(docs).entries == [] && Merged(docs).counts.missing == 0 && Merged(docs).counts.obsolete == 0
  {
    NothingFlat(docs);
    InKeyOrderLists<Entry>(map[]);
  }

  lemma {:induction false} NothingFlat(docs: seq<Inventory>)
    requires forall d :: d in docs ==> d.entries == []
    ensures FlatMap(docs, EntriesOf) == []
  {
    if docs != [] {
      assert docs[0] in docs;
      NothingFlat(docs[1..]);
    }
  }

  lemma {:induction false} QuietShards(docs: seq<Inventory>)
    requires forall d :: d in docs ==> d.gate.reasons == []
    ensures !ShardReasons(docs)
  {}
}
