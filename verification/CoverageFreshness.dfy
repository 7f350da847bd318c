/** When the edge aggregates a merged branch inherits from the first shard are still right. */
module CoverageFreshness {
  import opened Seqs
  import opened Records
  import opened Flattening
  import opened CoverageContract
  import opened CoverageFile

  /** The edges of a branch that were taken. */
  function HitKeys(b: Rec): set<Key> { HitKeysOf(Kids(b, Edges)) }

  function HitKeysOf(es: seq<Rec>): set<Key> { set e | e in es && IsHit(e) :: KeyOf(e) }

  /** No later copy took an edge that the first copy missed. */
  ghost predicate FirstHitsAll(items: seq<Rec>)
    requires items != []
  {
    forall x :: x in items ==> HitKeys(x) <= HitKeys(items[0])
  }

  lemma {:induction false} CountIsHitKeys(es: seq<Rec>)
    requires DistinctKeys(es)
    ensures Count(es, IsHit) == |HitKeysOf(es)|
  {
    if es != [] {
      CountIsHitKeys(es[1..]);
      HeadHitKey(es);
    }
  }

  lemma {:induction false} HeadHitKey(es: seq<Rec>)
    requires es != [] && DistinctKeys(es)
    ensures KeyOf(es[0]) !in HitKeysOf(es[1..])
    ensures HitKeysOf(es) == (if IsHit(es[0]) then {KeyOf(es[0])} else {}) + HitKeysOf(es[1..])
  {
    forall e | e in es[1..]
      ensures KeyOf(e) != KeyOf(es[0])
    {
      var i :| 0 <= i < |es[1..]| && es[1..][i] == e;
      assert es[i + 1] == e;
    }
    assert es == [es[0]] + es[1..];
    assert es[0] in es;
  }

  lemma {:induction false} SomeHit(items: seq<Rec>)
    ensures Hit(TotalHits(items)) <==> exists x :: x in items && IsHit(x)
  {
    if items != [] {
      SomeHit(items[1..]);
      assert Hit(TotalHits(items)) <==> IsHit(items[0]) || Hit(TotalHits(items[1..]));
      HeadOrTail(items, IsHit);
    }
  }

  lemma {:induction false} HitMember(items: seq<Rec>) returns (y: Rec)
    requires Hit(TotalHits(items))
    ensures y in items && IsHit(y)
  {
    SomeHit(items);
    y :| y in items && IsHit(y);
  }

  /** Merging edges takes exactly the edges that some copy took. */
  lemma {:induction false} MergedEdgesHit(edges: seq<Rec>)
    ensures HitKeysOf(Merged(edges, LeafKind)) == HitKeysOf(edges)
  {
    forall e | e in Merged(edges, LeafKind) && IsHit(e)
      ensures KeyOf(e) in HitKeysOf(edges)
    {
      MergedMember(edges, LeafKind, e);
      var y := HitMember(Group(edges, KeyOf(e)));
      GroupMember(edges, KeyOf(e), y);
    }
    forall y | y in edges && IsHit(y)
      ensures KeyOf(y) in HitKeysOf(Merged(edges, LeafKind))
    {
      GroupMember(edges, KeyOf(y), y);
      SomeHit(Group(edges, KeyOf(y)));
      var e := MergedEdgeAt(edges, KeyOf(y));
    }
  }

  lemma {:induction false} MergedEdgeAt(edges: seq<Rec>, k: Key) returns (e: Rec)
    requires Group(edges, k) != []
    ensures e in Merged(edges, LeafKind) && KeyOf(e) == k && e.hits == TotalHits(Group(edges, k))
  {
    GroupOfKey(edges, k);
    GroupOfMerged(edges, LeafKind, k);
    e := MergedGroup(Group(edges, k), LeafKind);
    assert e in Group(Merged(edges, LeafKind), k);
    GroupMember(Merged(edges, LeafKind), k, e);
  }

  lemma {:induction false} HitInSomeCopy(items: seq<Rec>, k: Key)
    ensures k in HitKeysOf(KidsOf(items, Edges)) <==> exists x :: x in items && k in HitKeys(x)
  {
    if k in HitKeysOf(KidsOf(items, Edges)) {
      var y :| y in KidsOf(items, Edges) && IsHit(y) && KeyOf(y) == k;
      FlatMapMember(items, KidsAt(Edges), y);
      var x :| x in items && y in KidsAt(Edges)(x);
      assert k in HitKeys(x);
    }
    if x :| x in items && k in HitKeys(x) {
      var y :| y in Kids(x, Edges) && IsHit(y) && KeyOf(y) == k;
      FlatMapMember(items, KidsAt(Edges), y);
      assert y in KidsAt(Edges)(x);
    }
  }

  lemma {:induction false} MergedHitKeys(items: seq<Rec>)
    requires items != []
    ensures HitKeys(items[0]) <= HitKeys(MergedGroup(items, BranchKind))
    ensures HitKeys(MergedGroup(items, BranchKind)) == HitKeys(items[0]) <==> FirstHitsAll(items)
  {
    assert HitKeys(MergedGroup(items, BranchKind)) == HitKeysOf(KidsOf(items, Edges)) by {
      MergedKidsAt(items, BranchKind, Edges);
      MergedEdgesHit(KidsOf(items, Edges));
    }
    UnionOfCopies(items, HitKeysOf(KidsOf(items, Edges)));
  }

  lemma {:induction false} UnionOfCopies(items: seq<Rec>, all: set<Key>)
    requires items != [] && all == HitKeysOf(KidsOf(items, Edges))
    ensures HitKeys(items[0]) <= all
    ensures all == HitKeys(items[0]) <==> FirstHitsAll(items)
  {
    forall k
      ensures k in all <==> exists x :: x in items && k in HitKeys(x)
    {
      HitInSomeCopy(items, k);
    }
    assert items[0] in items;
  }

  lemma {:induction false} SubsetSameSize<T>(a: set<T>, b: set<T>)
    requires a <= b
    ensures |a| == |b| <==> a == b
  {
    assert b == a + (b - a);
    assert |b| == |a| + |b - a|;
  }

  lemma {:induction false} HitEdgesAreKeys(b: Rec)
    requires BranchShape(b)
    ensures HitEdges(b) == |HitKeys(b)|
    ensures !IsEligible(b) ==> HitEdges(b) == 0
  {
    CountIsHitKeys(Kids(b, Edges));
    if !IsEligible(b) { NoEdgeHit(b); }
  }

  /** The merge lets a branch inherit the first copy's aggregates; they are still right exactly when
      no later copy took an edge the first one missed. */
  lemma {:induction false} FreshAfterMerge(items: seq<Rec>)
    requires items != [] && BranchOk(items[0]) && BranchShape(MergedGroup(items, BranchKind))
    ensures BranchFresh(MergedGroup(items, BranchKind)) <==> FirstHitsAll(items)
  {
    MergedHitKeys(items);
    InheritedAggregates(items[0], MergedGroup(items, BranchKind));
  }

  lemma {:induction false} InheritedAggregates(b: Rec, m: Rec)
    requires BranchOk(b) && BranchShape(m) && m.meta == b.meta && m.derived == b.derived
    requires HitKeys(b) <= HitKeys(m)
    ensures BranchFresh(m) <==> HitKeys(m) == HitKeys(b)
  {
    HitEdgesAreKeys(b);
    HitEdgesAreKeys(m);
    SubsetSameSize(HitKeys(b), HitKeys(m));
  }
}
