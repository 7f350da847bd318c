/** Merging checked records gives records of the checked shape. */
module CoverageShape {
  import opened Seqs
  import opened Records
  import opened Flattening
  import opened CoverageContract

  // ---------------------------------------------------------------- hits

  lemma {:induction false} AllCounted(items: seq<Rec>)
    requires items != [] && All(items, HitOk)
    ensures TotalHits(items).Some?
    ensures (forall r :: r in items ==> r.hits.value == 0) ==> TotalHits(items).value == 0
  {
    assert items[0] in items;
    if |items| > 1 {
      AllCounted(items[1..]);
    }
  }

  lemma {:induction false} MergedHitOk(items: seq<Rec>, kind: Kind)
    requires items != [] && All(items, HitOk)
    ensures HitOk(MergedGroup(items, kind))
    ensures (forall r :: r in items ==> r.hits.value == 0) ==> MergedGroup(items, kind).hits.value == 0
  {
    AllCounted(items);
  }

  /** What a merged record inherits: it is merged from input records of its key with one metadata. */
  lemma {:induction false} Origin(rs: seq<Rec>, kind: Kind, m: Rec) returns (items: seq<Rec>)
    requires Consistent(rs, kind) && m in Merged(rs, kind)
    ensures items != [] && items == Group(rs, KeyOf(m)) && m == MergedGroup(items, kind)
    ensures ConsistentGroup(items, kind)
    ensures forall r :: r in items ==> r in rs && r.meta == m.meta
  {
    MergedMember(rs, kind, m);
    items := Group(rs, KeyOf(m));
    forall r | r in items
      ensures r in rs && r.meta == m.meta
    {
      GroupMember(rs, KeyOf(m), r);
      var i :| 0 <= i < |items| && items[i] == r;
      assert items[i].meta == items[0].meta;
    }
  }

  // ---------------------------------------------------------------- leaves

  lemma {:induction false} MergedLines(rs: seq<Rec>)
    requires Consistent(rs, LeafKind) && All(rs, LineOk)
    ensures All(Merged(rs, LeafKind), LineOk)
  {
    forall m | m in Merged(rs, LeafKind)
      ensures LineOk(m)
    {
      var items := Origin(rs, LeafKind, m);
      assert LineOk(items[0]);
      MergedHitOk(items, LeafKind);
    }
  }

  lemma {:induction false} MergedSites(rs: seq<Rec>)
    requires Consistent(rs, LeafKind) && All(rs, SiteOk)
    ensures All(Merged(rs, LeafKind), SiteOk)
  {
    forall m | m in Merged(rs, LeafKind)
      ensures SiteOk(m)
    {
      var items := Origin(rs, LeafKind, m);
      assert SiteOk(items[0]);
      MergedHitOk(items, LeafKind);
    }
  }

  // ---------------------------------------------------------------- branches

  /** Every copy of a branch lists the same edges. */
  ghost predicate SameEdges(branches: seq<Rec>) {
    forall x, y :: x in branches && y in branches && KeyOf(x) == KeyOf(y) ==> Keys(Kids(x, Edges)) == Keys(Kids(y, Edges))
  }

  lemma {:induction false} EdgeKeys(items: seq<Rec>, ks: set<Key>)
    requires forall b :: b in items ==> Keys(Kids(b, Edges)) == ks
    ensures items != [] ==> Keys(KidsOf(items, Edges)) == ks
  {
    if |items| == 1 {
      assert items == [items[0]];
      KidsOfOne(items[0], Edges);
      assert items[0] in items;
    } else if |items| > 1 {
      assert items[0] in items;
      EdgeKeys(items[1..], ks);
      KeysAppend(Kids(items[0], Edges), KidsOf(items[1..], Edges));
    }
  }

  lemma {:induction false} MergedEdge(edges: seq<Rec>, instrumented: bool, e: Rec)
    requires Consistent(edges, LeafKind) && forall x :: x in edges ==> EdgeOk(x, instrumented)
    requires e in Merged(edges, LeafKind)
    ensures EdgeOk(e, instrumented)
    ensures forall x :: x in edges && KeyOf(x) == KeyOf(e) ==> x.meta == e.meta
  {
    var items := Origin(edges, LeafKind, e);
    assert EdgeOk(items[0], instrumented);
    assert All(items, HitOk);
    MergedHitOk(items, LeafKind);
    forall x | x in edges && KeyOf(x) == KeyOf(e)
      ensures x.meta == e.meta
    {
      GroupMember(edges, KeyOf(e), x);
    }
  }

  /** Two true/false edges with their own identities. */
  predicate EdgePair(es: seq<Rec>, instrumented: bool) {
    && |es| == 2
    && EdgeOk(es[0], instrumented) && EdgeOk(es[1], instrumented)
    && es[0].meta.index != es[1].meta.index
    && es[0].meta.edgeId != es[1].meta.edgeId
  }

  /** A list with the keys and metadata of an edge pair is one. */
  lemma {:induction false} PairFromKeys(es: seq<Rec>, e0: Rec, e1: Rec, instrumented: bool)
    requires |es| == 2 && EdgeOk(es[0], instrumented) && EdgeOk(es[1], instrumented)
    requires e0.meta.EdgeMeta? && e1.meta.EdgeMeta?
    requires e0.meta.index != e1.meta.index && e0.meta.edgeId != e1.meta.edgeId
    requires KeyOf(es[0]) != KeyOf(es[1])
    requires forall i :: 0 <= i < 2 ==> es[i].meta == e0.meta || es[i].meta == e1.meta
    ensures EdgePair(es, instrumented)
  {}

  /** Copies of one pair of edges merge to one pair of edges. */
  lemma {:induction false} MergedEdgePair(edges: seq<Rec>, instrumented: bool, e0: Rec, e1: Rec)
    requires Consistent(edges, LeafKind) && forall x :: x in edges ==> EdgeOk(x, instrumented)
    requires e0 in edges && e1 in edges && Keys(edges) == {KeyOf(e0), KeyOf(e1)}
    requires e0.meta.EdgeMeta? && e1.meta.EdgeMeta?
    requires e0.meta.index != e1.meta.index && e0.meta.edgeId != e1.meta.edgeId && KeyOf(e0) != KeyOf(e1)
    ensures EdgePair(Merged(edges, LeafKind), instrumented)
  {
    var merged := Merged(edges, LeafKind);
    TwoMerged(edges, e0, e1);
    forall i | 0 <= i < 2
      ensures EdgeOk(merged[i], instrumented) && (merged[i].meta == e0.meta || merged[i].meta == e1.meta)
    {
      MergedEdgeOf(edges, instrumented, e0, e1, merged[i]);
    }
    PairFromKeys(merged, e0, e1, instrumented);
  }

  lemma {:induction false} MergedEdgeOf(edges: seq<Rec>, instrumented: bool, e0: Rec, e1: Rec, e: Rec)
    requires Consistent(edges, LeafKind) && forall x :: x in edges ==> EdgeOk(x, instrumented)
    requires e0 in edges && e1 in edges && Keys(edges) == {KeyOf(e0), KeyOf(e1)}
    requires e in Merged(edges, LeafKind)
    ensures EdgeOk(e, instrumented) && (e.meta == e0.meta || e.meta == e1.meta)
  {
    MergedMember(edges, LeafKind, e);
    MergedEdge(edges, instrumented, e);
  }

  lemma {:induction false} TwoMerged(edges: seq<Rec>, e0: Rec, e1: Rec)
    requires Keys(edges) == {KeyOf(e0), KeyOf(e1)} && KeyOf(e0) != KeyOf(e1)
    ensures var merged := Merged(edges, LeafKind); |merged| == 2 && KeyOf(merged[0]) != KeyOf(merged[1])
  {
    SortedKeysSorted(edges);
    MergedKeys(edges, LeafKind);
    assert |{KeyOf(e0), KeyOf(e1)}| == 2;
  }

  lemma {:induction false} MergedBranch(items: seq<Rec>)
    requires items != [] && ConsistentGroup(items, BranchKind) && All(items, BranchShape)
    requires forall b :: b in items ==> Keys(Kids(b, Edges)) == Keys(Kids(items[0], Edges))
    ensures BranchShape(MergedGroup(items, BranchKind))
  {
    var b := items[0];
    assert BranchShape(b);
    var e0, e1 := Kids(b, Edges)[0], Kids(b, Edges)[1];
    var edges := KidsOf(items, Edges);
    PairKeys(Kids(b, Edges));
    EdgeKeys(items, Keys(Kids(b, Edges)));
    EdgesOfCopies(items, b.meta.instrumented);
    assert e0 in edges && e1 in edges by {
      FlatMapMember(items, KidsAt(Edges), e0);
      FlatMapMember(items, KidsAt(Edges), e1);
      assert b in items && e0 in KidsAt(Edges)(b) && e1 in KidsAt(Edges)(b);
    }
    assert KeyOf(e0) != KeyOf(e1);
    MergedEdgePair(edges, b.meta.instrumented, e0, e1);
    ShapeFromPair(items);
  }

  lemma {:induction false} ShapeFromPair(items: seq<Rec>)
    requires items != [] && BranchShape(items[0])
    requires EdgePair(Merged(KidsOf(items, Edges), LeafKind), items[0].meta.instrumented)
    ensures BranchShape(MergedGroup(items, BranchKind))
  {
    MergedKidsAt(items, BranchKind, Edges);
  }

  lemma {:induction false} PairKeys(es: seq<Rec>)
    requires |es| == 2
    ensures Keys(es) == {KeyOf(es[0]), KeyOf(es[1])}
  {
    assert es == [es[0], es[1]];
    assert es[0] in es && es[1] in es;
  }

  lemma {:induction false} EdgesOfCopies(items: seq<Rec>, instrumented: bool)
    requires items != [] && ConsistentGroup(items, BranchKind) && All(items, BranchShape)
    requires items[0].meta.BranchMeta? && items[0].meta.instrumented == instrumented
    ensures Consistent(KidsOf(items, Edges), LeafKind)
    ensures forall x :: x in KidsOf(items, Edges) ==> EdgeOk(x, instrumented)
  {
    assert Edges in Slots(BranchKind);
    forall x | x in KidsOf(items, Edges)
      ensures EdgeOk(x, instrumented)
    {
      FlatMapMember(items, KidsAt(Edges), x);
      var b :| b in items && x in KidsAt(Edges)(b);
      SameMetaMember(items, b);
      EdgeOfBranch(b, x);
    }
  }

  lemma {:induction false} SameMetaMember(items: seq<Rec>, b: Rec)
    requires items != [] && SameMeta(items) && b in items
    ensures b.meta == items[0].meta
  {
    var i :| 0 <= i < |items| && items[i] == b;
    assert items[i].meta == items[0].meta;
  }

  lemma {:induction false} EdgeOfBranch(b: Rec, x: Rec)
    requires BranchShape(b) && x in Kids(b, Edges)
    ensures EdgeOk(x, b.meta.instrumented)
  {}

  lemma {:induction false} MergedBranches(rs: seq<Rec>)
    requires Consistent(rs, BranchKind) && All(rs, BranchShape) && SameEdges(rs)
    ensures All(Merged(rs, BranchKind), BranchShape)
  {
    forall m | m in Merged(rs, BranchKind)
      ensures BranchShape(m)
    {
      var items := Origin(rs, BranchKind, m);
      assert items[0] in items;
      forall b | b in items
        ensures Keys(Kids(b, Edges)) == Keys(Kids(items[0], Edges))
      {
        GroupMember(rs, KeyOf(m), b);
        GroupMember(rs, KeyOf(m), items[0]);
      }
      MergedBranch(items);
    }
  }

  // ---------------------------------------------------------------- functions

  /** No function lists a site or branch twice. */
  ghost predicate ListsOnce(fn: Rec) {
    DistinctKeys(Kids(fn, Sites)) && DistinctKeys(Kids(fn, Branches))
  }

  lemma {:induction false} AllChildren(parents: seq<Rec>, slot: Slot, q: Rec -> bool)
    requires forall f :: f in parents ==> All(Kids(f, slot), q)
    ensures All(KidsOf(parents, slot), q)
  {
    forall r | r in KidsOf(parents, slot)
      ensures q(r)
    {
      FlatMapMember(parents, KidsAt(slot), r);
      var f :| f in parents && r in KidsAt(slot)(f);
    }
  }

  lemma {:induction false} MergedFunction(items: seq<Rec>)
    requires items != [] && ConsistentGroup(items, FunctionKind) && All(items, FunctionShape)
    requires SameEdges(KidsOf(items, Branches))
    ensures FunctionShape(MergedGroup(items, FunctionKind))
    ensures ListsOnce(MergedGroup(items, FunctionKind))
  {
    assert FunctionShape(items[0]);
    assert All(items, HitOk) by { assert forall f :: f in items ==> FunctionShape(f); }
    MergedHitOk(items, FunctionKind);
    FunctionLists(items);
    MergedLineList(items, FunctionKind, Statements);
    MergedSiteList(items, FunctionKind, Sites);
    MergedBranchList(items, FunctionKind, Branches);
    FunctionFromLists(items[0], MergedGroup(items, FunctionKind));
  }

  lemma {:induction false} MergedLineList(items: seq<Rec>, kind: Kind, slot: Slot)
    requires items != [] && ConsistentGroup(items, kind) && slot in Slots(kind) && ChildKind(slot) == LeafKind
    requires All(KidsOf(items, slot), LineOk)
    ensures var m := MergedGroup(items, kind); DistinctKeys(Kids(m, slot)) && All(Kids(m, slot), LineOk)
  {
    MergedLines(KidsOf(items, slot));
    MergedKeys(KidsOf(items, slot), LeafKind);
    MergedKidsAt(items, kind, slot);
  }

  lemma {:induction false} MergedSiteList(items: seq<Rec>, kind: Kind, slot: Slot)
    requires items != [] && ConsistentGroup(items, kind) && slot in Slots(kind) && ChildKind(slot) == LeafKind
    requires All(KidsOf(items, slot), SiteOk)
    ensures var m := MergedGroup(items, kind); DistinctKeys(Kids(m, slot)) && All(Kids(m, slot), SiteOk)
  {
    MergedSites(KidsOf(items, slot));
    MergedKeys(KidsOf(items, slot), LeafKind);
    MergedKidsAt(items, kind, slot);
  }

  lemma {:induction false} MergedBranchList(items: seq<Rec>, kind: Kind, slot: Slot)
    requires items != [] && ConsistentGroup(items, kind) && slot in Slots(kind) && ChildKind(slot) == BranchKind
    requires All(KidsOf(items, slot), BranchShape) && SameEdges(KidsOf(items, slot))
    ensures var m := MergedGroup(items, kind); DistinctKeys(Kids(m, slot)) && All(Kids(m, slot), BranchShape)
  {
    MergedBranches(KidsOf(items, slot));
    MergedKeys(KidsOf(items, slot), BranchKind);
    MergedKidsAt(items, kind, slot);
  }

  lemma {:induction false} MergedFunctionList(items: seq<Rec>)
    requires items != [] && ConsistentGroup(items, FileKind)
    requires All(KidsOf(items, Functions), FunctionShape) && SameEdges(KidsOf(KidsOf(items, Functions), Branches))
    ensures var m := MergedGroup(items, FileKind);
            DistinctKeys(Kids(m, Functions)) && All(Kids(m, Functions), FunctionShape)
  {
    assert Functions in Slots(FileKind);
    MergedFunctions(KidsOf(items, Functions));
    MergedKeys(KidsOf(items, Functions), FunctionKind);
    MergedKidsAt(items, FileKind, Functions);
  }

  lemma {:induction false} FunctionLists(items: seq<Rec>)
    requires All(items, FunctionShape)
    ensures All(KidsOf(items, Statements), LineOk)
    ensures All(KidsOf(items, Sites), SiteOk)
    ensures All(KidsOf(items, Branches), BranchShape)
  {
    AllChildren(items, Statements, LineOk);
    AllChildren(items, Sites, SiteOk);
    AllChildren(items, Branches, BranchShape);
  }

  lemma {:induction false} FunctionFromLists(f: Rec, m: Rec)
    requires FunctionShape(f) && m.meta == f.meta && HitOk(m)
    requires DistinctKeys(Kids(m, Statements)) && All(Kids(m, Statements), LineOk)
    requires DistinctKeys(Kids(m, Sites)) && All(Kids(m, Sites), SiteOk)
    requires DistinctKeys(Kids(m, Branches)) && All(Kids(m, Branches), BranchShape)
    ensures FunctionShape(m) && ListsOnce(m)
  {}

  lemma {:induction false} MergedFunctions(rs: seq<Rec>)
    requires Consistent(rs, FunctionKind) && All(rs, FunctionShape) && SameEdges(KidsOf(rs, Branches))
    ensures All(Merged(rs, FunctionKind), FunctionShape) && All(Merged(rs, FunctionKind), ListsOnce)
  {
    forall m | m in Merged(rs, FunctionKind)
      ensures FunctionShape(m) && ListsOnce(m)
    {
      var items := Origin(rs, FunctionKind, m);
      SubListEdges(items, rs);
      MergedFunction(items);
    }
  }

  lemma {:induction false} SubListEdges(items: seq<Rec>, rs: seq<Rec>)
    requires SameEdges(KidsOf(rs, Branches)) && forall r :: r in items ==> r in rs
    ensures SameEdges(KidsOf(items, Branches))
  {
    forall x | x in KidsOf(items, Branches)
      ensures x in KidsOf(rs, Branches)
    {
      FlatMapMember(items, KidsAt(Branches), x);
      FlatMapMember(rs, KidsAt(Branches), x);
    }
  }

  // ---------------------------------------------------------------- files

  lemma {:induction false} FileLists(files: seq<Rec>)
    requires All(files, FileShape)
    ensures All(KidsOf(files, Functions), FunctionShape)
    ensures All(KidsOf(files, Lines), LineOk)
    ensures All(KidsOf(files, Sites), SiteOk)
    ensures All(KidsOf(files, Branches), BranchShape)
  {
    AllChildren(files, Functions, FunctionShape);
    AllChildren(files, Lines, LineOk);
    AllChildren(files, Sites, SiteOk);
    AllChildren(files, Branches, BranchShape);
  }

  lemma {:induction false} MergedFile(files: seq<Rec>)
    requires files != [] && ConsistentGroup(files, FileKind) && All(files, FileShape)
    requires SameEdges(KidsOf(files, Branches)) && SameEdges(KidsOf(KidsOf(files, Functions), Branches))
    ensures FileShape(MergedGroup(files, FileKind))
  {
    var m := MergedGroup(files, FileKind);
    assert m.meta == files[0].meta && files[0].meta.FileMeta? && files[0].meta.path != "" by {
      assert FileShape(files[0]);
    }
    FileLists(files);
    FileSlots();
    assert DistinctKeys(Kids(m, Functions)) && All(Kids(m, Functions), FunctionShape) by { MergedFunctionList(files); }
    assert DistinctKeys(Kids(m, Lines)) && All(Kids(m, Lines), LineOk) by { MergedLineList(files, FileKind, Lines); }
    assert All(Kids(m, Sites), SiteOk) by { MergedSiteList(files, FileKind, Sites); }
    assert All(Kids(m, Branches), BranchShape) by { MergedBranchList(files, FileKind, Branches); }
    FileFromLists(m);
  }

  lemma {:induction false} FileSlots()
    ensures Functions in Slots(FileKind) && ChildKind(Functions) == FunctionKind
    ensures Lines in Slots(FileKind) && ChildKind(Lines) == LeafKind
    ensures Sites in Slots(FileKind) && ChildKind(Sites) == LeafKind
    ensures Branches in Slots(FileKind) && ChildKind(Branches) == BranchKind
  {}

  lemma {:induction false} FileFromLists(m: Rec)
    requires m.meta.FileMeta? && m.meta.path != ""
    requires DistinctKeys(Kids(m, Functions)) && All(Kids(m, Functions), FunctionShape)
    requires DistinctKeys(Kids(m, Lines)) && All(Kids(m, Lines), LineOk)
    requires All(Kids(m, Sites), SiteOk) && All(Kids(m, Branches), BranchShape)
    ensures FileShape(m)
  {}
}
