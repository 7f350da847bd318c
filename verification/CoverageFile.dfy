/** A recomputed file against the checker's row and aggregate rules. */
module CoverageFile {
  import opened Seqs
  import opened Records
  import opened Flattening
  import opened CoverageContract
  import opened Recompute

  // ---------------------------------------------------------------- row maps

  lemma {:induction false} RowMapAt(rows: seq<Rec>, s: Key)
    ensures s in RowMap(rows) <==> Group(rows, s) != []
    ensures s in RowMap(rows) ==> RowMap(rows)[s] == Group(rows, s)[|Group(rows, s)| - 1]
  {
    if rows != [] {
      var last := |rows| - 1;
      RowMapAt(rows[..last], s);
      assert rows == rows[..last] + [rows[last]];
      FlatMapSnoc(rows[..last], rows[last], Pick(s));
    }
  }

  lemma {:induction false} SameGroupsSameMap(a: seq<Rec>, b: seq<Rec>)
    requires forall s :: Group(a, s) == Group(b, s)
    ensures RowMap(a) == RowMap(b)
  {
    forall s
      ensures s in RowMap(a) <==> s in RowMap(b)
      ensures s in RowMap(a) ==> RowMap(a)[s] == RowMap(b)[s]
    {
      RowMapAt(a, s);
      RowMapAt(b, s);
    }
  }

  lemma {:induction false} SingleGroup(rows: seq<Rec>, s: Key)
    requires DistinctKeys(rows)
    ensures |Group(rows, s)| <= 1
  {
    GroupOfKey(rows, s);
    if s in Keys(rows) {
      var r :| r in rows && KeyOf(r) == s;
      var i: nat :| i < |rows| && rows[i] == r;
      GroupOfDistinct(rows, i);
    }
  }

  lemma {:induction false} SameMapSameGroups(a: seq<Rec>, b: seq<Rec>, s: Key)
    requires RowMap(a) == RowMap(b)
    requires |Group(a, s)| <= 1 && |Group(b, s)| <= 1
    ensures Group(a, s) == Group(b, s)
  {
    RowMapAt(a, s);
    RowMapAt(b, s);
  }

  lemma {:induction false} SameGroupsSameRows(a: seq<Rec>, b: seq<Rec>, r: Rec)
    requires forall s :: Group(a, s) == Group(b, s)
    ensures r in a <==> r in b
  {
    GroupMember(a, KeyOf(r), r);
    GroupMember(b, KeyOf(r), r);
    assert Group(a, KeyOf(r)) == Group(b, KeyOf(r));
  }

  // ---------------------------------------------------------------- recomputing rows

  lemma {:induction false} BranchRecomputed(b: Rec)
    requires BranchShape(b)
    ensures BranchOk(RecomputeBranch(b))
    ensures BranchFresh(b) <==> RecomputeBranch(b) == b
  {
    assert Kids(RecomputeBranch(b), Edges) == Kids(b, Edges);
    assert HitEdges(RecomputeBranch(b)) == HitEdges(b);
    if !IsEligible(b) { NoEdgeHit(b); }
    if BranchFresh(b) {
      assert b.derived[EdgesFound := EdgeCountIfEligible(b)][EdgesHit := HitEdges(b)] == b.derived;
    }
    if RecomputeBranch(b) == b {
      assert Shows(RecomputeBranch(b), EdgesFound, EdgeCountIfEligible(b));
      assert Shows(RecomputeBranch(b), EdgesHit, HitEdges(b));
    }
  }

  lemma {:induction false} NoEdgeHit(b: Rec)
    requires BranchShape(b) && !IsEligible(b)
    ensures HitEdges(b) == 0
  {
    var es := Kids(b, Edges);
    assert Count(es, IsHit) == 0 by {
      assert es[1..][1..] == [];
      assert Count(es[1..][1..], IsHit) == 0;
      assert !IsHit(es[1..][0]) && !IsHit(es[0]);
    }
  }

  lemma {:induction false} FunctionRecomputed(f: Rec)
    requires FunctionShape(f)
    ensures var g := RecomputeFunction(f);
            && g.meta == f.meta && g.hits == f.hits && g.kids == f.kids && FunctionShape(g)
            && (FunctionOk(g) <==> All(Kids(f, Branches), BranchFresh))
  {
    RecomputedFunctionShape(f);
    if All(Kids(f, Branches), BranchFresh) { RecomputedFunctionCounts(f); }
  }

  lemma {:induction false} RecomputedFunctionShape(f: Rec)
    requires FunctionShape(f)
    ensures var g := RecomputeFunction(f);
            && (forall slot :: Kids(g, slot) == Kids(f, slot))
            && FunctionShape(g)
  {}

  lemma {:induction false} RecomputedFunctionCounts(f: Rec)
    requires All(Kids(f, Branches), BranchShape) && All(Kids(f, Branches), BranchFresh)
    ensures FunctionCounts(RecomputeFunction(f))
  {
    var branches := Kids(f, Branches);
    forall b | b in branches
      ensures EdgeCountIfEligible(b) == EdgesFoundIfEligible(b) && HitEdgesIfEligible(b) == EdgesHitIfEligible(b)
    {
      assert BranchShape(b) && BranchFresh(b);
    }
    SumSame(branches, EdgeCountIfEligible, EdgesFoundIfEligible);
    SumSame(branches, HitEdgesIfEligible, EdgesHitIfEligible);
    assert forall slot :: Kids(RecomputeFunction(f), slot) == Kids(f, slot);
  }

  lemma {:induction false} SameChildren(fs: seq<Rec>, g: Rec -> Rec, slot: Slot)
    requires forall f :: f in fs ==> Kids(g(f), slot) == Kids(f, slot)
    ensures KidsOf(Each(fs, g), slot) == KidsOf(fs, slot)
  {
    if fs != [] {
      assert fs[0] in fs;
      assert Each(fs, g)[1..] == Each(fs[1..], g);
      SameChildren(fs[1..], g, slot);
    }
  }

  lemma {:induction false} EachDistinct(rs: seq<Rec>, g: Rec -> Rec)
    requires DistinctKeys(rs) && forall r :: r in rs ==> KeyOf(g(r)) == KeyOf(r)
    ensures DistinctKeys(Each(rs, g))
  {
    var out := Each(rs, g);
    forall i, j | 0 <= i < j < |out|
      ensures KeyOf(out[i]) != KeyOf(out[j])
    {
      assert rs[i] in rs && rs[j] in rs;
    }
  }

  /** The branches embedded in the functions of a file. */
  function Embedded(f: Rec): seq<Rec> { KidsOf(Kids(f, Functions), Branches) }

  lemma {:induction false} EmbeddedBranch(f: Rec, fn: Rec, b: Rec)
    requires fn in Kids(f, Functions) && b in Kids(fn, Branches)
    ensures b in Embedded(f)
  {
    FlatMapMember(Kids(f, Functions), KidsAt(Branches), b);
    assert b in KidsAt(Branches)(fn);
  }

  lemma {:induction false} FunctionsRecomputed(f: Rec)
    requires FileShape(f)
    ensures var functions := Each(Kids(f, Functions), RecomputeFunction);
            && DistinctKeys(functions) && All(functions, FunctionShape)
            && (forall slot :: KidsOf(functions, slot) == KidsOf(Kids(f, Functions), slot))
            && (All(functions, FunctionOk) <==> All(Embedded(f), BranchFresh))
  {
    var fs := Kids(f, Functions);
    var functions := Each(fs, RecomputeFunction);
    forall fn | fn in fs
      ensures KeyOf(RecomputeFunction(fn)) == KeyOf(fn) && RecomputeFunction(fn).kids == fn.kids
      ensures FunctionShape(RecomputeFunction(fn))
      ensures FunctionOk(RecomputeFunction(fn)) <==> All(Kids(fn, Branches), BranchFresh)
    {
      assert FunctionShape(fn);
      FunctionRecomputed(fn);
    }
    EachDistinct(fs, RecomputeFunction);
    forall slot
      ensures KidsOf(functions, slot) == KidsOf(fs, slot)
    {
      SameChildren(fs, RecomputeFunction, slot);
    }
    EachMember(fs, RecomputeFunction);
    if All(Embedded(f), BranchFresh) {
      forall fn | fn in fs
        ensures FunctionOk(RecomputeFunction(fn))
      {
        forall b | b in Kids(fn, Branches)
          ensures BranchFresh(b)
        {
          EmbeddedBranch(f, fn, b);
        }
      }
    }
    if All(functions, FunctionOk) {
      forall b | b in Embedded(f)
        ensures BranchFresh(b)
      {
        FlatMapMember(fs, KidsAt(Branches), b);
        var fn :| fn in fs && b in KidsAt(Branches)(fn);
        assert FunctionOk(RecomputeFunction(fn));
      }
    }
  }

  lemma {:induction false} EachMember(rs: seq<Rec>, g: Rec -> Rec)
    ensures forall r :: r in rs ==> g(r) in Each(rs, g)
    ensures forall x :: x in Each(rs, g) ==> exists r :: r in rs && x == g(r)
  {
    forall r | r in rs
      ensures g(r) in Each(rs, g)
    {
      var i :| 0 <= i < |rs| && rs[i] == r;
      assert Each(rs, g)[i] == g(r);
    }
    forall x | x in Each(rs, g)
      ensures exists r :: r in rs && x == g(r)
    {
      var i :| 0 <= i < |rs| && Each(rs, g)[i] == x;
      assert rs[i] in rs && x == g(rs[i]);
    }
  }

  lemma {:induction false} BranchesRecomputed(branches: seq<Rec>)
    requires All(branches, BranchShape)
    ensures var out := Each(branches, RecomputeBranch);
            && All(out, BranchOk)
            && Sum(out, EdgeCountIfEligible) == Sum(out, EdgesFoundIfEligible)
            && Sum(out, HitEdgesIfEligible) == Sum(out, EdgesHitIfEligible)
            && (All(branches, BranchFresh) ==> out == branches)
  {
    var out := Each(branches, RecomputeBranch);
    forall i | 0 <= i < |branches|
      ensures BranchOk(out[i]) && (BranchFresh(branches[i]) ==> out[i] == branches[i])
    {
      assert branches[i] in branches;
      BranchRecomputed(branches[i]);
    }
    forall b | b in out
      ensures EdgeCountIfEligible(b) == EdgesFoundIfEligible(b) && HitEdgesIfEligible(b) == EdgesHitIfEligible(b)
    {
      assert BranchOk(b);
    }
    SumSame(out, EdgeCountIfEligible, EdgesFoundIfEligible);
    SumSame(out, HitEdgesIfEligible, EdgesHitIfEligible);
    if All(branches, BranchFresh) {
      assert forall i :: 0 <= i < |branches| ==> branches[i] in branches && out[i] == branches[i];
    }
  }

  /** The checker's table of the functions' lines is its table of the file's lines. */
  predicate LinesMatch(f: Rec) {
    RowMap(KidsOf(Kids(f, Functions), Statements)) == RowMap(Kids(f, Lines))
  }

  /** What recomputing a file does to its lists. */
  lemma {:induction false} RecomputedLists(f: Rec)
    ensures var g := RecomputeFile(f);
            && Kids(g, Functions) == Each(Kids(f, Functions), RecomputeFunction)
            && Kids(g, Branches) == Each(Kids(f, Branches), RecomputeBranch)
            && Kids(g, Lines) == Kids(f, Lines) && Kids(g, Sites) == Kids(f, Sites)
  {}

  lemma {:induction false} FreshBranchesStay(f: Rec)
    requires All(Kids(f, Branches), BranchShape) && FileViewsAgree(f, Branches) && All(Embedded(f), BranchFresh)
    ensures Each(Kids(f, Branches), RecomputeBranch) == Kids(f, Branches)
  {
    forall b | b in Kids(f, Branches)
      ensures BranchFresh(b)
    {
      SameGroupsSameRows(Embedded(f), Kids(f, Branches), b);
    }
    BranchesRecomputed(Kids(f, Branches));
  }

  lemma {:induction false} SlotViews(f: Rec)
    requires FileViewsAgree(f, Sites) && FileViewsAgree(f, Branches)
    ensures RowMap(KidsOf(Kids(f, Functions), Sites)) == RowMap(Kids(f, Sites))
    ensures RowMap(Embedded(f)) == RowMap(Kids(f, Branches))
  {
    SameGroupsSameMap(KidsOf(Kids(f, Functions), Sites), Kids(f, Sites));
    SameGroupsSameMap(Embedded(f), Kids(f, Branches));
  }

  lemma {:induction false} ListsOfRecomputedFunctions(f: Rec, g: Rec)
    requires g == RecomputeFile(f) && FileShape(f)
    ensures forall slot :: KidsOf(Kids(g, Functions), slot) == KidsOf(Kids(f, Functions), slot)
  {
    RecomputedLists(f);
    FunctionsRecomputed(f);
  }

  /** Once its embedded branches are fresh, all row maps of a recomputed file agree if those of its lines do. */
  lemma {:induction false} ViewsRecomputed(f: Rec)
    requires FileShape(f) && FileViewsAgree(f, Sites) && FileViewsAgree(f, Branches)
    requires All(Embedded(f), BranchFresh)
    ensures TwoViews(RecomputeFile(f)) <==> LinesMatch(f)
  {
    var g := RecomputeFile(f);
    RecomputedLists(f);
    ListsOfRecomputedFunctions(f, g);
    FreshBranchesStay(f);
    SlotViews(f);
  }

  lemma {:induction false} RecomputedShape(f: Rec)
    requires FileShape(f)
    ensures FileShape(RecomputeFile(f)) && FileCounts(RecomputeFile(f))
    ensures All(Kids(RecomputeFile(f), Branches), BranchFresh)
    ensures All(Kids(RecomputeFile(f), Functions), FunctionOk) <==> All(Embedded(f), BranchFresh)
  {
    RecomputedLists(f);
    FunctionsRecomputed(f);
    RecomputedBranchShape(f);
    RebuiltFileCounts(f);
  }

  lemma {:induction false} RecomputedBranchShape(f: Rec)
    requires All(Kids(f, Branches), BranchShape)
    ensures All(Each(Kids(f, Branches), RecomputeBranch), BranchShape)
    ensures All(Each(Kids(f, Branches), RecomputeBranch), BranchFresh)
  {
    BranchesRecomputed(Kids(f, Branches));
    assert forall b :: b in Each(Kids(f, Branches), RecomputeBranch) ==> BranchOk(b);
  }

  /** After recomputation a well-shaped file passes the checker exactly when every branch copy
      embedded in its functions already carried the right edge aggregates and its lines match. */
  lemma {:induction false} FileRecomputed(f: Rec)
    requires FileShape(f) && FileViewsAgree(f, Sites) && FileViewsAgree(f, Branches)
    ensures FileOk(RecomputeFile(f)) <==> All(Embedded(f), BranchFresh) && LinesMatch(f)
  {
    RecomputedShape(f);
    if All(Embedded(f), BranchFresh) { ViewsRecomputed(f); }
  }
}
