/** Checked shard artifacts whose merge the checker rejects. */
module CoverageExamples {
  import opened Seqs
  import opened Text
  import opened Records
  import opened Flattening
  import opened CoverageContract
  import opened CoverageShape
  import opened Recompute
  import opened CoverageFile
  import opened CoverageLines
  import opened CoverageFreshness
  import opened CoverageOrigins
  import opened CoverageMerge
  import opened CoverageSummary
  import opened CoverageArtifact

  // ---------------------------------------------------------------- one branch

  function EdgeId(index: nat): string { HexId("edge", if index == 0 then '0' else '1') }

  lemma {:induction false} EdgeIdsDiffer()
    ensures EdgeId(0) != EdgeId(1)
  {
    assert EdgeId(0)[5] == '0' && EdgeId(1)[5] == '1';
  }

  function EdgeOf(index: nat, hits: nat): Rec {
    Rec(EdgeMeta(EdgeId(index), index, if index == 0 then "true" else "false"),
        Some(hits), hits > 0, map[], map[])
  }

  /** An instrumented branch whose true and false edges were taken that many times. */
  function Taken(yes: nat, no: nat): Rec {
    Rec(BranchMeta(HexId("branch", '0'), ".f", true, true, ""), None, false,
        map[EdgesFound := 2, EdgesHit := (if yes > 0 then 1 else 0) + (if no > 0 then 1 else 0)],
        map[Edges := [EdgeOf(0, yes), EdgeOf(1, no)]])
  }

  lemma {:induction false} TakenOk(yes: nat, no: nat)
    ensures BranchOk(Taken(yes, no))
  {
    var es := Kids(Taken(yes, no), Edges);
    EdgeIdsDiffer();
    assert es[1..] == [EdgeOf(1, no)];
    assert es[1..][1..] == [];
    assert Count(es[1..][1..], IsHit) == 0;
    assert Count(es[1..], IsHit) == if no > 0 then 1 else 0;
    assert HitEdges(Taken(yes, no)) == Count(es, IsHit);
  }

  lemma {:induction false} MissedEdge(items: seq<Rec>)
    requires items == [Taken(1, 0), Taken(0, 1)]
    ensures !FirstHitsAll(items)
  {
    EdgeIdsDiffer();
    var later := TextKey(EdgeId(1));
    assert EdgeOf(1, 1) in Kids(items[1], Edges);
    assert later in HitKeys(items[1]);
    assert later !in HitKeys(items[0]) by {
      assert Kids(items[0], Edges) == [EdgeOf(0, 1), EdgeOf(1, 0)];
    }
    assert items[1] in items;
  }

  lemma {:induction false} OneEdgeEach(edges: seq<Rec>)
    requires edges == [EdgeOf(0, 1), EdgeOf(1, 0), EdgeOf(0, 0), EdgeOf(1, 1)]
    ensures Consistent(edges, LeafKind)
  {
    forall k | k in Keys(edges)
      ensures ConsistentGroup(Group(edges, k), LeafKind)
    {
      OneEdge(edges, k);
    }
  }

  lemma {:induction false} OneEdge(edges: seq<Rec>, k: Key)
    requires edges == [EdgeOf(0, 1), EdgeOf(1, 0), EdgeOf(0, 0), EdgeOf(1, 1)]
    ensures SameMeta(Group(edges, k))
  {
    EdgeIdsDiffer();
    forall x | x in Group(edges, k)
      ensures x.meta == if k == TextKey(EdgeId(0)) then EdgeOf(0, 0).meta else EdgeOf(1, 0).meta
    {
      GroupMember(edges, k, x);
    }
  }

  // ---------------------------------------------------------------- one file

  /** A called and fully instrumented function. */
  function Called(name: string, statements: seq<Rec>, branches: seq<Rec>): Rec {
    Rec(FunctionMeta(name, 1, true, true, true, true, "none"), Some(1), true, map[],
        map[Statements := statements, Branches := branches])
  }

  /** A file before its aggregates are filled in. */
  function Bare(functions: seq<Rec>, lines: seq<Rec>, branches: seq<Rec>): Rec {
    Rec(FileMeta("/src/f.q", true), None, false, map[], map[Functions := functions, Lines := lines, Branches := branches])
  }

  /** A file with one function, which holds one branch. */
  function BareFile(b: Rec): Rec { Bare([Called(".f", [], [b])], [], [b]) }

  function BranchFile(b: Rec): Rec { RecomputeFile(BareFile(b)) }

  lemma {:induction false} OneFunction(b: Rec, slot: Slot)
    ensures KidsOf(Kids(BareFile(b), Functions), slot) == Kids(Called(".f", [], [b]), slot)
  {
    KidsOfOne(Called(".f", [], [b]), slot);
  }

  lemma {:induction false} BareFileShape(b: Rec)
    requires BranchOk(b)
    ensures FileShape(BareFile(b))
  {
    var fn := Called(".f", [], [b]);
    assert FunctionShape(fn);
    assert forall x :: x in Kids(BareFile(b), Functions) ==> x == fn;
  }

  lemma {:induction false} BranchFileOk(b: Rec)
    requires BranchOk(b)
    ensures FileOk(BranchFile(b))
  {
    BareFileShape(b);
    BareFileViews(b);
    FileRecomputed(BareFile(b));
  }

  lemma {:induction false} BareFileViews(b: Rec)
    requires BranchOk(b)
    ensures FileViewsAgree(BareFile(b), Sites) && FileViewsAgree(BareFile(b), Branches)
    ensures LinesMatch(BareFile(b)) && All(Embedded(BareFile(b)), BranchFresh)
  {
    OneFunction(b, Sites);
    OneFunction(b, Branches);
    OneFunction(b, Statements);
  }

  /** A checked file that lists one function, which lists one branch, and nothing else. */
  ghost predicate Holds(f: Rec, fn: Rec, b: Rec) {
    && f.meta.FileMeta? && fn.meta.FunctionMeta? && FileOk(f) && BranchOk(b)
    && Kids(f, Functions) == [fn] && Kids(f, Branches) == [b] && Kids(f, Sites) == [] && Kids(f, Lines) == []
    && Kids(fn, Statements) == [] && Kids(fn, Sites) == [] && Kids(fn, Branches) == [b]
  }

  lemma {:induction false} BranchFileHolds(b: Rec) returns (fn: Rec)
    requires BranchOk(b)
    ensures Holds(BranchFile(b), fn, b)
    ensures BranchFile(b).meta == FileMeta("/src/f.q", true)
    ensures fn.meta == FunctionMeta(".f", 1, true, true, true, true, "none")
  {
    fn := RecomputeFunction(Called(".f", [], [b]));
    BranchFileOk(b);
    BranchFileLists(b, fn);
    FunctionLists(b, fn);
  }

  lemma {:induction false} BranchFileLists(b: Rec, fn: Rec)
    requires BranchOk(b) && fn == RecomputeFunction(Called(".f", [], [b]))
    ensures var f := BranchFile(b);
            Kids(f, Functions) == [fn] && Kids(f, Branches) == [b] && Kids(f, Sites) == [] && Kids(f, Lines) == []
  {
    RecomputedLists(BareFile(b));
    BranchRecomputed(b);
    assert Each([b], RecomputeBranch) == [b];
    assert Each([Called(".f", [], [b])], RecomputeFunction) == [fn];
  }

  lemma {:induction false} FunctionLists(b: Rec, fn: Rec)
    requires fn == RecomputeFunction(Called(".f", [], [b]))
    ensures Kids(fn, Statements) == [] && Kids(fn, Sites) == [] && Kids(fn, Branches) == [b]
    ensures fn.meta == FunctionMeta(".f", 1, true, true, true, true, "none")
  {}

  lemma {:induction false} OneFileOk(f: Rec, fn: Rec, b: Rec)
    requires Holds(f, fn, b)
    ensures FilesOk([f])
  {
    KidsOfOne(f, Sites);
    KidsOfOne(f, Branches);
    KidsOfOne(b, Edges);
    assert [] + [b] == [b];
    TwoEdgeKeys(b);
  }

  lemma {:induction false} TwoEdgeKeys(b: Rec)
    requires BranchShape(b)
    ensures DistinctKeys(Kids(b, Edges))
  {}

  // ---------------------------------------------------------------- merging copies of one record

  lemma {:induction false} OneKey(rs: seq<Rec>, k: Key)
    requires forall r :: r in rs ==> KeyOf(r) == k
    ensures Group(rs, k) == rs
  {
    if rs != [] {
      assert rs[0] in rs;
      OneKey(rs[1..], k);
      assert rs == [rs[0]] + rs[1..];
    }
  }

  /** All the records are copies of one record. */
  ghost predicate OneMeta(rs: seq<Rec>) {
    rs != [] && forall r :: r in rs ==> r.meta == rs[0].meta
  }

  lemma {:induction false} OneMetaGroup(rs: seq<Rec>, k: Key)
    requires OneMeta(rs) && k in Keys(rs)
    ensures Group(rs, k) == rs && k == KeyOf(rs[0]) && SameMeta(rs)
  {
    var r :| r in rs && KeyOf(r) == k;
    assert forall x :: x in rs ==> KeyOf(x) == k;
    OneKey(rs, k);
    assert rs[0] in rs;
    assert forall i :: 0 <= i < |rs| ==> rs[i] in rs;
  }

  ghost predicate SlotConsistent(rs: seq<Rec>, slot: Slot) {
    Consistent(KidsOf(rs, slot), ChildKind(slot))
  }

  ghost predicate KidsConsistent(rs: seq<Rec>, kind: Kind) {
    forall slot :: slot in Slots(kind) ==> SlotConsistent(rs, slot)
  }

  /** Copies of one record are consistent as soon as their children are. */
  lemma {:induction false} CopiesConsistent(rs: seq<Rec>, kind: Kind)
    requires OneMeta(rs) && KidsConsistent(rs, kind)
    ensures Consistent(rs, kind)
  {
    forall k | k in Keys(rs)
      ensures ConsistentGroup(Group(rs, k), kind)
    {
      OneMetaGroup(rs, k);
    }
  }

  lemma {:induction false} NothingConsistent(kind: Kind)
    ensures Consistent([], kind)
  {}

  lemma {:induction false} OneMetaOwned(rs: seq<Rec>, slot: Slot)
    requires OneMeta(rs)
    ensures Owned(rs, slot)
  {}

  /** Checked one-branch files, copies of each other. */
  ghost predicate SameFiles(fs: seq<Rec>, fns: seq<Rec>, bs: seq<Rec>) {
    && |fs| == |fns| == |bs|
    && (forall i :: 0 <= i < |fs| ==> Holds(fs[i], fns[i], bs[i]))
    && OneMeta(fs) && OneMeta(fns) && OneMeta(bs)
    && (forall i :: 0 <= i < |bs| ==> Keys(Kids(bs[i], Edges)) == Keys(Kids(bs[0], Edges)))
    && Consistent(KidsOf(bs, Edges), LeafKind)
  }

  lemma {:induction false} ListsOfFiles(fs: seq<Rec>, fns: seq<Rec>, bs: seq<Rec>)
    requires |fs| == |fns| == |bs| && forall i :: 0 <= i < |fs| ==> Holds(fs[i], fns[i], bs[i])
    ensures KidsOf(fs, Functions) == fns && KidsOf(fs, Branches) == bs && KidsOf(fs, Sites) == [] && KidsOf(fs, Lines) == []
    ensures KidsOf(fns, Statements) == [] && KidsOf(fns, Sites) == [] && KidsOf(fns, Branches) == bs
  {
    if fs != [] {
      ListsOfFiles(fs[1..], fns[1..], bs[1..]);
      assert Holds(fs[0], fns[0], bs[0]);
      assert fns == [fns[0]] + fns[1..] && bs == [bs[0]] + bs[1..];
    }
  }

  lemma {:induction false} BranchesConsistent(bs: seq<Rec>)
    requires OneMeta(bs) && Consistent(KidsOf(bs, Edges), LeafKind)
    ensures Consistent(bs, BranchKind)
  {
    CopiesConsistent(bs, BranchKind);
  }

  lemma {:induction false} FunctionsConsistent(fns: seq<Rec>, bs: seq<Rec>)
    requires OneMeta(fns) && Consistent(bs, BranchKind)
    requires KidsOf(fns, Statements) == [] && KidsOf(fns, Sites) == [] && KidsOf(fns, Branches) == bs
    ensures Consistent(fns, FunctionKind)
  {
    NothingConsistent(LeafKind);
    KidsOfFunctions(fns);
    CopiesConsistent(fns, FunctionKind);
  }

  lemma {:induction false} KidsOfFunctions(fns: seq<Rec>)
    requires Consistent(KidsOf(fns, Statements), LeafKind) && Consistent(KidsOf(fns, Sites), LeafKind)
    requires Consistent(KidsOf(fns, Branches), BranchKind)
    ensures KidsConsistent(fns, FunctionKind)
  {
    forall slot | slot in Slots(FunctionKind)
      ensures SlotConsistent(fns, slot)
    {
      match slot
      case Statements =>
      case Sites =>
      case Branches =>
    }
  }

  lemma {:induction false} FilesConsistent(fs: seq<Rec>, fns: seq<Rec>, bs: seq<Rec>)
    requires OneMeta(fs) && Consistent(fns, FunctionKind) && Consistent(bs, BranchKind)
    requires KidsOf(fs, Functions) == fns && KidsOf(fs, Branches) == bs && KidsOf(fs, Sites) == [] && KidsOf(fs, Lines) == []
    ensures Consistent(fs, FileKind)
  {
    NothingConsistent(LeafKind);
    KidsOfFiles(fs);
    CopiesConsistent(fs, FileKind);
  }

  lemma {:induction false} KidsOfFiles(fs: seq<Rec>)
    requires Consistent(KidsOf(fs, Functions), FunctionKind) && Consistent(KidsOf(fs, Branches), BranchKind)
    requires Consistent(KidsOf(fs, Sites), LeafKind) && Consistent(KidsOf(fs, Lines), LeafKind)
    ensures KidsConsistent(fs, FileKind)
  {
    forall slot | slot in Slots(FileKind)
      ensures SlotConsistent(fs, slot)
    {
      match slot
      case Functions =>
      case Branches =>
      case Sites =>
      case Lines =>
    }
  }

  lemma {:induction false} FilesCoherent(fs: seq<Rec>, fns: seq<Rec>, bs: seq<Rec>)
    requires SameFiles(fs, fns, bs)
    ensures Coherent(fs)
  {
    ListsOfFiles(fs, fns, bs);
    OneMetaOwned(fs, Sites);
    OneMetaOwned(fs, Branches);
    OneMetaOwned(bs, Edges);
    NoKeys();
    OneSetOfEdges(bs);
    FunctionsOwn(fs, fns);
    FunctionsListOnce(fs, fns, bs);
  }

  lemma {:induction false} NoKeys()
    ensures Keys([]) == {}
  {}

  lemma {:induction false} OneSetOfEdges(bs: seq<Rec>)
    requires bs != [] && forall i :: 0 <= i < |bs| ==> Keys(Kids(bs[i], Edges)) == Keys(Kids(bs[0], Edges))
    ensures SameEdges(bs)
  {}

  lemma {:induction false} FunctionsOwn(fs: seq<Rec>, fns: seq<Rec>)
    requires OneMeta(fs) && OneMeta(fns) && KidsOf(fs, Functions) == fns
    ensures forall p :: p in Keys(fs) ==> OwnedRows(KidsOf(Copies(fs, p), Functions))
  {
    OneMetaOwned(fns, Sites);
    OneMetaOwned(fns, Branches);
    forall p | p in Keys(fs)
      ensures Copies(fs, p) == fs
    {
      OneMetaGroup(fs, p);
    }
  }

  lemma {:induction false} FunctionsListOnce(fs: seq<Rec>, fns: seq<Rec>, bs: seq<Rec>)
    requires |fs| == |fns| == |bs| && forall i :: 0 <= i < |fs| ==> Holds(fs[i], fns[i], bs[i])
    ensures forall f, fn :: f in fs && fn in Kids(f, Functions) ==> ListsOnce(fn)
  {
    forall f, fn | f in fs && fn in Kids(f, Functions)
      ensures ListsOnce(fn)
    {
      var i :| 0 <= i < |fs| && fs[i] == f;
      OnlyFunction(f, fns[i], bs[i]);
    }
  }

  lemma {:induction false} OnlyFunction(f: Rec, fn: Rec, b: Rec)
    requires Holds(f, fn, b)
    ensures forall g :: g in Kids(f, Functions) ==> ListsOnce(g)
  {}

  function Shards(fs: seq<Rec>): seq<seq<Rec>> { seq(|fs|, (i: nat) requires i < |fs| => [fs[i]]) }

  lemma {:induction false} ShardsTogether(fs: seq<Rec>)
    ensures FlatMap(Shards(fs), Whole) == fs
  {
    if fs != [] {
      ShardsTogether(fs[1..]);
      assert Shards(fs)[1..] == Shards(fs[1..]);
      assert fs == [fs[0]] + fs[1..];
    }
  }

  /** One file per shard, copies of each other with a single branch: every shard passes the checker, the
      merge accepts them, and the merged files pass exactly when the first shard took all the edges. */
  lemma {:induction false} OneBranchShards(fs: seq<Rec>, fns: seq<Rec>, bs: seq<Rec>)
    requires SameFiles(fs, fns, bs)
    ensures forall f :: f in fs ==> FilesOk([f])
    ensures Consistent(fs, FileKind) && Coherent(fs)
    ensures FilesOk(Rebuilt(fs)) <==> FirstHitsAll(bs)
  {
    forall i | 0 <= i < |fs|
      ensures FilesOk([fs[i]])
    {
      OneFileOk(fs[i], fns[i], bs[i]);
    }
    ListsOfFiles(fs, fns, bs);
    BranchesConsistent(bs);
    FunctionsConsistent(fns, bs);
    FilesConsistent(fs, fns, bs);
    FilesCoherent(fs, fns, bs);
    MergedAlone(fs, fns, bs);
  }

  lemma {:induction false} MergedAlone(fs: seq<Rec>, fns: seq<Rec>, bs: seq<Rec>)
    requires SameFiles(fs, fns, bs) && Consistent(fs, FileKind) && Coherent(fs)
    requires forall i :: 0 <= i < |fs| ==> FilesOk([fs[i]])
    ensures FilesOk(Rebuilt(fs)) <==> FirstHitsAll(bs)
  {
    ShardsPass(fs);
    ShardsTogether(fs);
    MergedFilesAccepted(Shards(fs));
    OnePath(fs, fns, bs);
  }

  lemma {:induction false} ShardsPass(fs: seq<Rec>)
    requires forall i :: 0 <= i < |fs| ==> FilesOk([fs[i]])
    ensures forall shard :: shard in Shards(fs) ==> FilesOk(shard)
  {
    forall shard | shard in Shards(fs)
      ensures FilesOk(shard)
    {
      var i :| 0 <= i < |fs| && shard == [fs[i]];
    }
  }

  lemma {:induction false} OnePath(fs: seq<Rec>, fns: seq<Rec>, bs: seq<Rec>)
    requires SameFiles(fs, fns, bs)
    ensures (forall p :: p in Keys(fs) ==> PathAccepted(Copies(fs, p))) <==> FirstHitsAll(bs)
  {
    ListsOfFiles(fs, fns, bs);
    NoLinesAgree(fs);
    OneBranchSeen(fs, bs);
    assert fs[0] in fs && KeyOf(fs[0]) in Keys(fs);
    forall p | p in Keys(fs)
      ensures Copies(fs, p) == fs
    {
      OneMetaGroup(fs, p);
    }
  }

  lemma {:induction false} NoLinesAgree(fs: seq<Rec>)
    requires KidsOf(KidsOf(fs, Functions), Statements) == []
    ensures LinesAgree(fs)
  {
    forall s, k | LastLister(KidsOf(fs, Functions), s, k)
      ensures false
    {
      ListedSomewhere(KidsOf(fs, Functions), s, k);
    }
  }

  lemma {:induction false} OneBranchSeen(fs: seq<Rec>, bs: seq<Rec>)
    requires OneMeta(bs) && EmbeddedCopies(fs) == bs
    ensures EdgesSeenFirst(fs) <==> FirstHitsAll(bs)
  {
    assert bs[0] in bs && KeyOf(bs[0]) in Keys(bs);
    forall s | s in Keys(bs)
      ensures Group(bs, s) == bs
    {
      OneMetaGroup(bs, s);
    }
  }

  // ---------------------------------------------------------------- the examples

  /** Two shards that take different edges of one branch: both pass the checker, the merge accepts
      them, and the merged files are rejected, because the branch inside the function keeps the first
      shard's edge count. */
  lemma {:induction false} LaterEdgeIsLost()
    ensures var x, y := BranchFile(Taken(1, 0)), BranchFile(Taken(0, 1));
            && FilesOk([x]) && FilesOk([y])
            && Consistent([x, y], FileKind) && Coherent([x, y])
            && !FilesOk(Rebuilt([x, y]))
  {
    var x, y := Taken(1, 0), Taken(0, 1);
    TakenOk(1, 0);
    TakenOk(0, 1);
    var fx := BranchFileHolds(x);
    var fy := BranchFileHolds(y);
    EdgesOfTwo(x, y);
    MissedEdge([x, y]);
    TwoShards(BranchFile(x), BranchFile(y), fx, fy, x, y);
  }

  lemma {:induction false} TwoShards(f: Rec, g: Rec, fn: Rec, gn: Rec, x: Rec, y: Rec)
    requires Holds(f, fn, x) && Holds(g, gn, y) && f.meta == g.meta && fn.meta == gn.meta && x.meta == y.meta
    requires Keys(Kids(x, Edges)) == Keys(Kids(y, Edges)) && Consistent(KidsOf([x, y], Edges), LeafKind)
    requires !FirstHitsAll([x, y])
    ensures FilesOk([f]) && FilesOk([g])
    ensures Consistent([f, g], FileKind) && Coherent([f, g]) && !FilesOk(Rebuilt([f, g]))
  {
    SamePair(f, g, fn, gn, x, y);
    OneBranchShards([f, g], [fn, gn], [x, y]);
    assert f in [f, g] && g in [f, g];
  }

  lemma {:induction false} SamePair(f: Rec, g: Rec, fn: Rec, gn: Rec, x: Rec, y: Rec)
    requires Holds(f, fn, x) && Holds(g, gn, y) && f.meta == g.meta && fn.meta == gn.meta && x.meta == y.meta
    requires Keys(Kids(x, Edges)) == Keys(Kids(y, Edges)) && Consistent(KidsOf([x, y], Edges), LeafKind)
    ensures SameFiles([f, g], [fn, gn], [x, y])
  {
    TwoOfOneMeta(f, g);
    TwoOfOneMeta(fn, gn);
    TwoOfOneMeta(x, y);
    assert forall i :: 0 <= i < 2 ==> Holds([f, g][i], [fn, gn][i], [x, y][i]);
  }

  lemma {:induction false} TwoOfOneMeta(a: Rec, b: Rec)
    requires a.meta == b.meta
    ensures OneMeta([a, b])
  {}

  lemma {:induction false} EdgesOfTwo(x: Rec, y: Rec)
    requires x == Taken(1, 0) && y == Taken(0, 1)
    ensures Keys(Kids(x, Edges)) == Keys(Kids(y, Edges))
    ensures Consistent(KidsOf([x, y], Edges), LeafKind)
  {
    PairKeys(Kids(x, Edges));
    PairKeys(Kids(y, Edges));
    assert [x, y] == [x] + [y];
    KidsAppend([x], [y], Edges);
    KidsOfOne(x, Edges);
    KidsOfOne(y, Edges);
    OneEdgeEach(KidsOf([x, y], Edges));
  }

  /** A shard whose functions have branches but no statement sites, whatever its modes: files and
      summary pass the checker. The merge of nothing but this shard rebuilds the same files, but its
      summary calls statement-site instrumentation complete and is rejected. */
  lemma {:induction false} VacuousCompletenessIsRejected(modes: Summary)
    ensures var shard := [BranchFile(Taken(1, 0))];
            var own := OwnSummary(shard, modes);
            && FilesOk(shard) && SummaryOk(own, shard)
            && Consistent(shard, FileKind) && Coherent(shard)
            && FilesOk(Rebuilt(shard)) && !SummaryOk(RecomputeSummary(Rebuilt(shard), own), Rebuilt(shard))
  {
    var b := Taken(1, 0);
    TakenOk(1, 0);
    var fn := BranchFileHolds(b);
    SitelessShard(BranchFile(b), fn, b, modes);
  }

  lemma {:induction false} SitelessShard(f: Rec, fn: Rec, b: Rec, modes: Summary)
    requires Holds(f, fn, b) && IsStatementEligible(fn)
    ensures var own := OwnSummary([f], modes);
            && FilesOk([f]) && SummaryOk(own, [f]) && Consistent([f], FileKind) && Coherent([f])
            && FilesOk(Rebuilt([f])) && !SummaryOk(RecomputeSummary(Rebuilt([f]), own), Rebuilt([f]))
  {
    OneShard(f, fn, b);
    KidsOfOne(f, Functions);
    KidsOfOne(f, Sites);
    OneCalledFunction(KidsOf([f], Functions), fn);
    VacuousFlagIsRejected([f], modes);
  }

  lemma {:induction false} OneShard(f: Rec, fn: Rec, b: Rec)
    requires Holds(f, fn, b)
    ensures FilesOk([f]) && Consistent([f], FileKind) && Coherent([f]) && FilesOk(Rebuilt([f]))
  {
    KidsOfOne(b, Edges);
    TwoEdges(b);
    assert f in [f];
    OneBranchShards([f], [fn], [b]);
  }

  lemma {:induction false} OneCalledFunction(functions: seq<Rec>, fn: Rec)
    requires functions == [fn] && IsStatementEligible(fn)
    ensures Count(functions, IsStatementInstrumented) <= Count(functions, IsStatementEligible)
  {
    CountsEqual(functions, IsStatementInstrumented, IsStatementEligible);
  }

  lemma {:induction false} TwoEdges(b: Rec)
    requires BranchShape(b)
    ensures Consistent(Kids(b, Edges), LeafKind)
  {
    var es := Kids(b, Edges);
    TwoEdgeKeys(b);
    forall k | k in Keys(es)
      ensures ConsistentGroup(Group(es, k), LeafKind)
    {
      SingleGroup(es, k);
    }
  }

  // ---------------------------------------------------------------- a line that two functions share

  function LineOf(hits: nat): Rec { Rec(LineMeta(1), Some(hits), hits > 0, map[], map[]) }

  /** Two functions on line 1, the one listed last having been called once, the other never. */
  function SharedBare(early: string, late: string): Rec {
    Bare([Called(early, [LineOf(0)], []), Called(late, [LineOf(1)], [])], [LineOf(1)], [])
  }

  lemma {:induction false} CalledShape(name: string, line: Rec)
    requires LineOk(line)
    ensures FunctionShape(Called(name, [line], []))
  {
    assert Kids(Called(name, [line], []), Sites) == [] && Kids(Called(name, [line], []), Branches) == [];
  }

  lemma {:induction false} SharedShape(early: string, late: string)
    requires early != late
    ensures FileShape(SharedBare(early, late))
  {
    CalledShape(early, LineOf(0));
    CalledShape(late, LineOf(1));
    var fns := Kids(SharedBare(early, late), Functions);
    assert forall fn :: fn in fns ==> fn == fns[0] || fn == fns[1];
  }

  lemma {:induction false} TwoKids(a: Rec, b: Rec, slot: Slot)
    ensures KidsOf([a, b], slot) == Kids(a, slot) + Kids(b, slot)
  {
    FlatMapTwo(a, b, KidsAt(slot));
  }

  lemma {:induction false} LastRowWins(a: Rec, b: Rec)
    requires KeyOf(a) == KeyOf(b)
    ensures RowMap([a, b]) == RowMap([b])
  {
    assert [a, b][..1] == [a] && [a][..0] == [] && [b][..0] == [];
  }

  lemma {:induction false} SharedViews(f: Rec, a: Rec, b: Rec, x: Rec, y: Rec)
    requires HasTwo(f, a, b, y) && HasLine(a, x) && HasLine(b, y) && KeyOf(x) == KeyOf(y)
    ensures FileViewsAgree(f, Sites) && FileViewsAgree(f, Branches) && LinesMatch(f)
    ensures All(Embedded(f), BranchFresh)
  {
    TwoKids(a, b, Statements);
    TwoKids(a, b, Sites);
    TwoKids(a, b, Branches);
    LastRowWins(x, y);
    assert [x] + [y] == [x, y];
  }

  predicate HasLine(fn: Rec, x: Rec) {
    && fn.meta.FunctionMeta?
    && Kids(fn, Statements) == [x] && Kids(fn, Sites) == [] && Kids(fn, Branches) == []
  }

  predicate HasTwo(f: Rec, a: Rec, b: Rec, y: Rec) {
    && f.meta.FileMeta?
    && Kids(f, Functions) == [a, b] && Kids(f, Lines) == [y] && Kids(f, Sites) == [] && Kids(f, Branches) == []
  }

  /** A checked file of two functions without sites that list one line, with different hits. */
  ghost predicate Shares(f: Rec, a: Rec, b: Rec, x: Rec, y: Rec) {
    && FileOk(f) && HasTwo(f, a, b, y) && HasLine(a, x) && HasLine(b, y)
    && KeyOf(a) != KeyOf(b) && KeyOf(x) == KeyOf(y) && x.hits != y.hits
  }

  lemma {:induction false} SharedFile(early: string, late: string) returns (f: Rec, a: Rec, b: Rec)
    requires early != late
    ensures Shares(f, a, b, LineOf(0), LineOf(1))
    ensures KeyOf(a) == NameLineKey(early, 1) && KeyOf(b) == NameLineKey(late, 1)
  {
    var p, q := Called(early, [LineOf(0)], []), Called(late, [LineOf(1)], []);
    f, a, b := RecomputeFile(SharedBare(early, late)), RecomputeFunction(p), RecomputeFunction(q);
    SharedFileOk(early, late);
    SharedLists(SharedBare(early, late), p, q);
    FunctionHasLine(early, LineOf(0), a);
    FunctionHasLine(late, LineOf(1), b);
  }

  lemma {:induction false} FunctionHasLine(name: string, line: Rec, fn: Rec)
    requires fn == RecomputeFunction(Called(name, [line], []))
    ensures HasLine(fn, line) && KeyOf(fn) == NameLineKey(name, 1)
  {
    FunctionKids(Called(name, [line], []));
    CalledKids(name, line);
  }

  lemma {:induction false} CalledKids(name: string, line: Rec)
    ensures var fn := Called(name, [line], []);
            Kids(fn, Statements) == [line] && Kids(fn, Sites) == [] && Kids(fn, Branches) == []
  {}

  lemma {:induction false} SharedFileOk(early: string, late: string)
    requires early != late
    ensures FileOk(RecomputeFile(SharedBare(early, late)))
  {
    SharedShape(early, late);
    CalledKids(early, LineOf(0));
    CalledKids(late, LineOf(1));
    SharedViews(SharedBare(early, late), Called(early, [LineOf(0)], []), Called(late, [LineOf(1)], []), LineOf(0), LineOf(1));
    FileRecomputed(SharedBare(early, late));
  }

  lemma {:induction false} SharedLists(bare: Rec, p: Rec, q: Rec)
    requires bare == Bare([p, q], [LineOf(1)], [])
    ensures HasTwo(RecomputeFile(bare), RecomputeFunction(p), RecomputeFunction(q), LineOf(1))
  {
    RecomputedLists(bare);
    assert Each([p, q], RecomputeFunction) == [RecomputeFunction(p), RecomputeFunction(q)];
    assert Each([], RecomputeBranch) == [];
  }

  lemma {:induction false} FunctionKids(fn: Rec)
    ensures forall slot :: Kids(RecomputeFunction(fn), slot) == Kids(fn, slot)
    ensures RecomputeFunction(fn).meta == fn.meta
  {}

  /** Records without repeated keys are consistent as soon as their children are. */
  lemma {:induction false} DistinctConsistent(rs: seq<Rec>, kind: Kind)
    requires DistinctKeys(rs)
    requires forall r, slot :: r in rs && slot in Slots(kind) ==> Consistent(Kids(r, slot), ChildKind(slot))
    ensures Consistent(rs, kind)
  {
    forall k | k in Keys(rs)
      ensures ConsistentGroup(Group(rs, k), kind)
    {
      var r :| r in rs && KeyOf(r) == k;
      var i: nat :| i < |rs| && rs[i] == r;
      GroupOfDistinct(rs, i);
      AloneConsistent(r, kind);
    }
  }

  lemma {:induction false} AloneConsistent(r: Rec, kind: Kind)
    requires forall slot :: slot in Slots(kind) ==> Consistent(Kids(r, slot), ChildKind(slot))
    ensures ConsistentGroup([r], kind)
  {
    forall slot | slot in Slots(kind)
      ensures Consistent(KidsOf([r], slot), ChildKind(slot))
    {
      KidsOfOne(r, slot);
    }
  }

  lemma {:induction false} LineConsistent(x: Rec)
    ensures Consistent([x], LeafKind)
  {
    DistinctConsistent([x], LeafKind);
  }

  lemma {:induction false} SharesConsistent(f: Rec, a: Rec, b: Rec, x: Rec, y: Rec)
    requires Shares(f, a, b, x, y)
    ensures Consistent([f], FileKind)
  {
    NothingConsistent(LeafKind);
    NothingConsistent(BranchKind);
    LineConsistent(x);
    LineConsistent(y);
    forall fn, slot | fn in [a, b] && slot in Slots(FunctionKind)
      ensures Consistent(Kids(fn, slot), ChildKind(slot))
    {
      FunctionSlot(fn, slot);
    }
    DistinctConsistent([a, b], FunctionKind);
    forall slot | slot in Slots(FileKind)
      ensures Consistent(Kids(f, slot), ChildKind(slot))
    {
      FileSlotOf(f, slot);
    }
    DistinctConsistent([f], FileKind);
  }

  lemma {:induction false} FunctionSlot(fn: Rec, slot: Slot)
    requires slot.Statements? || slot.Sites? || slot.Branches?
    requires Consistent(Kids(fn, Statements), LeafKind) && Kids(fn, Sites) == [] && Kids(fn, Branches) == []
    ensures Consistent(Kids(fn, slot), ChildKind(slot))
  {
    NothingConsistent(ChildKind(slot));
  }

  lemma {:induction false} FileSlotOf(f: Rec, slot: Slot)
    requires slot.Functions? || slot.Lines? || slot.Sites? || slot.Branches?
    requires Consistent(Kids(f, Functions), FunctionKind) && Consistent(Kids(f, Lines), LeafKind)
    requires Kids(f, Sites) == [] && Kids(f, Branches) == []
    ensures Consistent(Kids(f, slot), ChildKind(slot))
  {
    NothingConsistent(ChildKind(slot));
  }

  lemma {:induction false} SharesLists(f: Rec, a: Rec, b: Rec, x: Rec, y: Rec)
    requires Shares(f, a, b, x, y)
    ensures KidsOf([f], Functions) == [a, b] && KidsOf([f], Lines) == [y]
    ensures KidsOf([f], Sites) == [] && KidsOf([f], Branches) == []
  {
    KidsOfOne(f, Functions);
    KidsOfOne(f, Lines);
    KidsOfOne(f, Sites);
    KidsOfOne(f, Branches);
  }

  lemma {:induction false} SharesCoherent(f: Rec, a: Rec, b: Rec, x: Rec, y: Rec)
    requires Shares(f, a, b, x, y)
    ensures FilesOk([f]) && Coherent([f])
  {
    SharesLists(f, a, b, x, y);
    NoKeys();
    OneMetaOwned([f], Sites);
    OneMetaOwned([f], Branches);
    assert OwnedRows([a, b]);
    forall p | p in Keys([f])
      ensures Copies([f], p) == [f]
    {
      OneMetaGroup([f], p);
    }
    assert ListsOnce(a) && ListsOnce(b);
  }

  lemma {:induction false} SharesDisagree(f: Rec, a: Rec, b: Rec, x: Rec, y: Rec)
    requires Shares(f, a, b, x, y) && KeyLe(KeyOf(b), KeyOf(a))
    ensures !LinesAgree([f])
  {
    var s := KeyOf(x);
    SharesLists(f, a, b, x, y);
    PairGroup(a, b);
    OneKey([x], s);
    OneKey([y], s);
    KidsOfOne(a, Statements);
    TotalHitsOfOne(x);
    TotalHitsOfOne(y);
    KeyLeIsTotalOrder();
    assert x in [x] && y in [y] && a in [a, b];
    assert LastLister([a, b], s, KeyOf(a));
  }

  lemma {:induction false} PairGroup(a: Rec, b: Rec)
    requires KeyOf(a) != KeyOf(b)
    ensures Group([a, b], KeyOf(a)) == [a]
  {
    FlatMapTwo(a, b, Pick(KeyOf(a)));
  }

  /** Two functions share a line, and the file lists the later one of the canonical order first. The shard
      passes the checker, which keeps the line of the function listed last. The merge of nothing but this
      shard sorts the functions and is rejected. */
  lemma {:induction false} SharedLineIsRejected() returns (f: Rec)
    ensures FilesOk([f]) && Consistent([f], FileKind) && Coherent([f]) && !FilesOk(Rebuilt([f]))
  {
    var a, b;
    f, a, b := SharedFile(".g", ".f");
    var x, y := LineOf(0), LineOf(1);
    SharesConsistent(f, a, b, x, y);
    SharesCoherent(f, a, b, x, y);
    FirstLetterDecides();
    SharesDisagree(f, a, b, x, y);
    AloneRejected(f);
  }

  lemma {:induction false} AloneRejected(f: Rec)
    requires FilesOk([f]) && Consistent([f], FileKind) && Coherent([f]) && !LinesAgree([f])
    ensures !FilesOk(Rebuilt([f]))
  {
    FlatMapOne([f], Whole);
    MergedFilesAccepted([[f]]);
    OneKey([f], KeyOf(f));
    assert f in [f] && KeyOf(f) in Keys([f]);
  }

  lemma {:induction false} FirstLetterDecides()
    ensures KeyLe(NameLineKey(".f", 1), NameLineKey(".g", 1))
  {
    var rest := "\"," + Decimal(1) + "]";
    CanonicalStart(".f", 'f', rest);
    CanonicalStart(".g", 'g', rest);
    SmallerHead('f', 'g', rest, rest);
    SameStart('[', '"', '.', ['f'] + rest, ['g'] + rest);
  }

  lemma {:induction false} CanonicalStart(name: string, c: char, rest: string)
    requires name == ['.', c] && 'a' <= c <= 'z' && rest == "\"," + Decimal(1) + "]"
    ensures Canonical(NameLineKey(name, 1)) == ['[', '"', '.'] + ([c] + rest)
  {
    QuotedName(name, c);
    Rebracket(Decimal(1), c);
  }

  lemma {:induction false} Rebracket(digits: string, c: char)
    ensures "[" + ("\"." + [c] + "\"") + "," + digits + "]" == ['[', '"', '.'] + ([c] + ("\"," + digits + "]"))
  {}

  lemma {:induction false} QuotedName(name: string, c: char)
    requires name == ['.', c] && 'a' <= c <= 'z'
    ensures Quote(name) == "\"." + [c] + "\""
  {
    assert name[1..] == [c] && [c][1..] == "";
    assert QuoteBody([c]) == [c] + "\"";
  }

  lemma {:induction false} SmallerHead(c: char, d: char, x: string, y: string)
    requires c < d
    ensures StrLe([c] + x, [d] + y)
  {}

  lemma {:induction false} SameHead(c: char, x: string, y: string)
    requires StrLe(x, y)
    ensures StrLe([c] + x, [c] + y)
  {
    assert ([c] + x)[1..] == x && ([c] + y)[1..] == y;
  }

  lemma {:induction false} SameStart(a: char, b: char, c: char, x: string, y: string)
    requires StrLe(x, y)
    ensures StrLe([a, b, c] + x, [a, b, c] + y)
  {
    SameHead(c, x, y);
    SameHead(b, [c] + x, [c] + y);
    SameHead(a, [b] + ([c] + x), [b] + ([c] + y));
    assert [a, b, c] + x == [a] + ([b] + ([c] + x)) && [a, b, c] + y == [a] + ([b] + ([c] + y));
  }
}
