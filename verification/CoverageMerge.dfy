/** When the artifact merged from checked shards passes the checker again. */
module CoverageMerge {
  import opened Orders
  import opened Seqs
  import opened Records
  import opened Flattening
  import opened CoverageContract
  import opened CoverageShape
  import opened Recompute
  import opened CoverageFile
  import opened CoverageLines
  import opened CoverageFreshness

  /** The copies of one source path, over all shards. */
  function Copies(fs: seq<Rec>, p: Key): seq<Rec> { Group(fs, p) }

  /** The shards describe one program: a site is in one file and one function, an edge in one branch,
      and every copy of a branch has the same edges. Functions may share lines. */
  ghost predicate Coherent(fs: seq<Rec>) {
    && Owned(fs, Sites) && Owned(fs, Branches)
    && Keys(KidsOf(fs, Sites)) !! Keys(KidsOf(fs, Branches))
    && Owned(KidsOf(fs, Branches), Edges) && SameEdges(KidsOf(fs, Branches))
    && (forall p :: p in Keys(fs) ==> OwnedRows(KidsOf(Copies(fs, p), Functions)))
    && (forall f, fn :: f in fs && fn in Kids(f, Functions) ==> ListsOnce(fn))
  }

  ghost predicate OwnedRows(functions: seq<Rec>) {
    Owned(functions, Sites) && Owned(functions, Branches)
  }

  // ---------------------------------------------------------------- what a shard guarantees of its files

  ghost predicate FlatOnce(f: Rec) {
    DistinctKeys(Kids(f, Sites)) && DistinctKeys(Kids(f, Branches))
  }

  lemma {:induction false} PartOfDistinct(files: seq<Rec>, slot: Slot, f: Rec)
    requires f in files && DistinctKeys(KidsOf(files, slot))
    ensures DistinctKeys(Kids(f, slot))
  {
    var i :| 0 <= i < |files| && files[i] == f;
    assert files == files[..i] + ([f] + files[i + 1..]);
    KidsAppend(files[..i], [f] + files[i + 1..], slot);
    KidsAppend([f], files[i + 1..], slot);
    KidsOfOne(f, slot);
    var before, all := KidsOf(files[..i], slot), KidsOf(files, slot);
    forall x, y | 0 <= x < y < |Kids(f, slot)|
      ensures KeyOf(Kids(f, slot)[x]) != KeyOf(Kids(f, slot)[y])
    {
      assert all[|before| + x] == Kids(f, slot)[x] && all[|before| + y] == Kids(f, slot)[y];
    }
  }

  lemma {:induction false} DistinctParts(a: seq<Rec>, b: seq<Rec>)
    requires DistinctKeys(a + b)
    ensures DistinctKeys(a) && DistinctKeys(b)
  {
    assert forall i :: 0 <= i < |a| ==> (a + b)[i] == a[i];
    assert forall i :: 0 <= i < |b| ==> (a + b)[|a| + i] == b[i];
  }

  lemma {:induction false} ShardFile(shards: seq<seq<Rec>>, f: Rec)
    requires forall shard :: shard in shards ==> FilesOk(shard)
    requires f in FlatMap(shards, Whole)
    ensures FileOk(f) && FlatOnce(f)
  {
    FlatMapMember(shards, Whole, f);
    var shard :| shard in shards && f in Whole(shard);
    assert FilesOk(shard);
    DistinctParts(KidsOf(shard, Sites), KidsOf(shard, Branches));
    PartOfDistinct(shard, Sites, f);
    PartOfDistinct(shard, Branches, f);
  }

  // ---------------------------------------------------------------- the two views of a shard file

  lemma {:induction false} EmbeddedOnce(functions: seq<Rec>, slot: Slot, s: Key)
    requires DistinctKeys(functions) && Owned(functions, slot)
    requires forall fn :: fn in functions ==> DistinctKeys(Kids(fn, slot))
    ensures |Group(KidsOf(functions, slot), s)| <= 1
  {
    GroupOfKey(KidsOf(functions, slot), s);
    if s in Keys(KidsOf(functions, slot)) {
      var fn := ChildOf(functions, slot, s);
      OwnerIsUnique(functions, slot, s, fn);
      GroupUnderOwner(functions, slot, s, KeyOf(fn));
      SoleOwner(functions, fn);
      KidsOfOne(fn, slot);
      SingleGroup(Kids(fn, slot), s);
    }
  }

  lemma {:induction false} SoleOwner(functions: seq<Rec>, fn: Rec)
    requires DistinctKeys(functions) && fn in functions
    ensures Group(functions, KeyOf(fn)) == [fn]
  {
    var i: nat :| i < |functions| && functions[i] == fn;
    GroupOfDistinct(functions, i);
  }

  lemma {:induction false} ViewAgrees(f: Rec, slot: Slot)
    requires ListedTwice(slot) && DistinctKeys(Kids(f, Functions)) && Owned(Kids(f, Functions), slot)
    requires forall fn :: fn in Kids(f, Functions) ==> DistinctKeys(Kids(fn, slot))
    requires DistinctKeys(Kids(f, FlatSlot(slot)))
    requires RowMap(KidsOf(Kids(f, Functions), slot)) == RowMap(Kids(f, FlatSlot(slot)))
    ensures FileViewsAgree(f, slot)
  {
    forall s
      ensures Group(KidsOf(Kids(f, Functions), slot), s) == Group(Kids(f, FlatSlot(slot)), s)
    {
      EmbeddedOnce(Kids(f, Functions), slot, s);
      SingleGroup(Kids(f, FlatSlot(slot)), s);
      SameMapSameGroups(KidsOf(Kids(f, Functions), slot), Kids(f, FlatSlot(slot)), s);
    }
  }

  ghost predicate SiteViews(f: Rec) {
    FileViewsAgree(f, Sites) && FileViewsAgree(f, Branches)
  }

  lemma {:induction false} FileViews(f: Rec)
    requires FileOk(f) && FlatOnce(f) && OwnedRows(Kids(f, Functions))
    requires forall fn :: fn in Kids(f, Functions) ==> ListsOnce(fn)
    ensures SiteViews(f)
  {
    assert forall fn :: fn in Kids(f, Functions) ==> FunctionOk(fn);
    ViewAgrees(f, Sites);
    ViewAgrees(f, Branches);
  }

  lemma {:induction false} OwnedSubset(all: seq<Rec>, some: seq<Rec>, slot: Slot)
    requires Owned(all, slot) && forall r :: r in some ==> r in all
    ensures Owned(some, slot)
  {}

  lemma {:induction false} KidsSubset(all: seq<Rec>, some: seq<Rec>, slot: Slot)
    requires forall r :: r in some ==> r in all
    ensures forall c :: c in KidsOf(some, slot) ==> c in KidsOf(all, slot)
  {
    forall c | c in KidsOf(some, slot)
      ensures c in KidsOf(all, slot)
    {
      FlatMapMember(some, KidsAt(slot), c);
      FlatMapMember(all, KidsAt(slot), c);
    }
  }

  /** The copies of a path are checked files whose two views agree row by row. */
  ghost predicate GoodCopies(files: seq<Rec>) {
    && files != []
    && (forall f :: f in files ==> FileOk(f) && FlatOnce(f) && SiteViews(f))
    && OwnedRows(KidsOf(files, Functions))
    && SameEdges(KidsOf(files, Branches))
  }

  lemma {:induction false} CopiesAreGood(shards: seq<seq<Rec>>, fs: seq<Rec>, p: Key)
    requires fs == FlatMap(shards, Whole) && forall shard :: shard in shards ==> FilesOk(shard)
    requires Coherent(fs) && p in Keys(fs)
    ensures GoodCopies(Copies(fs, p))
  {
    var files := Copies(fs, p);
    GroupOfKey(fs, p);
    assert OwnedRows(KidsOf(files, Functions));
    assert SameEdges(KidsOf(files, Branches)) by {
      CopiesInside(fs, p);
      KidsSubset(fs, files, Branches);
    }
    forall f | f in files
      ensures FileOk(f) && FlatOnce(f) && SiteViews(f)
    {
      CopyIsGood(shards, fs, p, f);
    }
  }

  lemma {:induction false} CopiesInside(fs: seq<Rec>, p: Key)
    ensures forall f :: f in Copies(fs, p) ==> f in fs
  {
    forall f | f in Copies(fs, p)
      ensures f in fs
    {
      GroupMember(fs, p, f);
    }
  }

  lemma {:induction false} CopyIsGood(shards: seq<seq<Rec>>, fs: seq<Rec>, p: Key, f: Rec)
    requires fs == FlatMap(shards, Whole) && forall shard :: shard in shards ==> FilesOk(shard)
    requires Coherent(fs) && p in Keys(fs) && f in Copies(fs, p)
    ensures FileOk(f) && FlatOnce(f) && SiteViews(f)
  {
    GroupMember(fs, p, f);
    ShardFile(shards, f);
    FunctionsOfCopy(Copies(fs, p), f);
    FileViews(f);
  }

  lemma {:induction false} FunctionsOfCopy(files: seq<Rec>, f: Rec)
    requires f in files && OwnedRows(KidsOf(files, Functions))
    ensures OwnedRows(Kids(f, Functions))
  {
    forall fn | fn in Kids(f, Functions)
      ensures fn in KidsOf(files, Functions)
    {
      FlatMapMember(files, KidsAt(Functions), fn);
      assert fn in KidsAt(Functions)(f);
    }
    OwnedSubset(KidsOf(files, Functions), Kids(f, Functions), Sites);
    OwnedSubset(KidsOf(files, Functions), Kids(f, Functions), Branches);
  }

  // ---------------------------------------------------------------- the merged file

  lemma {:induction false} EmbeddedInFile(f: Rec, fn: Rec, b: Rec)
    requires FileViewsAgree(f, Branches) && fn in Kids(f, Functions) && b in Kids(fn, Branches)
    ensures b in Kids(f, Branches)
  {
    EmbeddedBranch(f, fn, b);
    SameGroupsSameRows(Embedded(f), Kids(f, Branches), b);
  }

  lemma {:induction false} KidIn(parents: seq<Rec>, slot: Slot, x: Rec)
    ensures x in KidsOf(parents, slot) <==> exists p :: p in parents && x in Kids(p, slot)
  {
    FlatMapMember(parents, KidsAt(slot), x);
    if p :| p in parents && x in Kids(p, slot) { assert x in KidsAt(slot)(p); }
  }

  lemma {:induction false} EmbeddedAreFlat(files: seq<Rec>)
    requires GoodCopies(files)
    ensures forall b :: b in KidsOf(KidsOf(files, Functions), Branches) ==> b in KidsOf(files, Branches)
  {
    forall b | b in KidsOf(KidsOf(files, Functions), Branches)
      ensures b in KidsOf(files, Branches)
    {
      KidIn(KidsOf(files, Functions), Branches, b);
      var fn :| fn in KidsOf(files, Functions) && b in Kids(fn, Branches);
      KidIn(files, Functions, fn);
      var f :| f in files && fn in Kids(f, Functions);
      assert SiteViews(f);
      EmbeddedInFile(f, fn, b);
      KidIn(files, Branches, b);
    }
  }

  /** A merged file has the checked shape, and its sites and branches are those of its functions. */
  lemma {:induction false} MergedFileGood(files: seq<Rec>)
    requires GoodCopies(files) && ConsistentGroup(files, FileKind)
    ensures var m := MergedGroup(files, FileKind); FileShape(m) && SiteViews(m)
  {
    MergedFileShape(files);
    MergedFileViews(files);
  }

  lemma {:induction false} MergedFileShape(files: seq<Rec>)
    requires GoodCopies(files) && ConsistentGroup(files, FileKind)
    ensures FileShape(MergedGroup(files, FileKind))
  {
    EmbeddedAreFlat(files);
    SameEdgesOfSome(KidsOf(files, Branches), KidsOf(KidsOf(files, Functions), Branches));
    forall f | f in files
      ensures FileShape(f)
    {
      assert FileOk(f);
    }
    MergedFile(files);
  }

  lemma {:induction false} SameEdgesOfSome(all: seq<Rec>, some: seq<Rec>)
    requires SameEdges(all) && forall b :: b in some ==> b in all
    ensures SameEdges(some)
  {}

  lemma {:induction false} MergedFileViews(files: seq<Rec>)
    requires GoodCopies(files)
    ensures SiteViews(MergedGroup(files, FileKind))
  {
    assert forall f :: f in files ==> SiteViews(f);
    MergedViewsAgree(files, Sites);
    MergedViewsAgree(files, Branches);
  }

  // ---------------------------------------------------------------- lines

  lemma {:induction false} LinesOfCopies(files: seq<Rec>)
    requires forall f :: f in files ==> FileOk(f)
    ensures LinesOk(files)
  {
    forall r | r in KidsOf(files, Lines)
      ensures LineOk(r)
    {
      var f := ChildParent(files, Lines, r);
      assert FileOk(f);
    }
    forall r | r in KidsOf(KidsOf(files, Functions), Statements)
      ensures LineOk(r)
    {
      var fn := ChildParent(KidsOf(files, Functions), Statements, r);
      var f := ChildParent(files, Functions, fn);
      assert FileOk(f) && FunctionShape(fn);
    }
    SameLineKeys(files);
  }

  lemma {:induction false} SameLineKeys(files: seq<Rec>)
    requires forall f :: f in files ==> FileOk(f)
    ensures Keys(KidsOf(KidsOf(files, Functions), Statements)) == Keys(KidsOf(files, Lines))
  {
    if files != [] {
      var f, rest := files[0], files[1..];
      assert f in files;
      SameLineKeys(rest);
      KidsAppend(Kids(f, Functions), KidsOf(rest, Functions), Statements);
      KeysAppend(KidsOf(Kids(f, Functions), Statements), KidsOf(KidsOf(rest, Functions), Statements));
      KeysAppend(Kids(f, Lines), KidsOf(rest, Lines));
      FileLineKeys(f);
    }
  }

  lemma {:induction false} FileLineKeys(f: Rec)
    requires FileOk(f)
    ensures Keys(KidsOf(Kids(f, Functions), Statements)) == Keys(Kids(f, Lines))
  {
    forall s
      ensures s in Keys(KidsOf(Kids(f, Functions), Statements)) <==> s in Keys(Kids(f, Lines))
    {
      RowMapKeys(KidsOf(Kids(f, Functions), Statements), s);
      RowMapKeys(Kids(f, Lines), s);
    }
  }

  /** When every line belongs to one function, consistently across shards, all lines agree. */
  lemma {:induction false} OneOwnerPerLine(shards: seq<seq<Rec>>, p: Key)
    requires forall shard :: shard in shards ==> FilesOk(shard)
    requires Owned(KidsOf(Copies(FlatMap(shards, Whole), p), Functions), Statements)
    ensures LinesAgree(Copies(FlatMap(shards, Whole), p))
  {
    var fs := FlatMap(shards, Whole);
    var files := Copies(fs, p);
    forall f | f in files
      ensures FileViewsAgree(f, Statements)
    {
      GroupMember(fs, p, f);
      ShardFile(shards, f);
      forall fn | fn in Kids(f, Functions)
        ensures fn in KidsOf(files, Functions) && DistinctKeys(Kids(fn, Statements))
      {
        KidIn(files, Functions, fn);
        assert FunctionShape(fn);
      }
      OwnedSubset(KidsOf(files, Functions), Kids(f, Functions), Statements);
      ViewAgrees(f, Statements);
    }
    OwnedLinesAgree(files);
  }

  // ---------------------------------------------------------------- freshness of embedded branches

  /** The embedded branch rows of one path, over all shards. */
  function EmbeddedCopies(files: seq<Rec>): seq<Rec> { KidsOf(KidsOf(files, Functions), Branches) }

  /** For every branch, no later shard took an edge that the first shard listing it missed. */
  ghost predicate EdgesSeenFirst(files: seq<Rec>) {
    forall s :: s in Keys(EmbeddedCopies(files)) ==>
      Group(EmbeddedCopies(files), s) != [] && FirstHitsAll(Group(EmbeddedCopies(files), s))
  }

  /** An embedded branch of the merged file is the merge of its copies. */
  lemma {:induction false} EmbeddedOrigin(files: seq<Rec>, s: Key)
    requires files != [] && Owned(KidsOf(files, Functions), Branches)
    ensures Group(Embedded(MergedGroup(files, FileKind)), s) == Group(Merged(EmbeddedCopies(files), BranchKind), s)
  {
    FileSlots();
    MergedKidsAt(files, FileKind, Functions);
    FlattenCommutes(KidsOf(files, Functions), FunctionKind, Branches, s);
  }

  /** All copies of an embedded branch are merged into one. */
  lemma {:induction false} EmbeddedAt(files: seq<Rec>, s: Key)
    requires files != [] && Owned(KidsOf(files, Functions), Branches) && s in Keys(EmbeddedCopies(files))
    ensures Group(EmbeddedCopies(files), s) != []
    ensures Group(Embedded(MergedGroup(files, FileKind)), s) == [MergedGroup(Group(EmbeddedCopies(files), s), BranchKind)]
  {
    EmbeddedOrigin(files, s);
    GroupOfMerged(EmbeddedCopies(files), BranchKind, s);
  }

  lemma {:induction false} EmbeddedFreshAt(files: seq<Rec>, s: Key)
    requires GoodCopies(files) && ConsistentGroup(files, FileKind) && s in Keys(EmbeddedCopies(files))
    ensures Group(EmbeddedCopies(files), s) != []
    ensures var b := MergedGroup(Group(EmbeddedCopies(files), s), BranchKind);
            && Group(Embedded(MergedGroup(files, FileKind)), s) == [b]
            && (BranchFresh(b) <==> FirstHitsAll(Group(EmbeddedCopies(files), s)))
  {
    EmbeddedAt(files, s);
    var items := Group(EmbeddedCopies(files), s);
    MergedEmbeddedShape(files, MergedGroup(items, BranchKind), s);
    GroupMember(EmbeddedCopies(files), s, items[0]);
    EmbeddedCopyOk(files, items[0]);
    FreshAfterMerge(items);
  }

  lemma {:induction false} MergedEmbeddedShape(files: seq<Rec>, b: Rec, s: Key)
    requires GoodCopies(files) && ConsistentGroup(files, FileKind)
    requires b in Group(Embedded(MergedGroup(files, FileKind)), s)
    ensures BranchShape(b)
  {
    var m := MergedGroup(files, FileKind);
    MergedFileGood(files);
    GroupMember(Embedded(m), s, b);
    var fn := ChildParent(Kids(m, Functions), Branches, b);
    assert FunctionShape(fn);
  }

  lemma {:induction false} EmbeddedCopyOk(files: seq<Rec>, b: Rec)
    requires GoodCopies(files) && b in EmbeddedCopies(files)
    ensures BranchOk(b)
  {
    EmbeddedAreFlat(files);
    var f := ChildParent(files, Branches, b);
    assert FileOk(f);
  }

  /** All embedded branches of the merged file are fresh exactly when every edge was seen first. */
  lemma {:induction false} EmbeddedFresh(files: seq<Rec>)
    requires GoodCopies(files) && ConsistentGroup(files, FileKind)
    ensures All(Embedded(MergedGroup(files, FileKind)), BranchFresh) <==> EdgesSeenFirst(files)
  {
    var embedded, copies := Embedded(MergedGroup(files, FileKind)), EmbeddedCopies(files);
    if EdgesSeenFirst(files) {
      forall b | b in embedded
        ensures BranchFresh(b)
      {
        FreshIfSeenFirst(files, b);
      }
    }
    if All(embedded, BranchFresh) {
      forall s | s in Keys(copies)
        ensures Group(copies, s) != [] && FirstHitsAll(Group(copies, s))
      {
        EmbeddedFreshAt(files, s);
        var b := MergedGroup(Group(copies, s), BranchKind);
        assert b in Group(embedded, s);
        GroupMember(embedded, s, b);
      }
    }
  }

  lemma {:induction false} FreshIfSeenFirst(files: seq<Rec>, b: Rec)
    requires GoodCopies(files) && ConsistentGroup(files, FileKind) && EdgesSeenFirst(files)
    requires b in Embedded(MergedGroup(files, FileKind))
    ensures BranchFresh(b)
  {
    var s := KeyOf(b);
    EmbeddedKey(files, b);
    EmbeddedFreshAt(files, s);
    SeenAt(files, s);
    GroupMember(Embedded(MergedGroup(files, FileKind)), s, b);
    OnlyMember(Group(Embedded(MergedGroup(files, FileKind)), s), MergedGroup(Group(EmbeddedCopies(files), s), BranchKind), b);
  }

  lemma {:induction false} SeenAt(files: seq<Rec>, s: Key)
    requires EdgesSeenFirst(files) && s in Keys(EmbeddedCopies(files))
    ensures Group(EmbeddedCopies(files), s) != [] && FirstHitsAll(Group(EmbeddedCopies(files), s))
  {}

  lemma {:induction false} OnlyMember(list: seq<Rec>, m: Rec, b: Rec)
    requires list == [m] && b in list
    ensures b == m
  {}

  lemma {:induction false} EmbeddedKey(files: seq<Rec>, b: Rec)
    requires files != [] && Owned(KidsOf(files, Functions), Branches)
    requires b in Embedded(MergedGroup(files, FileKind))
    ensures KeyOf(b) in Keys(EmbeddedCopies(files))
  {
    GroupMember(Embedded(MergedGroup(files, FileKind)), KeyOf(b), b);
    EmbeddedOrigin(files, KeyOf(b));
    MergedGroupSize(EmbeddedCopies(files), BranchKind, KeyOf(b));
  }

  // ---------------------------------------------------------------- identities across the merged files

  lemma {:induction false} DistinctFromGroups(rs: seq<Rec>)
    requires forall s :: |Group(rs, s)| <= 1
    ensures DistinctKeys(rs)
  {
    forall i, j | 0 <= i < j < |rs|
      ensures KeyOf(rs[i]) != KeyOf(rs[j])
    {
      if KeyOf(rs[i]) == KeyOf(rs[j]) { TwoInGroup(rs, i, j); }
    }
  }

  lemma {:induction false} TwoInGroup(rs: seq<Rec>, i: nat, j: nat)
    requires i < j < |rs| && KeyOf(rs[i]) == KeyOf(rs[j])
    ensures |Group(rs, KeyOf(rs[i]))| >= 2
  {
    var s := KeyOf(rs[i]);
    assert rs == rs[..i + 1] + rs[i + 1..];
    GroupAppend(rs[..i + 1], rs[i + 1..], s);
    assert rs[i] == rs[..i + 1][i] && rs[j] == rs[i + 1..][j - i - 1];
    GroupMember(rs[..i + 1], s, rs[i]);
    GroupMember(rs[i + 1..], s, rs[j]);
  }

  lemma {:induction false} MergedGroupSize(rs: seq<Rec>, kind: Kind, s: Key)
    ensures |Group(Merged(rs, kind), s)| <= 1
    ensures Group(Merged(rs, kind), s) != [] ==> s in Keys(rs)
  {
    GroupOfMerged(rs, kind, s);
  }

  /** Sites and branches keep distinct identities over all merged files. */
  lemma {:induction false} MergedSitesDistinct(fs: seq<Rec>)
    requires Owned(fs, Sites) && Owned(fs, Branches) && Keys(KidsOf(fs, Sites)) !! Keys(KidsOf(fs, Branches))
    ensures var m := Merged(fs, FileKind); DistinctKeys(KidsOf(m, Sites) + KidsOf(m, Branches))
  {
    var m := Merged(fs, FileKind);
    FileSlots();
    forall s
      ensures |Group(KidsOf(m, Sites) + KidsOf(m, Branches), s)| <= 1
    {
      GroupAppend(KidsOf(m, Sites), KidsOf(m, Branches), s);
      FlattenCommutes(fs, FileKind, Sites, s);
      FlattenCommutes(fs, FileKind, Branches, s);
      MergedGroupSize(KidsOf(fs, Sites), LeafKind, s);
      MergedGroupSize(KidsOf(fs, Branches), BranchKind, s);
    }
    DistinctFromGroups(KidsOf(m, Sites) + KidsOf(m, Branches));
  }

  lemma {:induction false} SameGroupsPermute(a: seq<Rec>, b: seq<Rec>)
    requires DistinctKeys(a) && DistinctKeys(b) && forall s :: Group(a, s) == Group(b, s)
    ensures multiset(a) == multiset(b)
  {
    assert Distinct(a) && Distinct(b);
    forall r
      ensures r in a <==> r in b
    {
      SameGroupsSameRows(a, b, r);
    }
    DistinctSameElements(a, b);
  }

  /** Edges keep distinct identities over all merged branches. */
  lemma {:induction false} MergedEdgesDistinct(fs: seq<Rec>)
    requires Owned(fs, Branches) && Owned(KidsOf(fs, Branches), Edges)
    requires DistinctKeys(KidsOf(Merged(fs, FileKind), Branches))
    ensures DistinctKeys(KidsOf(KidsOf(Merged(fs, FileKind), Branches), Edges))
  {
    var listed, merged := KidsOf(Merged(fs, FileKind), Branches), Merged(KidsOf(fs, Branches), BranchKind);
    FileSlots();
    forall s
      ensures Group(listed, s) == Group(merged, s)
    {
      FlattenCommutes(fs, FileKind, Branches, s);
    }
    MergedKeys(KidsOf(fs, Branches), BranchKind);
    SameGroupsPermute(listed, merged);
    forall e
      ensures |Group(KidsOf(listed, Edges), e)| <= 1
    {
      OneMergedEdge(KidsOf(fs, Branches), listed, e);
    }
    DistinctFromGroups(KidsOf(listed, Edges));
  }

  lemma {:induction false} OneMergedEdge(branches: seq<Rec>, listed: seq<Rec>, e: Key)
    requires Owned(branches, Edges) && multiset(listed) == multiset(Merged(branches, BranchKind))
    ensures |Group(KidsOf(listed, Edges), e)| <= 1
  {
    var merged := Merged(branches, BranchKind);
    SameGroupSize(listed, merged, e);
    assert Edges in Slots(BranchKind) && ChildKind(Edges) == LeafKind;
    FlattenCommutes(branches, BranchKind, Edges, e);
    MergedGroupSize(KidsOf(branches, Edges), LeafKind, e);
  }

  lemma {:induction false} SameGroupSize(a: seq<Rec>, b: seq<Rec>, e: Key)
    requires multiset(a) == multiset(b)
    ensures |Group(KidsOf(a, Edges), e)| == |Group(KidsOf(b, Edges), e)|
  {
    FlatMapPermutation(a, b, KidsAt(Edges));
    FlatMapPermutation(KidsOf(a, Edges), KidsOf(b, Edges), Pick(e));
    SameMembers(Group(KidsOf(a, Edges), e), Group(KidsOf(b, Edges), e));
  }

  lemma {:induction false} RecomputedIdentities(files: seq<Rec>)
    requires All(files, FileShape) && DistinctKeys(files)
    requires DistinctKeys(KidsOf(files, Sites) + KidsOf(files, Branches))
    requires DistinctKeys(KidsOf(KidsOf(files, Branches), Edges))
    ensures var out := Each(files, RecomputeFile);
            && DistinctKeys(out)
            && DistinctKeys(KidsOf(out, Sites) + KidsOf(out, Branches))
            && DistinctKeys(KidsOf(KidsOf(out, Branches), Edges))
  {
    var out := Each(files, RecomputeFile);
    EachDistinct(files, RecomputeFile);
    SameChildren(files, RecomputeFile, Sites);
    RecomputedBranchLists(files);
    var bs := KidsOf(files, Branches);
    assert KidsOf(out, Branches) == Each(bs, RecomputeBranch);
    SameChildren(bs, RecomputeBranch, Edges);
    var all, now := KidsOf(files, Sites) + bs, KidsOf(out, Sites) + KidsOf(out, Branches);
    forall i, j | 0 <= i < j < |now|
      ensures KeyOf(now[i]) != KeyOf(now[j])
    {
      assert KeyOf(now[i]) == KeyOf(all[i]) && KeyOf(now[j]) == KeyOf(all[j]);
    }
  }

  lemma {:induction false} RecomputedBranchLists(files: seq<Rec>)
    ensures KidsOf(Each(files, RecomputeFile), Branches) == Each(KidsOf(files, Branches), RecomputeBranch)
  {
    if files != [] {
      RecomputedBranchLists(files[1..]);
      assert Each(files, RecomputeFile)[1..] == Each(files[1..], RecomputeFile);
    }
  }

  // ---------------------------------------------------------------- the theorem

  /** What the copies of one path must satisfy for their merge to pass again. */
  ghost predicate PathAccepted(files: seq<Rec>) {
    EdgesSeenFirst(files) && LinesAgree(files)
  }

  /** For checked shards that describe one program and whose metadata agrees, the merged and
      recomputed files pass the checker exactly when, for every branch, no later shard took an edge
      that the first shard listing it had missed, and for every line, the last function listing it
      saw all the hits of the line. */
  lemma {:induction false} MergedFilesAccepted(shards: seq<seq<Rec>>)
    requires forall shard :: shard in shards ==> FilesOk(shard)
    requires var fs := FlatMap(shards, Whole); Consistent(fs, FileKind) && Coherent(fs)
    ensures var fs := FlatMap(shards, Whole);
            FilesOk(Each(Merged(fs, FileKind), RecomputeFile)) <==> forall p :: p in Keys(fs) ==> PathAccepted(Copies(fs, p))
  {
    var fs := FlatMap(shards, Whole);
    var merged := Merged(fs, FileKind);
    var out := Each(merged, RecomputeFile);
    forall m | m in merged
      ensures KeyOf(m) in Keys(fs) && FileShape(m)
      ensures FileOk(RecomputeFile(m)) <==> PathAccepted(Copies(fs, KeyOf(m)))
    {
      MergedFileAccepted(shards, fs, m);
    }
    MergedIdentities(fs);
    EachMember(merged, RecomputeFile);
    EveryPathMerged(fs);
    if All(out, FileOk) {
      forall p | p in Keys(fs)
        ensures PathAccepted(Copies(fs, p))
      {
        var m :| m in merged && KeyOf(m) == p;
        assert FileOk(RecomputeFile(m));
      }
    }
  }

  lemma {:induction false} MergedIdentities(fs: seq<Rec>)
    requires Coherent(fs) && All(Merged(fs, FileKind), FileShape)
    ensures var out := Each(Merged(fs, FileKind), RecomputeFile);
            && DistinctKeys(out)
            && DistinctKeys(KidsOf(out, Sites) + KidsOf(out, Branches))
            && DistinctKeys(KidsOf(KidsOf(out, Branches), Edges))
  {
    var merged := Merged(fs, FileKind);
    MergedKeys(fs, FileKind);
    MergedSitesDistinct(fs);
    DistinctParts(KidsOf(merged, Sites), KidsOf(merged, Branches));
    MergedEdgesDistinct(fs);
    RecomputedIdentities(merged);
  }

  lemma {:induction false} EveryPathMerged(fs: seq<Rec>)
    ensures forall p :: p in Keys(fs) ==> exists m :: m in Merged(fs, FileKind) && KeyOf(m) == p
  {
    MergedKeys(fs, FileKind);
    forall p | p in Keys(fs)
      ensures exists m :: m in Merged(fs, FileKind) && KeyOf(m) == p
    {
      assert p in Keys(Merged(fs, FileKind));
    }
  }

  lemma {:induction false} MergedFileAccepted(shards: seq<seq<Rec>>, fs: seq<Rec>, m: Rec)
    requires fs == FlatMap(shards, Whole) && forall shard :: shard in shards ==> FilesOk(shard)
    requires Consistent(fs, FileKind) && Coherent(fs) && m in Merged(fs, FileKind)
    ensures KeyOf(m) in Keys(fs) && FileShape(m)
    ensures FileOk(RecomputeFile(m)) <==> PathAccepted(Copies(fs, KeyOf(m)))
  {
    var files := Origin(fs, FileKind, m);
    MergedMember(fs, FileKind, m);
    CopiesAreGood(shards, fs, KeyOf(m));
    MergedFileGood(files);
    EmbeddedFresh(files);
    LinesOfCopies(files);
    MergedLinesMatch(files);
    FileRecomputed(m);
  }
}
