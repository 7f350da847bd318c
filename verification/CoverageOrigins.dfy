/** The merged and rebuilt files list, metadata for metadata, what the shards' files list. */
module CoverageOrigins {
  import opened Seqs
  import opened Records
  import opened Flattening
  import opened CoverageShape
  import opened Recompute
  import opened CoverageFile

  // ---------------------------------------------------------------- a record survives the merge

  /** Every record has a merged record with its metadata, and its children survive below that. */
  lemma {:induction false} Kept(rs: seq<Rec>, kind: Kind, r: Rec) returns (m: Rec)
    requires Consistent(rs, kind) && r in rs
    ensures m in Merged(rs, kind) && m.meta == r.meta
    ensures KidsBelow(r, m, kind)
  {
    var k := KeyOf(r);
    assert k in Keys(rs);
    GroupOfMerged(rs, kind, k);
    var items := Group(rs, k);
    m := MergedGroup(items, kind);
    GroupMember(Merged(rs, kind), k, m);
    GroupMember(rs, k, r);
    assert ConsistentGroup(items, kind);
    SameMetaAs(items, r);
    forall slot, c | slot in Slots(kind) && c in Kids(r, slot)
      ensures Below(m, slot, c)
    {
      MergedKidsAt(items, kind, slot);
      FlatMapMember(items, KidsAt(slot), c);
      assert c in KidsAt(slot)(r);
    }
  }

  lemma {:induction false} SameMetaAs(items: seq<Rec>, r: Rec)
    requires SameMeta(items) && r in items
    ensures items[0].meta == r.meta
  {
    var i :| 0 <= i < |items| && items[i] == r;
  }

  /** The children of `m` in the slot are the merge of a list that `c` is on. */
  ghost predicate Below(m: Rec, slot: Slot, c: Rec) {
    exists list :: c in list && Consistent(list, ChildKind(slot)) && Kids(m, slot) == Merged(list, ChildKind(slot))
  }

  /** All children of `r` are below `m`. */
  ghost predicate KidsBelow(r: Rec, m: Rec, kind: Kind) {
    forall slot, c :: slot in Slots(kind) && c in Kids(r, slot) ==> Below(m, slot, c)
  }

  lemma {:induction false} KeptChild(m: Rec, slot: Slot, c: Rec) returns (d: Rec)
    requires Below(m, slot, c)
    ensures d in Kids(m, slot) && d.meta == c.meta
    ensures KidsBelow(c, d, ChildKind(slot))
  {
    var list :| c in list && Consistent(list, ChildKind(slot)) && Kids(m, slot) == Merged(list, ChildKind(slot));
    d := Kept(list, ChildKind(slot), c);
  }

  // ---------------------------------------------------------------- what the rebuilt files list

  function Rebuilt(fs: seq<Rec>): seq<Rec> { Each(Merged(fs, FileKind), RecomputeFile) }

  lemma {:induction false} RebuiltFile(fs: seq<Rec>, m: Rec)
    requires m in Merged(fs, FileKind)
    ensures RecomputeFile(m) in Rebuilt(fs) && RecomputeFile(m).meta == m.meta
  {
    EachMember(Merged(fs, FileKind), RecomputeFile);
  }

  /** The lists of a file whose rows have an identity of their own. */
  predicate FileSlot(slot: Slot) { slot.Functions? || slot.Sites? || slot.Branches? }

  /** A child list of a recomputed file keeps its metadata and, below it, its edges. */
  lemma {:induction false} RecomputedChild(m: Rec, slot: Slot, d: Rec) returns (x: Rec)
    requires FileSlot(slot) && d in Kids(m, slot)
    ensures x in Kids(RecomputeFile(m), slot) && x.meta == d.meta && Kids(x, Edges) == Kids(d, Edges)
  {
    match slot
    case Functions =>
      EachMember(Kids(m, Functions), RecomputeFunction);
      x := RecomputeFunction(d);
    case Branches =>
      EachMember(Kids(m, Branches), RecomputeBranch);
      x := RecomputeBranch(d);
    case _ => x := d;
  }

  /** A child of a shard's file has a counterpart below the merged file of the same path. */
  lemma {:induction false} ChildKept(fs: seq<Rec>, f: Rec, slot: Slot, c: Rec) returns (file: Rec, x: Rec)
    requires Consistent(fs, FileKind) && f in fs
    requires FileSlot(slot) && c in Kids(f, slot)
    ensures file in Rebuilt(fs) && file.meta == f.meta
    ensures x in Kids(file, slot) && x.meta == c.meta
    ensures slot.Branches? ==> EdgesBelow(c, x)
  {
    var m, d := MergedChild(fs, f, slot, c);
    RebuiltFile(fs, m);
    file := RecomputeFile(m);
    x := RecomputedChild(m, slot, d);
    if slot.Branches? { SameEdgesBelow(c, d, x); }
  }

  ghost predicate EdgesBelow(c: Rec, d: Rec) {
    forall e :: e in Kids(c, Edges) ==> Below(d, Edges, e)
  }

  lemma {:induction false} MergedChild(fs: seq<Rec>, f: Rec, slot: Slot, c: Rec) returns (m: Rec, d: Rec)
    requires Consistent(fs, FileKind) && f in fs
    requires FileSlot(slot) && c in Kids(f, slot)
    ensures m in Merged(fs, FileKind) && m.meta == f.meta
    ensures d in Kids(m, slot) && d.meta == c.meta
    ensures slot.Branches? ==> EdgesBelow(c, d)
  {
    m := KeptFile(fs, f, slot, c);
    if slot.Branches? {
      d := KeptBranch(m, c);
    } else {
      d := KeptChild(m, slot, c);
    }
  }

  lemma {:induction false} KeptFile(fs: seq<Rec>, f: Rec, slot: Slot, c: Rec) returns (m: Rec)
    requires Consistent(fs, FileKind) && f in fs
    requires FileSlot(slot) && c in Kids(f, slot)
    ensures m in Merged(fs, FileKind) && m.meta == f.meta && Below(m, slot, c)
  {
    m := Kept(fs, FileKind, f);
    assert slot in Slots(FileKind);
  }

  lemma {:induction false} BranchEdges(b: Rec, d: Rec)
    requires KidsBelow(b, d, ChildKind(Branches))
    ensures EdgesBelow(b, d)
  {
    assert Edges in Slots(ChildKind(Branches));
  }

  lemma {:induction false} KeptBranch(m: Rec, b: Rec) returns (d: Rec)
    requires Below(m, Branches, b)
    ensures d in Kids(m, Branches) && d.meta == b.meta && EdgesBelow(b, d)
  {
    d := KeptChild(m, Branches, b);
    BranchEdges(b, d);
  }

  lemma {:induction false} SameEdgesBelow(c: Rec, d: Rec, x: Rec)
    requires EdgesBelow(c, d) && Kids(x, Edges) == Kids(d, Edges)
    ensures EdgesBelow(c, x)
  {
    forall e | e in Kids(c, Edges)
      ensures Below(x, Edges, e)
    {
      SameKidsBelow(d, x, Edges, e);
    }
  }

  lemma {:induction false} SameKidsBelow(d: Rec, x: Rec, slot: Slot, e: Rec)
    requires Kids(x, slot) == Kids(d, slot) && Below(d, slot, e)
    ensures Below(x, slot, e)
  {}

  // ---------------------------------------------------------------- and nothing else

  /** Every rebuilt file is the rebuilt merge of its copies. */
  lemma {:induction false} FileOrigin(fs: seq<Rec>, file: Rec) returns (m: Rec, items: seq<Rec>)
    requires Consistent(fs, FileKind) && file in Rebuilt(fs)
    ensures m in Merged(fs, FileKind) && file == RecomputeFile(m) && file.meta == m.meta
    ensures items != [] && m == MergedGroup(items, FileKind) && ConsistentGroup(items, FileKind)
    ensures forall r :: r in items ==> r in fs && r.meta == m.meta
  {
    EachMember(Merged(fs, FileKind), RecomputeFile);
    m :| m in Merged(fs, FileKind) && file == RecomputeFile(m);
    items := Origin(fs, FileKind, m);
  }

  lemma {:induction false} UnrecomputedChild(m: Rec, slot: Slot, x: Rec) returns (d: Rec)
    requires FileSlot(slot) && x in Kids(RecomputeFile(m), slot)
    ensures d in Kids(m, slot) && d.meta == x.meta
  {
    RecomputedLists(m);
    match slot
    case Functions =>
      EachMember(Kids(m, Functions), RecomputeFunction);
      d :| d in Kids(m, Functions) && x == RecomputeFunction(d);
    case Branches =>
      EachMember(Kids(m, Branches), RecomputeBranch);
      d :| d in Kids(m, Branches) && x == RecomputeBranch(d);
    case _ => d := x;
  }

  lemma {:induction false} MergedChildOrigin(items: seq<Rec>, slot: Slot, m: Rec, d: Rec) returns (f: Rec, c: Rec)
    requires items != [] && ConsistentGroup(items, FileKind) && m == MergedGroup(items, FileKind)
    requires slot in Slots(FileKind) && d in Kids(m, slot)
    ensures f in items && c in Kids(f, slot) && c.meta == d.meta
  {
    MergedKidsAt(items, FileKind, slot);
    var list := Origin(KidsOf(items, slot), ChildKind(slot), d);
    c := list[0];
    assert c in list;
    f := ChildParent(items, slot, c);
  }

  /** Everything a rebuilt file lists was listed, with the same metadata, by some shard's file of its path. */
  lemma {:induction false} ChildOrigin(fs: seq<Rec>, file: Rec, slot: Slot, x: Rec) returns (f: Rec, c: Rec)
    requires Consistent(fs, FileKind) && file in Rebuilt(fs)
    requires FileSlot(slot) && x in Kids(file, slot)
    ensures f in fs && f.meta == file.meta
    ensures c in Kids(f, slot) && c.meta == x.meta
  {
    var m, items := FileOrigin(fs, file);
    var d := UnrecomputedChild(m, slot, x);
    f, c := MergedChildOrigin(items, slot, m, d);
  }
}
