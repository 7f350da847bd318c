/** A coverage file lists its statements, sites and branches twice: inside its
    functions and flat. Merging the two views separately keeps them equal. */
module Flattening {
  import opened Seqs
  import opened Records

  /** Every child key belongs to one parent key. */
  ghost predicate Owned(parents: seq<Rec>, slot: Slot) {
    forall f, g, s ::
      f in parents && g in parents && s in Keys(Kids(f, slot)) && s in Keys(Kids(g, slot)) ==> KeyOf(f) == KeyOf(g)
  }

  /** Only parents with key `k` have a child with key `s`. */
  ghost predicate OnlyUnder(parents: seq<Rec>, slot: Slot, s: Key, k: Key) {
    forall f :: f in parents && KeyOf(f) != k ==> s !in Keys(Kids(f, slot))
  }

  lemma {:induction false} GroupUnderOwner(parents: seq<Rec>, slot: Slot, s: Key, k: Key)
    requires OnlyUnder(parents, slot, s, k)
    ensures Group(KidsOf(parents, slot), s) == Group(KidsOf(Group(parents, k), slot), s)
  {
    if parents != [] {
      var f, rest := parents[0], parents[1..];
      assert f in parents;
      assert forall g :: g in rest ==> g in parents;
      GroupUnderOwner(rest, slot, s, k);
      FlatMapAppend(Kids(f, slot), KidsOf(rest, slot), Pick(s));
      if KeyOf(f) == k {
        assert Group(parents, k) == [f] + Group(rest, k);
        KidsAppend([f], Group(rest, k), slot);
        KidsOfOne(f, slot);
        FlatMapAppend(Kids(f, slot), KidsOf(Group(rest, k), slot), Pick(s));
      } else {
        GroupOfKey(Kids(f, slot), s);
        assert Group(parents, k) == Group(rest, k);
      }
    }
  }

  lemma {:induction false} ChildParent(parents: seq<Rec>, slot: Slot, c: Rec) returns (f: Rec)
    requires c in KidsOf(parents, slot)
    ensures f in parents && c in Kids(f, slot)
  {
    FlatMapMember(parents, KidsAt(slot), c);
    f :| f in parents && c in KidsAt(slot)(f);
  }

  lemma {:induction false} ChildOf(parents: seq<Rec>, slot: Slot, s: Key) returns (f: Rec)
    requires s in Keys(KidsOf(parents, slot))
    ensures f in parents && s in Keys(Kids(f, slot))
  {
    var c :| c in KidsOf(parents, slot) && KeyOf(c) == s;
    FlatMapMember(parents, KidsAt(slot), c);
    f :| f in parents && c in KidsAt(slot)(f);
  }

  lemma {:induction false} ChildIn(parents: seq<Rec>, slot: Slot, f: Rec, s: Key)
    requires f in parents && s in Keys(Kids(f, slot))
    ensures s in Keys(KidsOf(parents, slot))
  {
    var c :| c in Kids(f, slot) && KeyOf(c) == s;
    FlatMapMember(parents, KidsAt(slot), c);
    assert c in KidsAt(slot)(f);
  }

  lemma {:induction false} OwnerIsUnique(parents: seq<Rec>, slot: Slot, s: Key, f: Rec)
    requires Owned(parents, slot) && f in parents && s in Keys(Kids(f, slot))
    ensures OnlyUnder(parents, slot, s, KeyOf(f))
  {
  }

  /** A merged record comes from the records of its key. */
  lemma {:induction false} MergedMember(rs: seq<Rec>, kind: Kind, m: Rec)
    requires m in Merged(rs, kind)
    ensures KeyOf(m) in Keys(rs) && Group(rs, KeyOf(m)) != [] && m == MergedGroup(Group(rs, KeyOf(m)), kind)
  {
    var i :| 0 <= i < |Merged(rs, kind)| && Merged(rs, kind)[i] == m;
    MergedAt(rs, kind, i);
    GroupOfKey(rs, KeyOf(m));
  }

  /** Merging parents does not move a child to another owner. */
  lemma {:induction false} MergedOwner(parents: seq<Rec>, kind: Kind, slot: Slot, s: Key, k: Key)
    requires slot in Slots(kind) && OnlyUnder(parents, slot, s, k)
    ensures OnlyUnder(Merged(parents, kind), slot, s, k)
  {
    forall m | m in Merged(parents, kind) && KeyOf(m) != k
      ensures s !in Keys(Kids(m, slot))
    {
      MergedElsewhere(parents, kind, slot, s, k, m);
    }
  }

  lemma {:induction false} MergedElsewhere(parents: seq<Rec>, kind: Kind, slot: Slot, s: Key, k: Key, m: Rec)
    requires slot in Slots(kind) && OnlyUnder(parents, slot, s, k) && m in Merged(parents, kind) && KeyOf(m) != k
    ensures s !in Keys(Kids(m, slot))
  {
    MergedMember(parents, kind, m);
    var items := Group(parents, KeyOf(m));
    MergedKidsAt(items, kind, slot);
    MergedKeys(KidsOf(items, slot), ChildKind(slot));
    if s in Keys(KidsOf(items, slot)) {
      var f := ChildOf(items, slot, s);
      GroupMember(parents, KeyOf(m), f);
    }
  }

  /** Merging the parents and then listing their children gives, key by key, the same records as
      listing all children and merging those. */
  lemma {:induction false} FlattenCommutes(parents: seq<Rec>, kind: Kind, slot: Slot, s: Key)
    requires slot in Slots(kind) && Owned(parents, slot)
    ensures Group(KidsOf(Merged(parents, kind), slot), s) == Group(Merged(KidsOf(parents, slot), ChildKind(slot)), s)
  {
    if s in Keys(KidsOf(parents, slot)) {
      var f := ChildOf(parents, slot, s);
      OwnerIsUnique(parents, slot, s, f);
      FlattenUnderOwner(parents, kind, slot, s, KeyOf(f));
    } else {
      forall m | m in Merged(parents, kind)
        ensures s !in Keys(Kids(m, slot))
      {
        MergedMember(parents, kind, m);
        NoNewChildren(parents, kind, slot, s, KeyOf(m));
      }
      NoChild(Merged(parents, kind), slot, s);
      GroupOfMerged(KidsOf(parents, slot), ChildKind(slot), s);
    }
  }

  lemma {:induction false} NoChild(parents: seq<Rec>, slot: Slot, s: Key)
    requires forall m :: m in parents ==> s !in Keys(Kids(m, slot))
    ensures Group(KidsOf(parents, slot), s) == []
  {
    GroupOfKey(KidsOf(parents, slot), s);
    if s in Keys(KidsOf(parents, slot)) {
      var f := ChildOf(parents, slot, s);
    }
  }

  lemma {:induction false} NoNewChildren(parents: seq<Rec>, kind: Kind, slot: Slot, s: Key, k: Key)
    requires slot in Slots(kind) && s !in Keys(KidsOf(parents, slot)) && Group(parents, k) != []
    ensures s !in Keys(Kids(MergedGroup(Group(parents, k), kind), slot))
  {
    var items := Group(parents, k);
    MergedKeys(KidsOf(items, slot), ChildKind(slot));
    if s in Keys(KidsOf(items, slot)) {
      var f := ChildOf(items, slot, s);
      GroupMember(parents, k, f);
      ChildIn(parents, slot, f, s);
    }
  }

  lemma {:induction false} FlattenUnderOwner(parents: seq<Rec>, kind: Kind, slot: Slot, s: Key, k: Key)
    requires slot in Slots(kind) && OnlyUnder(parents, slot, s, k) && k in Keys(parents)
    ensures Group(KidsOf(Merged(parents, kind), slot), s) == Group(Merged(KidsOf(parents, slot), ChildKind(slot)), s)
  {
    var items := Group(parents, k);
    var listed := KidsOf(items, slot);
    MergedOwner(parents, kind, slot, s, k);
    GroupUnderOwner(Merged(parents, kind), slot, s, k);
    GroupOfMerged(parents, kind, k);
    KidsOfOne(MergedGroup(items, kind), slot);
    assert Group(KidsOf(Merged(parents, kind), slot), s) == Group(Merged(listed, ChildKind(slot)), s);
    GroupUnderOwner(parents, slot, s, k);
    GroupOfMerged(listed, ChildKind(slot), s);
    GroupOfMerged(KidsOf(parents, slot), ChildKind(slot), s);
    GroupOfKey(listed, s);
    GroupOfKey(KidsOf(parents, slot), s);
  }

  // ---------------------------------------------------------------- the two views of a file

  /** Row for row, the flat list `flat` repeats what the functions list under `slot`. */
  ghost predicate ViewsAgree(functions: seq<Rec>, slot: Slot, flat: seq<Rec>) {
    forall s :: Group(KidsOf(functions, slot), s) == Group(flat, s)
  }

  /** What both the functions and the file list. */
  predicate ListedTwice(slot: Slot) {
    slot.Statements? || slot.Sites? || slot.Branches?
  }

  function FlatSlot(slot: Slot): (flat: Slot)
    ensures ChildKind(flat) == ChildKind(slot)
    ensures ListedTwice(slot) ==> flat in Slots(FileKind) && slot in Slots(FunctionKind)
  {
    if slot.Statements? then Lines else slot
  }

  ghost predicate FileViewsAgree(file: Rec, slot: Slot) {
    ViewsAgree(Kids(file, Functions), slot, Kids(file, FlatSlot(slot)))
  }

  lemma {:induction false} ViewsOfAllFiles(files: seq<Rec>, slot: Slot, s: Key)
    requires forall f :: f in files ==> FileViewsAgree(f, slot)
    ensures Group(KidsOf(KidsOf(files, Functions), slot), s) == Group(KidsOf(files, FlatSlot(slot)), s)
  {
    if files == [] {
      assert KidsOf(files, Functions) == [] && KidsOf(files, FlatSlot(slot)) == [];
      assert KidsOf(KidsOf(files, Functions), slot) == [];
    } else {
      var f, rest := files[0], files[1..];
      assert f in files;
      assert forall g :: g in rest ==> g in files;
      ViewsOfAllFiles(rest, slot, s);
      assert KidsOf(files, Functions) == Kids(f, Functions) + KidsOf(rest, Functions);
      assert KidsOf(files, FlatSlot(slot)) == Kids(f, FlatSlot(slot)) + KidsOf(rest, FlatSlot(slot));
      KidsAppend(Kids(f, Functions), KidsOf(rest, Functions), slot);
      GroupAppend(KidsOf(Kids(f, Functions), slot), KidsOf(KidsOf(rest, Functions), slot), s);
      GroupAppend(Kids(f, FlatSlot(slot)), KidsOf(rest, FlatSlot(slot)), s);
      assert ViewsAgree(Kids(f, Functions), slot, Kids(f, FlatSlot(slot))) by { assert FileViewsAgree(f, slot); }
      assert Group(KidsOf(Kids(f, Functions), slot), s) == Group(Kids(f, FlatSlot(slot)), s);
    }
  }

  lemma {:induction false} GroupAppend(a: seq<Rec>, b: seq<Rec>, s: Key)
    ensures Group(a + b, s) == Group(a, s) + Group(b, s)
  {
    FlatMapAppend(a, b, Pick(s));
  }

  /** Equal groups merge to equal groups. */
  lemma {:induction false} SameGroupSameMerge(a: seq<Rec>, b: seq<Rec>, kind: Kind, s: Key)
    requires Group(a, s) == Group(b, s)
    ensures Group(Merged(a, kind), s) == Group(Merged(b, kind), s)
  {
    GroupOfMerged(a, kind, s);
    GroupOfMerged(b, kind, s);
    GroupOfKey(a, s);
    GroupOfKey(b, s);
  }

  /** The two views of a file still agree after its shard copies have been merged, provided every
      row is owned by one function across all of them. */
  lemma {:induction false} MergedViewsAgree(files: seq<Rec>, slot: Slot)
    requires files != [] && ListedTwice(slot)
    requires forall f :: f in files ==> FileViewsAgree(f, slot)
    requires Owned(KidsOf(files, Functions), slot)
    ensures FileViewsAgree(MergedGroup(files, FileKind), slot)
  {
    MergedKidsAt(files, FileKind, Functions);
    MergedKidsAt(files, FileKind, FlatSlot(slot));
    MergedListsAgree(files, slot, Kids(MergedGroup(files, FileKind), Functions),
                     Kids(MergedGroup(files, FileKind), FlatSlot(slot)));
  }

  lemma {:induction false} MergedListsAgree(files: seq<Rec>, slot: Slot, functions: seq<Rec>, flat: seq<Rec>)
    requires ListedTwice(slot)
    requires forall f :: f in files ==> FileViewsAgree(f, slot)
    requires Owned(KidsOf(files, Functions), slot)
    requires functions == Merged(KidsOf(files, Functions), FunctionKind)
    requires flat == Merged(KidsOf(files, FlatSlot(slot)), ChildKind(slot))
    ensures ViewsAgree(functions, slot, flat)
  {
    forall s
      ensures Group(KidsOf(functions, slot), s) == Group(flat, s)
    {
      ViewsOfAllFiles(files, slot, s);
      RowsStayEqual(KidsOf(files, Functions), KidsOf(files, FlatSlot(slot)), slot, s);
    }
  }

  lemma {:induction false} RowsStayEqual(fs: seq<Rec>, flat: seq<Rec>, slot: Slot, s: Key)
    requires ListedTwice(slot) && Owned(fs, slot)
    requires Group(KidsOf(fs, slot), s) == Group(flat, s)
    ensures Group(KidsOf(Merged(fs, FunctionKind), slot), s) == Group(Merged(flat, ChildKind(slot)), s)
  {
    FlattenCommutes(fs, FunctionKind, slot, s);
    SameGroupSameMerge(KidsOf(fs, slot), flat, ChildKind(slot), s);
  }

  lemma {:induction false} MergedKidsAt(items: seq<Rec>, kind: Kind, slot: Slot)
    requires items != [] && slot in Slots(kind)
    ensures Kids(MergedGroup(items, kind), slot) == Merged(KidsOf(items, slot), ChildKind(slot))
  {}
}
