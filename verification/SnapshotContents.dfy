/** What a merged snapshot inventory reports, said of the fields of the shards' entries. */
module SnapshotContents {
  import opened Orders
  import opened Seqs
  import opened Text
  import opened Snapshots
  import opened SnapshotLaws

  // ---------------------------------------------------------------- entries

  /** A shard's entry of that backend and path. */
  ghost predicate Copy(docs: seq<Inventory>, backend: string, path: string, e: Entry) {
    (exists d :: d in docs && e in d.entries) && e.backend == backend && e.absolutePath == path
  }

  lemma {:induction false} CopyListed(docs: seq<Inventory>, m: Entry, e: Entry)
    ensures Copy(docs, m.backend, m.absolutePath, e) <==> e in FlatMap(docs, EntriesOf) && KeyOf(e) == KeyOf(m)
  {
    FlatMapMember(docs, EntriesOf, e);
    if d :| d in docs && e in d.entries { assert e in EntriesOf(d); }
    if d :| d in docs && e in EntriesOf(d) { assert e in d.entries; }
  }

  /** A merged entry has a flag when some shard's copy has it, lists what some copy lists, and its
      status follows from its flags. */
  lemma {:induction false} EntryMeans(docs: seq<Inventory>, m: Entry)
    requires m in Merged(docs).entries
    ensures m.referenced <==> exists e :: Copy(docs, m.backend, m.absolutePath, e) && e.referenced
    ensures m.declared <==> exists e :: Copy(docs, m.backend, m.absolutePath, e) && e.declared
    ensures m.dynamic <==> exists e :: Copy(docs, m.backend, m.absolutePath, e) && e.dynamic
    ensures m.stored <==> exists e :: Copy(docs, m.backend, m.absolutePath, e) && e.stored
    ensures m.unsafe <==> exists e :: Copy(docs, m.backend, m.absolutePath, e) && e.unsafe
    ensures forall x :: x in m.executionIds <==> exists e :: Copy(docs, m.backend, m.absolutePath, e) && x in e.executionIds
    ensures forall x :: x in m.observedStatuses <==>
              exists e :: Copy(docs, m.backend, m.absolutePath, e) && x in e.observedStatuses
    ensures StatusMeans(m)
  {
    var all := FlatMap(docs, EntriesOf);
    var k := KeyOf(m);
    MergedEntryAt(all, m, k);
    JoinedAt(all, k);
    forall e
      ensures Copy(docs, m.backend, m.absolutePath, e) <==> e in all && KeyOf(e) == k
    {
      CopyListed(docs, m, e);
    }
    FlagsOf(m, JoinAll(all)[k]);
    assert forall e :: IsReferenced(e) == e.referenced && IsDeclared(e) == e.declared && IsDynamic(e) == e.dynamic;
    assert forall e :: IsStored(e) == e.stored && IsUnsafe(e) == e.unsafe;
    assert forall x :: x in m.executionIds <==> Executed(all, k, x);
    assert forall x :: x in m.observedStatuses <==> Observed(all, k, x);
  }

  predicate StatusMeans(m: Entry) {
    && (m.status == Referenced <==> (m.referenced || m.declared) && m.stored)
    && (m.status == Missing <==> (m.referenced || m.declared) && !m.stored)
    && (m.status == Obsolete <==> !m.referenced && !m.declared)
  }

  lemma {:induction false} FlagsOf(m: Entry, joined: Entry)
    requires m == Judged(joined)
    ensures StatusMeans(m) && m == joined.(status := m.status)
  {}

  /** Entries and roots are in the order of their backends, within one backend of their paths. */
  lemma {:induction false} InventoryInOrder(docs: seq<Inventory>, i: nat, j: nat)
    ensures i < j < |Merged(docs).entries| ==>
      var a, b := Merged(docs).entries[i], Merged(docs).entries[j];
      if a.backend == b.backend then a.absolutePath != b.absolutePath && StrLe(a.absolutePath, b.absolutePath)
      else StrLe(a.backend, b.backend)
    ensures i < j < |Merged(docs).roots| ==>
      var a, b := Merged(docs).roots[i], Merged(docs).roots[j];
      if a.backend == b.backend then a.absolutePath != b.absolutePath && StrLe(a.absolutePath, b.absolutePath)
      else StrLe(a.backend, b.backend)
  {
    EntriesInOrder(JoinAll(FlatMap(docs, EntriesOf)), FlatMap(docs, EntriesOf), i, j);
    RootsInOrder(FlatMap(docs, RootsOf), i, j);
  }

  lemma {:induction false} EntriesInOrder(table: map<Key, Entry>, entries: seq<Entry>, i: nat, j: nat)
    requires table == JoinAll(entries)
    ensures i < j < |InKeyOrder(table)| ==>
      var a, b := InKeyOrder(table)[i], InKeyOrder(table)[j];
      KeyOf(a) != KeyOf(b) && KeyLe(KeyOf(a), KeyOf(b))
  {
    KeyLeIsTotalOrder();
    SortedSetLists(table.Keys, KeyLe);
    var keys := SortedSet(table.Keys, KeyLe);
    if i < j < |keys| {
      assert keys[i] in keys && keys[j] in keys;
      JoinedAt(entries, keys[i]);
      JoinedAt(entries, keys[j]);
    }
  }

  lemma {:induction false} RootsInOrder(roots: seq<Root>, i: nat, j: nat)
    ensures var list := InKeyOrder(LastRoots(roots));
      i < j < |list| ==> RootKey(list[i]) != RootKey(list[j]) && KeyLe(RootKey(list[i]), RootKey(list[j]))
  {
    KeyLeIsTotalOrder();
    SortedSetLists(LastRoots(roots).Keys, KeyLe);
    var keys := SortedSet(LastRoots(roots).Keys, KeyLe);
    if i < j < |keys| {
      assert keys[i] in keys && keys[j] in keys;
      LastRootAt(roots, keys[i]);
      LastRootAt(roots, keys[j]);
    }
  }

  // ---------------------------------------------------------------- counts

  ghost function Having(entries: seq<Entry>, status: Status): set<nat> {
    set i: nat | i < |entries| && entries[i].status == status
  }

  lemma {:induction false} StatusCounted(entries: seq<Entry>, status: Status)
    ensures Count(entries, HasStatus(status)) == |Having(entries, status)|
  {
    CountedAt(entries, HasStatus(status));
    assert Positions(entries, |entries|, HasStatus(status)) == Having(entries, status);
  }

  lemma {:induction false} FlagsCounted(entries: seq<Entry>)
    ensures Count(entries, IsStored) == |set i: nat | i < |entries| && entries[i].stored|
    ensures Count(entries, IsDeclared) == |set i: nat | i < |entries| && entries[i].declared|
    ensures Count(entries, IsUnsafe) == |set i: nat | i < |entries| && entries[i].unsafe|
  {
    CountedAt(entries, IsStored);
    CountedAt(entries, IsDeclared);
    CountedAt(entries, IsUnsafe);
    assert Positions(entries, |entries|, IsStored) == set i: nat | i < |entries| && entries[i].stored;
    assert Positions(entries, |entries|, IsDeclared) == set i: nat | i < |entries| && entries[i].declared;
    assert Positions(entries, |entries|, IsUnsafe) == set i: nat | i < |entries| && entries[i].unsafe;
  }

  lemma {:induction false} LinksCounted(roots: seq<Root>)
    ensures Count(roots, IsSymlink) == |set i: nat | i < |roots| && roots[i].symlink|
  {
    CountedAt(roots, IsSymlink);
    assert Positions(roots, |roots|, IsSymlink) == set i: nat | i < |roots| && roots[i].symlink;
  }

  /** Every count is the number of merged entries with that status or flag; linked roots are unsafe too. */
  lemma {:induction false} CountsMean(docs: seq<Inventory>)
    ensures var m := Merged(docs);
      && m.counts.referenced == |Having(m.entries, Referenced)|
      && m.counts.missing == |Having(m.entries, Missing)|
      && m.counts.obsolete == |Having(m.entries, Obsolete)|
      && m.counts.stored == |set i: nat | i < |m.entries| && m.entries[i].stored|
      && m.counts.declared == |set i: nat | i < |m.entries| && m.entries[i].declared|
      && m.counts.unsafe == |set i: nat | i < |m.entries| && m.entries[i].unsafe|
                            + |set i: nat | i < |m.roots| && m.roots[i].symlink|
  {
    var m := Merged(docs);
    StatusCounted(m.entries, Referenced);
    StatusCounted(m.entries, Missing);
    StatusCounted(m.entries, Obsolete);
    FlagsCounted(m.entries);
    LinksCounted(m.roots);
  }

  // ---------------------------------------------------------------- reasons

  ghost predicate GateNamed(docs: seq<Inventory>, x: string) {
    x != "" && exists d :: d in docs && x in d.gate.reasons
  }

  ghost predicate GapNamed(docs: seq<Inventory>, x: string) {
    x != "" && exists d :: d in docs && x in d.completenessReasons
  }

  /** The merged flags, and the reason that appears when: those the shards name, and for an enabled gate
      one for every defect of the merged inventory. */
  lemma {:induction false} ReasonsMean(docs: seq<Inventory>, x: string)
    ensures var m := Merged(docs);
      && (m.enabled <==> exists d :: d in docs && d.enabled)
      && (m.complete <==> docs != [] && forall d :: d in docs ==> d.enabled && d.complete)
      && (m.gate.enabled <==> exists d :: d in docs && d.gate.enabled)
      && (x in m.gate.reasons <==>
            || GateNamed(docs, x)
            || (m.gate.enabled && !m.complete && x == "incomplete-snapshot-inventory")
            || (m.gate.enabled && m.counts.missing > 0 && x == "missing-snapshots")
            || (m.gate.enabled && m.counts.obsolete > 0 && x == "obsolete-snapshots")
            || (m.gate.enabled && m.counts.unsafe > 0 && x == "unsafe-snapshot-paths"))
      && (x in m.completenessReasons <==>
            || GapNamed(docs, x)
            || (!m.complete && (forall y :: !GapNamed(docs, y)) && x == "incomplete-member"))
  {
    GateListed(docs, Merged(docs).counts, x);
    GapReasons(docs);
  }

  lemma {:induction false} GateListed(docs: seq<Inventory>, counts: Counts, x: string)
    ensures var enabled := exists d :: d in docs && d.gate.enabled;
      x in GateReasons(docs, counts) <==>
        || GateNamed(docs, x)
        || (enabled && !AllComplete(docs) && x == "incomplete-snapshot-inventory")
        || (enabled && counts.missing > 0 && x == "missing-snapshots")
        || (enabled && counts.obsolete > 0 && x == "obsolete-snapshots")
        || (enabled && counts.unsafe > 0 && x == "unsafe-snapshot-paths")
  {
    GateReason(docs, x);
    var enabled := exists d :: d in docs && d.gate.enabled;
    InReasons(Reasons(FlatMap(docs, GateReasonsOf)), enabled && !AllComplete(docs), enabled && counts.missing > 0,
              enabled && counts.obsolete > 0, enabled && counts.unsafe > 0, x);
  }

  lemma {:induction false} InReasons(s: seq<string>, incomplete: bool, missing: bool, obsolete: bool, unsafe: bool, x: string)
    ensures x in s + If(incomplete, "incomplete-snapshot-inventory") + If(missing, "missing-snapshots")
                 + If(obsolete, "obsolete-snapshots") + If(unsafe, "unsafe-snapshot-paths") <==>
              || x in s || (incomplete && x == "incomplete-snapshot-inventory") || (missing && x == "missing-snapshots")
              || (obsolete && x == "obsolete-snapshots") || (unsafe && x == "unsafe-snapshot-paths")
  {}

  lemma {:induction false} GateReason(docs: seq<Inventory>, x: string)
    ensures x in Reasons(FlatMap(docs, GateReasonsOf)) <==> GateNamed(docs, x)
  {
    FlatMapMember(docs, GateReasonsOf, x);
    if d :| d in docs && x in d.gate.reasons { assert x in GateReasonsOf(d); }
    if d :| d in docs && x in GateReasonsOf(d) { assert x in d.gate.reasons; }
  }

  lemma {:induction false} GapReason(docs: seq<Inventory>, x: string)
    ensures x in Reasons(FlatMap(docs, ReasonsOf)) <==> GapNamed(docs, x)
  {
    FlatMapMember(docs, ReasonsOf, x);
    if d :| d in docs && x in d.completenessReasons { assert x in ReasonsOf(d); }
    if d :| d in docs && x in ReasonsOf(d) { assert x in d.completenessReasons; }
  }

  lemma {:induction false} GapReasons(docs: seq<Inventory>)
    ensures forall x :: x in Reasons(FlatMap(docs, ReasonsOf)) <==> GapNamed(docs, x)
    ensures Reasons(FlatMap(docs, ReasonsOf)) == [] <==> forall y :: !GapNamed(docs, y)
  {
    forall x
      ensures x in Reasons(FlatMap(docs, ReasonsOf)) <==> GapNamed(docs, x)
    {
      GapReason(docs, x);
    }
    var reasons := Reasons(FlatMap(docs, ReasonsOf));
    if reasons != [] { assert reasons[0] in reasons; }
  }
}
