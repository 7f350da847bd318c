/** Snapshot inventories of shards, joined into one. */
module Snapshots {
  import opened Orders
  import opened Seqs
  import opened Text

  type Key = (string, string)

  datatype Status = Referenced | Missing | Obsolete | Unverified

  datatype Entry = Entry(
    backend: string, absolutePath: string,
    referenced: bool, declared: bool, dynamic: bool, stored: bool, unsafe: bool,
    executionIds: seq<string>, observedStatuses: seq<string>, status: Status, text: string)

  datatype Root = Root(backend: string, absolutePath: string, symlink: bool, text: string)

  datatype Counts = Counts(
    referenced: nat, missing: nat, obsolete: nat, unverified: nat, unsafe: nat, stored: nat, declared: nat)

  datatype Gate = Gate(enabled: bool, passed: bool, reasons: seq<string>)

  datatype Inventory = Inventory(
    enabled: bool, complete: bool, completenessReasons: seq<string>,
    roots: seq<Root>, entries: seq<Entry>, counts: Counts, gate: Gate)

  function KeyOf(e: Entry): Key { (e.backend, e.absolutePath) }

  function RootKey(r: Root): Key { (r.backend, r.absolutePath) }

  function EntriesOf(i: Inventory): seq<Entry> { i.entries }

  function RootsOf(i: Inventory): seq<Root> { i.roots }

  function ReasonsOf(i: Inventory): seq<string> { i.completenessReasons }

  function GateReasonsOf(i: Inventory): seq<string> { i.gate.reasons }

  function UnverifiedOf(i: Inventory): nat { i.counts.unverified }

  /** `sorted(set(a) | set(b))` */
  function Union(a: seq<string>, b: seq<string>): (r: seq<string>)
    ensures forall x :: x in r <==> x in a || x in b
  {
    SortedNames(Elements(a) + Elements(b))
  }

  // ---------------------------------------------------------------- the join

  /** What a later copy of an entry adds to the first one. */
  function Join(prior: Entry, e: Entry): Entry {
    prior.(referenced := prior.referenced || e.referenced,
           declared := prior.declared || e.declared,
           dynamic := prior.dynamic || e.dynamic,
           stored := prior.stored || e.stored,
           unsafe := prior.unsafe || e.unsafe,
           executionIds := Union(prior.executionIds, e.executionIds),
           observedStatuses := Union(prior.observedStatuses, e.observedStatuses))
  }

  function JoinNext(joined: map<Key, Entry>, e: Entry): map<Key, Entry> {
    joined[KeyOf(e) := if KeyOf(e) in joined then Join(joined[KeyOf(e)], e) else e]
  }

  /** The dictionary after the entries of all shards. */
  function JoinAll(entries: seq<Entry>): map<Key, Entry> {
    if entries == [] then map[] else JoinNext(JoinAll(entries[..|entries| - 1]), entries[|entries| - 1])
  }

  /** Of roots the last copy is kept. */
  function LastRoots(roots: seq<Root>): map<Key, Root> {
    if roots == [] then map[]
    else LastRoots(roots[..|roots| - 1])[RootKey(roots[|roots| - 1]) := roots[|roots| - 1]]
  }

  predicate KeyLe(a: Key, b: Key) {
    if a.0 != b.0 then StrLe(a.0, b.0) else StrLe(a.1, b.1)
  }

  lemma {:induction false} KeyLeTransitive(a: Key, b: Key, c: Key)
    requires KeyLe(a, b) && KeyLe(b, c)
    ensures KeyLe(a, c)
  {
    StrLeTotal(a.0, b.0);
    StrLeTotal(b.0, c.0);
    if a.0 != b.0 || b.0 != c.0 {
      StrLeTransitive(a.0, b.0, c.0);
      if a.0 == c.0 { StrLeAntisymmetric(a.0, b.0); }
    } else {
      StrLeTransitive(a.1, b.1, c.1);
    }
  }

  lemma {:induction false} KeyLeTotal(a: Key, b: Key)
    ensures KeyLe(a, b) || KeyLe(b, a)
    ensures KeyLe(a, b) && KeyLe(b, a) ==> a == b
  {
    StrLeTotal(a.0, b.0);
    StrLeTotal(a.1, b.1);
    if KeyLe(a, b) && KeyLe(b, a) {
      if a.0 != b.0 { StrLeAntisymmetric(a.0, b.0); } else { StrLeAntisymmetric(a.1, b.1); }
    }
  }

  lemma {:induction false} KeyLeIsTotalOrder()
    ensures TotalOrder(KeyLe)
  {
    forall a: Key, b: Key
      ensures KeyLe(a, b) || KeyLe(b, a)
      ensures KeyLe(a, b) && KeyLe(b, a) ==> a == b
    {
      KeyLeTotal(a, b);
    }
    forall a: Key, b: Key, c: Key | KeyLe(a, b) && KeyLe(b, c)
      ensures KeyLe(a, c)
    {
      KeyLeTransitive(a, b, c);
    }
  }

  /** `[table[key] for key in sorted(table)]` */
  function InKeyOrder<V>(table: map<Key, V>): (r: seq<V>) {
    KeyLeIsTotalOrder();
    SortedSetLists(table.Keys, KeyLe);
    var keys := SortedSet(table.Keys, KeyLe);
    seq(|keys|, (i: nat) requires i < |keys| => assert keys[i] in keys; table[keys[i]])
  }

  lemma {:induction false} InKeyOrderLists<V>(table: map<Key, V>)
    ensures |InKeyOrder(table)| == |table|
    ensures forall k :: k in table ==> table[k] in InKeyOrder(table)
    ensures forall v :: v in InKeyOrder(table) ==> exists k :: k in table && table[k] == v
  {
    KeyLeIsTotalOrder();
    SortedSetLists(table.Keys, KeyLe);
    var keys := SortedSet(table.Keys, KeyLe);
    assert |table.Keys| == |table|;
    var r := InKeyOrder(table);
    forall k | k in table
      ensures table[k] in r
    {
      assert k in keys;
      var i :| 0 <= i < |keys| && keys[i] == k;
      assert r[i] == table[k];
    }
    forall v | v in r
      ensures exists k :: k in table && table[k] == v
    {
      var i :| 0 <= i < |r| && r[i] == v;
      assert keys[i] in keys;
    }
  }

  function StatusOf(e: Entry): Status {
    if e.referenced || e.declared then (if e.stored then Referenced else Missing) else Obsolete
  }

  function Judged(e: Entry): Entry { e.(status := StatusOf(e)) }

  function JudgeAll(entries: seq<Entry>): seq<Entry> {
    seq(|entries|, (i: nat) requires i < |entries| => Judged(entries[i]))
  }

  // ---------------------------------------------------------------- counts and gate

  function HasStatus(status: Status): Entry -> bool { (e: Entry) => e.status == status }

  function IsUnsafe(e: Entry): bool { e.unsafe }

  function IsStored(e: Entry): bool { e.stored }

  function IsDeclared(e: Entry): bool { e.declared }

  function IsSymlink(r: Root): bool { r.symlink }

  function CountsOf(entries: seq<Entry>, roots: seq<Root>, docs: seq<Inventory>): Counts {
    Counts(Count(entries, HasStatus(Referenced)), Count(entries, HasStatus(Missing)), Count(entries, HasStatus(Obsolete)),
           Sum(docs, UnverifiedOf),
           Count(entries, IsUnsafe) + Count(roots, IsSymlink),
           Count(entries, IsStored), Count(entries, IsDeclared))
  }

  predicate AllComplete(docs: seq<Inventory>) {
    docs != [] && forall d :: d in docs ==> d.enabled && d.complete
  }

  /** `sorted({reason for reason in reasons if reason})` */
  function Reasons(reasons: seq<string>): (r: seq<string>)
    ensures forall x :: x in r <==> x in reasons && x != ""
  {
    SortedNames(Elements(reasons) - {""})
  }

  function If(b: bool, reason: string): seq<string> { if b then [reason] else [] }

  function GateReasons(docs: seq<Inventory>, counts: Counts): (r: seq<string>)
  {
    var enabled := exists d :: d in docs && d.gate.enabled;
    var shards := Reasons(FlatMap(docs, GateReasonsOf));
    SortedNames(Elements(
      shards
      + If(enabled && !AllComplete(docs), "incomplete-snapshot-inventory")
      + If(enabled && counts.missing > 0, "missing-snapshots")
      + If(enabled && counts.obsolete > 0, "obsolete-snapshots")
      + If(enabled && counts.unsafe > 0, "unsafe-snapshot-paths")))
  }

  function GateOf(docs: seq<Inventory>, counts: Counts): Gate {
    var reasons := GateReasons(docs, counts);
    Gate(exists d :: d in docs && d.gate.enabled, reasons == [], reasons)
  }

  function CompletenessReasons(docs: seq<Inventory>): seq<string> {
    var reasons := Reasons(FlatMap(docs, ReasonsOf));
    if !AllComplete(docs) && reasons == [] then ["incomplete-member"] else reasons
  }

  function Summarised(docs: seq<Inventory>, joined: map<Key, Entry>, roots: map<Key, Root>): Inventory {
    var entries := JudgeAll(InKeyOrder(joined));
    var rootList := InKeyOrder(roots);
    var counts := CountsOf(entries, rootList, docs);
    Inventory(exists d :: d in docs && d.enabled, AllComplete(docs), CompletenessReasons(docs),
              rootList, entries, counts, GateOf(docs, counts))
  }

  /** The joined inventory as a function of the shards'. */
  function Merged(docs: seq<Inventory>): Inventory {
    Summarised(docs, JoinAll(FlatMap(docs, EntriesOf)), LastRoots(FlatMap(docs, RootsOf)))
  }

  lemma {:induction false} JoinSnoc(entries: seq<Entry>, e: Entry)
    ensures JoinAll(entries + [e]) == JoinNext(JoinAll(entries), e)
  {
    assert (entries + [e])[..|entries|] == entries;
  }

  lemma {:induction false} RootSnoc(roots: seq<Root>, r: Root)
    ensures LastRoots(roots + [r]) == LastRoots(roots)[RootKey(r) := r]
  {
    assert (roots + [r])[..|roots|] == roots;
  }

  /** The snapshot part of `merge`. */
  method MergeSnapshots(docs: seq<Inventory>) returns (r: Inventory)
    ensures r == Merged(docs)
  {
    var joined: map<Key, Entry> := map[];
    var roots: map<Key, Root> := map[];
    for i := 0 to |docs|
      invariant joined == JoinAll(FlatMap(docs[..i], EntriesOf))
      invariant roots == LastRoots(FlatMap(docs[..i], RootsOf))
    {
      FlatMapNext(docs, EntriesOf, i);
      FlatMapNext(docs, RootsOf, i);
      roots := MergeRoots(roots, docs[i].roots, FlatMap(docs[..i], RootsOf));
      joined := MergeEntries(joined, docs[i].entries, FlatMap(docs[..i], EntriesOf));
    }
    assert docs[..|docs|] == docs;
    var entries := JudgeEntries(InKeyOrder(joined));
    var kept := InKeyOrder(roots);
    var counts := CountEntries(entries, kept, docs);
    var enabled := exists d :: d in docs && d.enabled;
    var complete := docs != [] && forall d :: d in docs ==> d.enabled && d.complete;
    var missing := NameIncomplete(docs, complete);
    var gate := CloseGate(docs, complete, counts);
    r := Inventory(enabled, complete, missing, kept, entries, counts, gate);
  }

  method JudgeEntries(entries: seq<Entry>) returns (judged: seq<Entry>)
    ensures judged == JudgeAll(entries)
  {
    judged := [];
    for i := 0 to |entries|
      invariant judged == JudgeAll(entries)[..i]
    {
      var e := entries[i];
      var referenced := e.referenced || e.declared;
      if referenced && e.stored {
        e := e.(status := Referenced);
      } else if referenced {
        e := e.(status := Missing);
      } else {
        e := e.(status := Obsolete);
      }
      judged := judged + [e];
    }
  }

  method CountEntries(entries: seq<Entry>, roots: seq<Root>, docs: seq<Inventory>) returns (counts: Counts)
    ensures counts == CountsOf(entries, roots, docs)
  {
    var referenced, missing, obsolete := CountVerdicts(entries);
    var unsafe, stored, declared := CountFlags(entries);
    var links, unverified := 0, 0;
    for i := 0 to |roots|
      invariant links == Count(roots[..i], IsSymlink)
    {
      CountNext(roots, i, IsSymlink);
      if roots[i].symlink { links := links + 1; }
    }
    for i := 0 to |docs|
      invariant unverified == Sum(docs[..i], UnverifiedOf)
    {
      SumNext(docs, i, UnverifiedOf);
      unverified := unverified + docs[i].counts.unverified;
    }
    assert roots[..|roots|] == roots && docs[..|docs|] == docs;
    counts := Counts(referenced, missing, obsolete, unverified, unsafe + links, stored, declared);
  }

  method CountVerdicts(entries: seq<Entry>) returns (referenced: nat, missing: nat, obsolete: nat)
    ensures referenced == Count(entries, HasStatus(Referenced))
    ensures missing == Count(entries, HasStatus(Missing))
    ensures obsolete == Count(entries, HasStatus(Obsolete))
  {
    referenced, missing, obsolete := 0, 0, 0;
    for i := 0 to |entries|
      invariant referenced == Count(entries[..i], HasStatus(Referenced))
      invariant missing == Count(entries[..i], HasStatus(Missing))
      invariant obsolete == Count(entries[..i], HasStatus(Obsolete))
    {
      CountNext(entries, i, HasStatus(Referenced));
      CountNext(entries, i, HasStatus(Missing));
      CountNext(entries, i, HasStatus(Obsolete));
      if entries[i].status == Referenced { referenced := referenced + 1; }
      if entries[i].status == Missing { missing := missing + 1; }
      if entries[i].status == Obsolete { obsolete := obsolete + 1; }
    }
    assert entries[..|entries|] == entries;
  }

  method CountFlags(entries: seq<Entry>) returns (unsafe: nat, stored: nat, declared: nat)
    ensures unsafe == Count(entries, IsUnsafe)
    ensures stored == Count(entries, IsStored)
    ensures declared == Count(entries, IsDeclared)
  {
    unsafe, stored, declared := 0, 0, 0;
    for i := 0 to |entries|
      invariant unsafe == Count(entries[..i], IsUnsafe)
      invariant stored == Count(entries[..i], IsStored)
      invariant declared == Count(entries[..i], IsDeclared)
    {
      CountNext(entries, i, IsUnsafe);
      CountNext(entries, i, IsStored);
      CountNext(entries, i, IsDeclared);
      if entries[i].unsafe { unsafe := unsafe + 1; }
      if entries[i].stored { stored := stored + 1; }
      if entries[i].declared { declared := declared + 1; }
    }
    assert entries[..|entries|] == entries;
  }

  lemma {:induction false} GapSet(docs: seq<Inventory>)
    ensures Elements(FlatMap(docs, ReasonsOf)) - {""} == set d, x | d in docs && x in d.completenessReasons && x != "" :: x
  {
    forall x
      ensures x in FlatMap(docs, ReasonsOf) <==> exists d :: d in docs && x in d.completenessReasons
    {
      FlatMapMember(docs, ReasonsOf, x);
      if d :| d in docs && x in d.completenessReasons { assert x in ReasonsOf(d); }
    }
  }

  lemma {:induction false} GateSet(docs: seq<Inventory>)
    ensures Elements(FlatMap(docs, GateReasonsOf)) - {""} == set d, x | d in docs && x in d.gate.reasons && x != "" :: x
  {
    forall x
      ensures x in FlatMap(docs, GateReasonsOf) <==> exists d :: d in docs && x in d.gate.reasons
    {
      FlatMapMember(docs, GateReasonsOf, x);
      if d :| d in docs && x in d.gate.reasons { assert x in GateReasonsOf(d); }
    }
  }

  method NameIncomplete(docs: seq<Inventory>, complete: bool) returns (reasons: seq<string>)
    requires complete == AllComplete(docs)
    ensures reasons == CompletenessReasons(docs)
  {
    GapSet(docs);
    reasons := SortedNames(set d, x | d in docs && x in d.completenessReasons && x != "" :: x);
    if !complete && reasons == [] { reasons := reasons + ["incomplete-member"]; }
  }

  lemma {:induction false} AppendIfs(s: seq<string>, incomplete: bool, missing: bool, obsolete: bool, unsafe: bool)
    ensures var r := if incomplete then s + ["incomplete-snapshot-inventory"] else s;
            var r := if missing then r + ["missing-snapshots"] else r;
            var r := if obsolete then r + ["obsolete-snapshots"] else r;
            var r := if unsafe then r + ["unsafe-snapshot-paths"] else r;
            r == s + If(incomplete, "incomplete-snapshot-inventory") + If(missing, "missing-snapshots")
                 + If(obsolete, "obsolete-snapshots") + If(unsafe, "unsafe-snapshot-paths")
  {}

  method CloseGate(docs: seq<Inventory>, complete: bool, counts: Counts) returns (gate: Gate)
    requires complete == AllComplete(docs)
    ensures gate == GateOf(docs, counts)
  {
    GateSet(docs);
    var enabled := exists d :: d in docs && d.gate.enabled;
    ghost var shards := Reasons(FlatMap(docs, GateReasonsOf));
    AppendIfs(shards, enabled && !complete, enabled && counts.missing > 0, enabled && counts.obsolete > 0,
              enabled && counts.unsafe > 0);
    var reasons := SortedNames(set d, x | d in docs && x in d.gate.reasons && x != "" :: x);
    if enabled && !complete { reasons := reasons + ["incomplete-snapshot-inventory"]; }
    if enabled && counts.missing != 0 { reasons := reasons + ["missing-snapshots"]; }
    if enabled && counts.obsolete != 0 { reasons := reasons + ["obsolete-snapshots"]; }
    if enabled && counts.unsafe != 0 { reasons := reasons + ["unsafe-snapshot-paths"]; }
    reasons := SortedNames(Elements(reasons));
    gate := Gate(enabled, reasons == [], reasons);
  }

  method MergeRoots(known: map<Key, Root>, roots: seq<Root>, ghost before: seq<Root>) returns (table: map<Key, Root>)
    requires known == LastRoots(before)
    ensures table == LastRoots(before + roots)
  {
    table := known;
    assert before + roots[..0] == before;
    for j := 0 to |roots|
      invariant table == LastRoots(before + roots[..j])
    {
      RootSnoc(before + roots[..j], roots[j]);
      TakeNext(roots, j);
      Associate(before, roots[..j], roots[j]);
      table := table[(roots[j].backend, roots[j].absolutePath) := roots[j]];
    }
    assert roots[..|roots|] == roots;
  }

  method MergeEntries(known: map<Key, Entry>, entries: seq<Entry>, ghost before: seq<Entry>) returns (table: map<Key, Entry>)
    requires known == JoinAll(before)
    ensures table == JoinAll(before + entries)
  {
    table := known;
    assert before + entries[..0] == before;
    for j := 0 to |entries|
      invariant table == JoinAll(before + entries[..j])
    {
      var e := entries[j];
      var key := (e.backend, e.absolutePath);
      JoinSnoc(before + entries[..j], e);
      TakeNext(entries, j);
      Associate(before, entries[..j], e);
      if key !in table {
        table := table[key := e];
      } else {
        var prior := JoinFields(table[key], e);
        table := table[key := prior];
      }
    }
    assert entries[..|entries|] == entries;
  }

  /** The field updates on an entry that an earlier shard supplied. */
  method JoinFields(known: Entry, e: Entry) returns (prior: Entry)
    ensures prior == Join(known, e)
  {
    prior := known.(referenced := known.referenced || e.referenced);
    prior := prior.(declared := prior.declared || e.declared);
    prior := prior.(dynamic := prior.dynamic || e.dynamic);
    prior := prior.(stored := prior.stored || e.stored);
    prior := prior.(unsafe := prior.unsafe || e.unsafe);
    prior := prior.(executionIds := SortedNames(Elements(prior.executionIds) + Elements(e.executionIds)));
    prior := prior.(observedStatuses := SortedNames(Elements(prior.observedStatuses) + Elements(e.observedStatuses)));
  }
}
