/** The execution inventory of a merge: every manifest is checked on its own and
    against the others, and their union is put in one order. */
module Inventory {
  import opened Orders
  import opened Seqs
  import opened Text
  import opened Shards

  // ---------------------------------------------------------------- what is accepted

  ghost predicate EntryOk(e: Entry, count: nat) {
    EntryId(e) != "" && e.executionId == EntryId(e) && 0 <= e.assignedShard < count
  }

  ghost predicate DistinctEntries(es: seq<Entry>) {
    forall i, j :: 0 <= i < j < |es| ==> EntryId(es[i]) != EntryId(es[j])
  }

  /** A shardable execution is selected by its assigned shard alone, a run-level one by every shard. */
  predicate SelectionOk(e: Entry, index: int) {
    if e.shardable then e.selected == (e.assignedShard == index) else e.selected
  }

  function Selected(es: seq<Entry>): set<string> {
    set e | e in es && e.selected :: EntryId(e)
  }

  ghost predicate ManifestOk(d: Shard, count: nat) {
    && (forall e :: e in d.tests ==> EntryOk(e, count))
    && DistinctEntries(d.tests)
    && (forall e :: e in d.tests ==> SelectionOk(e, d.index))
    && Elements(d.declared) == Selected(d.tests)
  }

  /** Manifests describe a shared execution alike. */
  ghost predicate SameDescriptions(before: seq<Entry>, tests: seq<Entry>) {
    forall a, b :: a in before && b in tests && EntryId(a) == EntryId(b) ==> Norm(a) == Norm(b)
  }

  ghost predicate InventoryOk(docs: seq<Shard>, count: nat) {
    && (forall d :: d in docs ==> ManifestOk(d, count))
    && SameDescriptions(AllTests(docs), AllTests(docs))
    && (AllTests(docs) == [] ==> forall d :: d in docs ==> d.rows == [])
  }

  // ---------------------------------------------------------------- the order of the inventory

  datatype SortKey = SortKey(file: string, suite: string, line: int, description: string, executionId: string)

  function KeyOf(e: Entry): SortKey {
    SortKey(e.file, e.suite, if e.line.Some? then e.line.value else -1, e.description, e.executionId)
  }

  /** Python's tuple comparison. */
  predicate SortKeyLe(a: SortKey, b: SortKey) {
    if a.file != b.file then StrLe(a.file, b.file)
    else if a.suite != b.suite then StrLe(a.suite, b.suite)
    else if a.line != b.line then a.line < b.line
    else if a.description != b.description then StrLe(a.description, b.description)
    else StrLe(a.executionId, b.executionId)
  }

  lemma {:induction false} SortKeyLeTransitive(a: SortKey, b: SortKey, c: SortKey)
    requires TotalOrder(StrLe) && SortKeyLe(a, b) && SortKeyLe(b, c)
    ensures SortKeyLe(a, c)
  {
    if a.file != b.file || b.file != c.file {
      StrLeTransitive(a.file, b.file, c.file);
      if a.file == c.file { StrLeAntisymmetric(a.file, b.file); }
    } else if a.suite != b.suite || b.suite != c.suite {
      StrLeTransitive(a.suite, b.suite, c.suite);
      if a.suite == c.suite { StrLeAntisymmetric(a.suite, b.suite); }
    } else if a.line != b.line || b.line != c.line {
    } else if a.description != b.description || b.description != c.description {
      StrLeTransitive(a.description, b.description, c.description);
      if a.description == c.description { StrLeAntisymmetric(a.description, b.description); }
    } else {
      StrLeTransitive(a.executionId, b.executionId, c.executionId);
    }
  }

  lemma {:induction false} SortKeyLeTotal(a: SortKey, b: SortKey)
    requires TotalOrder(StrLe)
    ensures SortKeyLe(a, b) || SortKeyLe(b, a)
    ensures SortKeyLe(a, b) && SortKeyLe(b, a) ==> a == b
  {
    StrLeTotal(a.file, b.file);
    StrLeTotal(a.suite, b.suite);
    StrLeTotal(a.description, b.description);
    StrLeTotal(a.executionId, b.executionId);
    if SortKeyLe(a, b) && SortKeyLe(b, a) {
      if a.file != b.file { StrLeAntisymmetric(a.file, b.file); }
      if a.suite != b.suite { StrLeAntisymmetric(a.suite, b.suite); }
      if a.description != b.description { StrLeAntisymmetric(a.description, b.description); }
      if a.executionId != b.executionId { StrLeAntisymmetric(a.executionId, b.executionId); }
    }
  }

  lemma {:induction false} SortKeyLeIsTotalOrder()
    ensures TotalOrder(SortKeyLe)
  {
    StrLeIsTotalOrder();
    forall a: SortKey, b: SortKey
      ensures SortKeyLe(a, b) || SortKeyLe(b, a)
      ensures SortKeyLe(a, b) && SortKeyLe(b, a) ==> a == b
    {
      SortKeyLeTotal(a, b);
    }
    forall a: SortKey, b: SortKey, c: SortKey | SortKeyLe(a, b) && SortKeyLe(b, c)
      ensures SortKeyLe(a, c)
    {
      SortKeyLeTransitive(a, b, c);
    }
  }

  function Keys(inventory: seq<Entry>): seq<SortKey> {
    seq(|inventory|, (i: nat) requires i < |inventory| => KeyOf(inventory[i]))
  }

  /** The inventory lists every described execution once, marked as selected, in order. */
  ghost predicate Lists(inventory: seq<Entry>, tests: seq<Entry>) {
    && SortedBy(Keys(inventory), SortKeyLe)
    && (forall i, j :: 0 <= i < j < |inventory| ==> inventory[i].executionId != inventory[j].executionId)
    && (forall e :: e in inventory <==> exists t :: t in tests && e == Norm(t))
  }

  /** The order of the inventory: by file, then suite, then line with missing lines first, then description. */
  lemma {:induction false} InventoryInOrder(inventory: seq<Entry>, tests: seq<Entry>, i: nat, j: nat)
    requires Lists(inventory, tests) && i < j < |inventory|
    ensures var a, b := inventory[i], inventory[j];
            var lineA, lineB := if a.line.Some? then a.line.value else -1, if b.line.Some? then b.line.value else -1;
            && a.selected && b.selected
            && StrLe(a.file, b.file)
            && (a.file == b.file ==> StrLe(a.suite, b.suite))
            && (a.file == b.file && a.suite == b.suite ==> lineA <= lineB)
            && (a.file == b.file && a.suite == b.suite && lineA == lineB ==> StrLe(a.description, b.description))
            && (a.file == b.file && a.suite == b.suite && lineA == lineB && a.description == b.description ==>
                  StrLe(a.executionId, b.executionId))
  {
    var a, b := inventory[i], inventory[j];
    assert SortKeyLe(Keys(inventory)[i], Keys(inventory)[j]);
    StrLeTotal(a.file, b.file);
    StrLeTotal(a.suite, b.suite);
    StrLeTotal(a.description, b.description);
    assert a in inventory && b in inventory;
  }

  /** Manifests that describe an execution describe it alike, in every field but the selection. */
  lemma {:induction false} SharedEntriesAgree(docs: seq<Shard>, count: nat, a: Entry, b: Entry)
    requires InventoryOk(docs, count) && a in AllTests(docs) && b in AllTests(docs) && EntryId(a) == EntryId(b)
    ensures a.executionId == b.executionId && a.testId == b.testId && a.caseId == b.caseId
    ensures a.file == b.file && a.suite == b.suite && a.line == b.line && a.description == b.description
    ensures a.assignedShard == b.assignedShard && a.shardable == b.shardable && a.rest == b.rest
  {
    assert Norm(a) == Norm(b);
  }

  /** There is only one such list: the order in which manifests are read leaves no trace. */
  lemma {:induction false} OneInventory(a: seq<Entry>, b: seq<Entry>, s: seq<Entry>, t: seq<Entry>)
    requires Lists(a, s) && Lists(b, t)
    requires forall e :: e in s <==> e in t
    ensures a == b
  {
    SameEntries(a, b, s, t);
    SortKeyLeIsTotalOrder();
    KeysWithin(a, b);
    KeysWithin(b, a);
    DistinctKeys(a);
    DistinctKeys(b);
    SortedUnique(Keys(a), Keys(b), SortKeyLe);
    assert |Keys(a)| == |Keys(b)|;
    forall i | 0 <= i < |a|
      ensures a[i] == b[i]
    {
      assert Keys(a)[i] == Keys(b)[i];
      assert b[i] in b;
      var j :| 0 <= j < |a| && a[j] == b[i];
    }
  }

  lemma {:induction false} SameEntries(a: seq<Entry>, b: seq<Entry>, s: seq<Entry>, t: seq<Entry>)
    requires Lists(a, s) && Lists(b, t)
    requires forall e :: e in s <==> e in t
    ensures forall e :: e in a <==> e in b
  {
    forall e
      ensures e in a <==> e in b
    {
      if e in a { var u :| u in s && e == Norm(u); assert u in t; }
      if e in b { var u :| u in t && e == Norm(u); assert u in s; }
    }
  }

  lemma {:induction false} DistinctKeys(a: seq<Entry>)
    requires forall i, j :: 0 <= i < j < |a| ==> a[i].executionId != a[j].executionId
    ensures Distinct(Keys(a))
  {
    forall i, j | 0 <= i < j < |a|
      ensures Keys(a)[i] != Keys(a)[j]
    {
      assert Keys(a)[i].executionId == a[i].executionId && Keys(a)[j].executionId == a[j].executionId;
    }
  }

  lemma {:induction false} KeysWithin(a: seq<Entry>, b: seq<Entry>)
    requires forall e :: e in a ==> e in b
    ensures Elements(Keys(a)) <= Elements(Keys(b))
  {
    forall k | k in Keys(a)
      ensures k in Keys(b)
    {
      var i :| 0 <= i < |a| && Keys(a)[i] == k;
      assert a[i] in b;
      var j :| 0 <= j < |b| && b[j] == a[i];
      assert Keys(b)[j] == k;
    }
  }

  // ---------------------------------------------------------------- the procedure

  /** The dictionary `union` after the entries `seen`. */
  ghost predicate Catalog(union: map<string, Entry>, seen: seq<Entry>) {
    && union.Keys == EntryIds(seen)
    && (forall id :: id in union ==> union[id] in seen && EntryId(union[id]) == id)
    && (forall e :: e in seen ==> EntryId(e) in union && Norm(e) == Norm(union[EntryId(e)]))
  }

  lemma {:induction false} CatalogKnown(union: map<string, Entry>, seen: seq<Entry>, e: Entry)
    requires Catalog(union, seen) && EntryId(e) in union && Norm(union[EntryId(e)]) == Norm(e)
    ensures Catalog(union, seen + [e])
  {
    assert EntryIds(seen + [e]) == EntryIds(seen) + {EntryId(e)};
  }

  lemma {:induction false} CatalogNew(union: map<string, Entry>, seen: seq<Entry>, e: Entry)
    requires Catalog(union, seen) && EntryId(e) !in union
    ensures Catalog(union[EntryId(e) := e], seen + [e])
  {
    assert EntryIds(seen + [e]) == EntryIds(seen) + {EntryId(e)};
  }

  /** The dictionaries of the loop after `before` and the entries `done` of the current manifest. */
  ghost predicate Passed(local: set<string>, union: map<string, Entry>, before: seq<Entry>, done: seq<Entry>, count: nat) {
    && local == EntryIds(done)
    && Catalog(union, before + done)
    && (forall e :: e in done ==> EntryOk(e, count))
    && DistinctEntries(done)
    && SameDescriptions(before, done)
  }

  /** The dictionaries after one more entry of the manifest. */
  method CheckEntry(
      local: set<string>, union: map<string, Entry>, tests: seq<Entry>, i: nat, count: nat, ghost before: seq<Entry>)
    returns (r: Result<(set<string>, map<string, Entry>)>)
    requires i < |tests| && Passed(local, union, before, tests[..i], count)
    ensures r.Err? ==> !((forall e :: e in tests ==> EntryOk(e, count)) && DistinctEntries(tests) && SameDescriptions(before, tests))
    ensures r.Ok? ==> Passed(r.value.0, r.value.1, before, tests[..i + 1], count)
  {
    var entry := tests[i];
    assert entry in tests;
    var id := entry.caseId;
    if id == "" { id := entry.testId; }
    if id == "" { id := entry.executionId; }
    if id == "" || entry.executionId != id {
      return Err("malformed execution identity");
    }
    if id in local {
      RepeatedEntry(tests, i);
      return Err("duplicate manifest identity");
    }
    if !(0 <= entry.assignedShard < count) {
      return Err("invalid assignment");
    }
    if id in union {
      var same := DescribedAlike(union[id], entry);
      if !same {
        assert union[id] in before;
        return Err("manifest identity differs across shards");
      }
    }
    PassedNext(local, union, before, tests[..i], entry, count);
    TakeNext(tests, i);
    r := Ok((local + {id}, if id in union then union else union[id := entry]));
  }

  lemma {:induction false} PassedNext(
      local: set<string>, union: map<string, Entry>, before: seq<Entry>, done: seq<Entry>, e: Entry, count: nat)
    requires Passed(local, union, before, done, count) && EntryOk(e, count) && EntryId(e) !in local
    requires EntryId(e) in union ==> Norm(union[EntryId(e)]) == Norm(e)
    ensures Passed(local + {EntryId(e)}, if EntryId(e) in union then union else union[EntryId(e) := e],
                   before, done + [e], count)
  {
    NextDistinct(done, e);
    NextDescription(union, before, done, e);
    Associate(before, done, e);
    if EntryId(e) in union { CatalogKnown(union, before + done, e); } else { CatalogNew(union, before + done, e); }
    assert EntryIds(done + [e]) == EntryIds(done) + {EntryId(e)};
  }

  /** One manifest of the loop: what it must satisfy alone, and against the manifests before it. */
  method CheckManifest(d: Shard, count: nat, known: map<string, Entry>, ghost before: seq<Entry>)
    returns (r: Result<(map<string, Entry>, set<string>)>)
    requires Catalog(known, before)
    ensures r.Ok? <==> ManifestOk(d, count) && SameDescriptions(before, d.tests)
    ensures r.Ok? ==> Catalog(r.value.0, before + d.tests) && r.value.1 == Selected(d.tests)
  {
    var union := known;
    var local: set<string> := {};
    assert before + d.tests[..0] == before;
    for i := 0 to |d.tests|
      invariant Passed(local, union, before, d.tests[..i], count)
    {
      var step := CheckEntry(local, union, d.tests, i, count, before);
      if step.Err? {
        return Err(step.error);
      }
      local, union := step.value.0, step.value.1;
    }
    assert d.tests[..|d.tests|] == d.tests;
    var selected := CheckSelection(d);
    if !selected {
      return Err("selection disagrees with assignment");
    }
    var expected := CollectSelected(d.tests);
    if Elements(d.declared) != expected {
      return Err("selectedExecutionIds disagrees with manifest assignment");
    }
    r := Ok((union, expected));
  }

  /** Two entries without what marks them as selected. */
  method DescribedAlike(a: Entry, b: Entry) returns (same: bool)
    ensures same <==> Norm(a) == Norm(b)
  {
    same := a.executionId == b.executionId && a.testId == b.testId && a.caseId == b.caseId
      && a.file == b.file && a.suite == b.suite && a.line == b.line && a.description == b.description
      && a.assignedShard == b.assignedShard && a.shardable == b.shardable && a.rest == b.rest;
  }

  /** The identities of the selected entries. */
  method CollectSelected(tests: seq<Entry>) returns (selected: set<string>)
    ensures selected == Selected(tests)
  {
    selected := {};
    for i := 0 to |tests|
      invariant selected == Selected(tests[..i])
    {
      TakeNext(tests, i);
      var id := tests[i].caseId;
      if id == "" { id := tests[i].testId; }
      if id == "" { id := tests[i].executionId; }
      SelectedSnoc(tests[..i], tests[i]);
      if tests[i].selected { selected := selected + {id}; }
    }
    assert tests[..|tests|] == tests;
  }

  lemma {:induction false} SelectedSnoc(tests: seq<Entry>, e: Entry)
    ensures Selected(tests + [e]) == Selected(tests) + if e.selected then {EntryId(e)} else {}
  {
    assert forall x :: x in tests + [e] <==> x in tests || x == e;
  }

  method CheckSelection(d: Shard) returns (ok: bool)
    ensures ok <==> forall e :: e in d.tests ==> SelectionOk(e, d.index)
  {
    for i := 0 to |d.tests|
      invariant forall e :: e in d.tests[..i] ==> SelectionOk(e, d.index)
    {
      TakeNext(d.tests, i);
      var entry := d.tests[i];
      assert entry in d.tests;
      if entry.shardable && entry.selected != (entry.assignedShard == d.index) {
        return false;
      }
      if !entry.shardable && !entry.selected {
        return false;
      }
    }
    assert d.tests[..|d.tests|] == d.tests;
    ok := true;
  }

  lemma {:induction false} RepeatedEntry(es: seq<Entry>, i: nat)
    requires i < |es| && EntryId(es[i]) in EntryIds(es[..i])
    ensures !DistinctEntries(es)
  {
    var e :| e in es[..i] && EntryId(e) == EntryId(es[i]);
    var j :| 0 <= j < i && es[j] == e;
  }

  lemma {:induction false} NextDistinct(done: seq<Entry>, e: Entry)
    requires DistinctEntries(done) && EntryId(e) !in EntryIds(done)
    ensures DistinctEntries(done + [e])
  {
    forall i, j | 0 <= i < j < |done| + 1
      ensures EntryId((done + [e])[i]) != EntryId((done + [e])[j])
    {
      assert done[i] in done;
    }
  }

  lemma {:induction false} NextDescription(union: map<string, Entry>, before: seq<Entry>, done: seq<Entry>, e: Entry)
    requires Catalog(union, before + done) && SameDescriptions(before, done)
    requires EntryId(e) in union ==> Norm(union[EntryId(e)]) == Norm(e)
    ensures SameDescriptions(before, done + [e])
  {
    forall a, b | a in before && b in done + [e] && EntryId(a) == EntryId(b)
      ensures Norm(a) == Norm(b)
    {
      if b !in done {
        assert a in before + done;
      }
    }
  }

  function CatalogKeys(union: map<string, Entry>): set<SortKey> {
    set id | id in union :: KeyOf(union[id])
  }

  function EntryAt(union: map<string, Entry>, k: SortKey): Entry
    requires k.executionId in union
  {
    Norm(union[k.executionId])
  }

  lemma {:induction false} KeyInCatalog(union: map<string, Entry>, k: SortKey)
    requires forall id :: id in union ==> union[id].executionId == id
    requires k in CatalogKeys(union)
    ensures k.executionId in union && KeyOf(EntryAt(union, k)) == k
  {
    var id :| id in union && k == KeyOf(union[id]);
  }

  /** `sorted(union.values(), key=...)`, every entry marked as selected. */
  function Ordered(union: map<string, Entry>): seq<Entry>
    requires forall id :: id in union ==> union[id].executionId == id
  {
    SortKeyLeIsTotalOrder();
    var keys := SortedSet(CatalogKeys(union), SortKeyLe);
    SortedSetLists(CatalogKeys(union), SortKeyLe);
    seq(|keys|, (i: nat) requires i < |keys| => assert keys[i] in keys; KeyInCatalog(union, keys[i]); EntryAt(union, keys[i]))
  }

  lemma {:induction false} OrderedLists(union: map<string, Entry>, seen: seq<Entry>)
    requires Catalog(union, seen) && forall e :: e in seen ==> e.executionId == EntryId(e)
    ensures Lists(Ordered(union), seen)
  {
    SortKeyLeIsTotalOrder();
    var keys := SortedSet(CatalogKeys(union), SortKeyLe);
    SortedSetLists(CatalogKeys(union), SortKeyLe);
    var inventory := Ordered(union);
    forall i | 0 <= i < |keys|
      ensures keys[i].executionId in union && inventory[i] == EntryAt(union, keys[i]) && Keys(inventory)[i] == keys[i]
    {
      assert keys[i] in keys;
      KeyInCatalog(union, keys[i]);
    }
    assert Keys(inventory) == keys;
    FollowsKeys(union, seen, keys, inventory);
  }

  lemma {:induction false} FollowsKeys(union: map<string, Entry>, seen: seq<Entry>, keys: seq<SortKey>, inventory: seq<Entry>)
    requires Catalog(union, seen) && forall id :: id in union ==> union[id].executionId == id
    requires SortedBy(keys, SortKeyLe) && Distinct(keys) && forall k :: k in keys <==> k in CatalogKeys(union)
    requires |inventory| == |keys| && Keys(inventory) == keys
    requires forall i :: 0 <= i < |keys| ==> keys[i].executionId in union && inventory[i] == EntryAt(union, keys[i])
    ensures Lists(inventory, seen)
  {
    forall i, j | 0 <= i < j < |inventory|
      ensures inventory[i].executionId != inventory[j].executionId
    {
      assert keys[i] != keys[j];
    }
    forall e
      ensures e in inventory <==> exists t :: t in seen && e == Norm(t)
    {
      if t :| t in seen && e == Norm(t) { ListedEntry(union, seen, keys, inventory, t); }
      if e in inventory {
        var i :| 0 <= i < |inventory| && inventory[i] == e;
        assert union[keys[i].executionId] in seen;
      }
    }
  }

  lemma {:induction false} ListedEntry(
      union: map<string, Entry>, seen: seq<Entry>, keys: seq<SortKey>, inventory: seq<Entry>, t: Entry)
    requires Catalog(union, seen) && t in seen && forall id :: id in union ==> union[id].executionId == id
    requires forall k :: k in CatalogKeys(union) ==> k in keys
    requires |inventory| == |keys|
    requires forall i :: 0 <= i < |keys| ==> keys[i].executionId in union && inventory[i] == EntryAt(union, keys[i])
    ensures Norm(t) in inventory
  {
    var k := KeyOf(union[EntryId(t)]);
    assert k in CatalogKeys(union);
    var i :| 0 <= i < |keys| && keys[i] == k;
    assert inventory[i] == Norm(t);
  }

  /** `validate_inventory`: accepted exactly when every manifest is sound and they describe one
      inventory; then that inventory in its order, and what each shard must report. */
  method ValidateInventory(docs: seq<Shard>, count: nat) returns (r: Result<(seq<Entry>, seq<set<string>>)>)
    ensures r.Ok? <==> InventoryOk(docs, count)
    ensures r.Ok? ==> Lists(r.value.0, AllTests(docs))
    ensures r.Ok? ==> |r.value.1| == |docs| && forall i :: 0 <= i < |docs| ==> r.value.1[i] == Selected(docs[i].tests)
  {
    var union: map<string, Entry> := map[];
    var expected: seq<set<string>> := [];
    for i := 0 to |docs|
      invariant Catalog(union, AllTests(docs[..i]))
      invariant |expected| == i && forall k :: 0 <= k < i ==> expected[k] == Selected(docs[k].tests)
      invariant forall d :: d in docs[..i] ==> ManifestOk(d, count)
      invariant SameDescriptions(AllTests(docs[..i]), AllTests(docs[..i]))
    {
      FlatMapNext(docs, TestsOf, i);
      assert docs[..i + 1] == docs[..i] + [docs[i]];
      var step := CheckManifest(docs[i], count, union, AllTests(docs[..i]));
      if step.Err? {
        InventoryOfPrefix(docs, count, i);
        return Err(step.error);
      }
      GrowDescriptions(AllTests(docs[..i]), docs[i].tests);
      union := step.value.0;
      expected := expected + [step.value.1];
    }
    assert docs[..|docs|] == docs;
    if |union| == 0 && (exists d :: d in docs && d.rows != []) {
      NothingCatalogued(union, AllTests(docs));
      return Err("result rows exist without manifest inventory");
    }
    EntriesNamed(docs, count);
    OrderedLists(union, AllTests(docs));
    assert AllTests(docs) == [] ==> |union| == 0 by {
      NoEntries(AllTests(docs));
      assert |union.Keys| == |union|;
    }
    r := Ok((Ordered(union), expected));
  }

  lemma {:induction false} NothingCatalogued(union: map<string, Entry>, seen: seq<Entry>)
    requires Catalog(union, seen) && |union| == 0
    ensures seen == []
  {
    assert |union.Keys| == |union|;
    NoEntries(seen);
  }

  lemma {:induction false} NoEntries(es: seq<Entry>)
    ensures es == [] <==> EntryIds(es) == {}
  {
    if es != [] { assert es[0] in es; assert EntryId(es[0]) in EntryIds(es); }
  }

  lemma {:induction false} EntriesNamed(docs: seq<Shard>, count: nat)
    requires forall d :: d in docs ==> ManifestOk(d, count)
    ensures forall e :: e in AllTests(docs) ==> EntryOk(e, count)
  {
    forall e | e in AllTests(docs)
      ensures EntryOk(e, count)
    {
      FlatMapMember(docs, TestsOf, e);
    }
  }

  lemma {:induction false} InventoryOfPrefix(docs: seq<Shard>, count: nat, i: nat)
    requires i < |docs|
    ensures InventoryOk(docs, count) ==> ManifestOk(docs[i], count)
    ensures InventoryOk(docs, count) ==> SameDescriptions(AllTests(docs[..i]), docs[i].tests)
  {
    assert docs[i] in docs;
    forall a, b | a in AllTests(docs[..i]) && b in docs[i].tests && EntryId(a) == EntryId(b)
      ensures InventoryOk(docs, count) ==> Norm(a) == Norm(b)
    {
      FlatMapMember(docs[..i], TestsOf, a);
      var d :| d in docs[..i] && a in TestsOf(d);
      assert d in docs;
      FlatMapMember(docs, TestsOf, a);
      assert b in TestsOf(docs[i]);
      FlatMapMember(docs, TestsOf, b);
    }
  }

  lemma {:induction false} GrowDescriptions(before: seq<Entry>, tests: seq<Entry>)
    requires SameDescriptions(before, before) && SameDescriptions(before, tests) && DistinctEntries(tests)
    ensures SameDescriptions(before + tests, before + tests)
  {
    forall a, b | a in before + tests && b in before + tests && EntryId(a) == EntryId(b)
      ensures Norm(a) == Norm(b)
    {
      if a in tests && b in tests { EntryById(tests, a, b); }
    }
  }

  lemma {:induction false} EntryById(es: seq<Entry>, a: Entry, b: Entry)
    requires DistinctEntries(es) && a in es && b in es && EntryId(a) == EntryId(b)
    ensures a == b
  {
    var i :| 0 <= i < |es| && es[i] == a;
    var j :| 0 <= j < |es| && es[j] == b;
    assert i == j;
  }
}
