/** Migration of identity-bearing state: two reports prove a pairing of identities,
    and a state document is rewritten along it. */
module Migration {
  import opened Seqs

  /** One manifest entry; kind, parameters and tags are canonical texts. */
  datatype Entry = Entry(
    file: string, suite: string, description: string, kind: string, parameters: string, tags: string,
    executionId: string, testId: string)

  datatype Key = Key(parts: seq<string>)

  /** `execution_key` */
  function ExecutionKey(e: Entry): Key {
    Key([e.file, e.suite, e.description, e.kind, e.parameters, e.tags])
  }

  /** `parent_key` */
  function ParentKey(e: Entry): Key { Key([e.file, e.suite, e.description]) }

  function ExecutionIdOf(e: Entry): string { e.executionId }

  function TestIdOf(e: Entry): string { e.testId }

  function KeysOf(entries: seq<Entry>, key: Entry -> Key): set<Key> {
    set e | e in entries :: key(e)
  }

  /** Every entry has an identity and a semantic key determines it. */
  ghost predicate Indexable(entries: seq<Entry>, key: Entry -> Key, id: Entry -> string) {
    && (forall e :: e in entries ==> id(e) != "")
    && (forall e, f :: e in entries && f in entries && key(e) == key(f) ==> id(e) == id(f))
  }

  ghost predicate Indexes(index: map<Key, string>, entries: seq<Entry>, key: Entry -> Key, id: Entry -> string) {
    && index.Keys == KeysOf(entries, key)
    && (forall e :: e in entries ==> key(e) in index && index[key(e)] == id(e))
  }

  /** `indexed` */
  method Indexed(entries: seq<Entry>, key: Entry -> Key, id: Entry -> string) returns (r: Result<map<Key, string>>)
    ensures r.Ok? <==> Indexable(entries, key, id)
    ensures r.Ok? ==> Indexes(r.value, entries, key, id)
  {
    var index: map<Key, string> := map[];
    for i := 0 to |entries|
      invariant Indexable(entries[..i], key, id)
      invariant Indexes(index, entries[..i], key, id)
    {
      var e := entries[i];
      TakeNext(entries, i);
      assert e in entries;
      if id(e) == "" {
        return Err("manifest entry has no identity");
      }
      if key(e) in index && index[key(e)] != id(e) {
        var f :| f in entries[..i] && key(f) == key(e);
        assert f in entries;
        return Err("ambiguous semantic key");
      }
      IndexNext(index, entries[..i], e, key, id);
      index := index[key(e) := id(e)];
    }
    assert entries[..|entries|] == entries;
    r := Ok(index);
  }

  lemma {:induction false} IndexNext(index: map<Key, string>, done: seq<Entry>, e: Entry, key: Entry -> Key, id: Entry -> string)
    requires Indexable(done, key, id) && Indexes(index, done, key, id) && id(e) != ""
    requires key(e) in index ==> index[key(e)] == id(e)
    ensures Indexable(done + [e], key, id) && Indexes(index[key(e) := id(e)], done + [e], key, id)
  {
    assert KeysOf(done + [e], key) == KeysOf(done, key) + {key(e)};
  }

  // ---------------------------------------------------------------- the pairing

  /** The reports pair `a` with `b`: the same execution, or the same parent test, has these identities. */
  ghost predicate Paired(source: seq<Entry>, target: seq<Entry>, a: string, b: string) {
    exists e, f :: e in source && f in target && PairedBy(e, f, a, b)
  }

  ghost predicate PairedBy(e: Entry, f: Entry, a: string, b: string) {
    || (ExecutionKey(e) == ExecutionKey(f) && a == e.executionId && b == f.executionId)
    || (ParentKey(e) == ParentKey(f) && a == e.testId && b == f.testId)
  }

  ghost predicate Functional(source: seq<Entry>, target: seq<Entry>) {
    forall a, b, c :: Paired(source, target, a, b) && Paired(source, target, a, c) ==> b == c
  }

  ghost predicate Injective(source: seq<Entry>, target: seq<Entry>) {
    forall a, b, c :: Paired(source, target, a, c) && Paired(source, target, b, c) ==> a == b
  }

  ghost predicate Pairable(source: seq<Entry>, target: seq<Entry>) {
    && Indexable(source, ExecutionKey, ExecutionIdOf) && Indexable(target, ExecutionKey, ExecutionIdOf)
    && KeysOf(source, ExecutionKey) == KeysOf(target, ExecutionKey)
    && Indexable(source, ParentKey, TestIdOf) && Indexable(target, ParentKey, TestIdOf)
    && KeysOf(source, ParentKey) == KeysOf(target, ParentKey)
    && Functional(source, target)
    && Injective(source, target)
  }

  // ---------------------------------------------------------------- the pairing on the fields of the entries

  predicate SameParent(e: Entry, f: Entry) {
    e.file == f.file && e.suite == f.suite && e.description == f.description
  }

  predicate SameExecution(e: Entry, f: Entry) {
    SameParent(e, f) && e.kind == f.kind && e.parameters == f.parameters && e.tags == f.tags
  }

  lemma {:induction false} KeysMean(e: Entry, f: Entry)
    ensures ExecutionKey(e) == ExecutionKey(f) <==> SameExecution(e, f)
    ensures ParentKey(e) == ParentKey(f) <==> SameParent(e, f)
  {
    var p, q := ExecutionKey(e).parts, ExecutionKey(f).parts;
    if p == q { assert forall i :: 0 <= i < 6 ==> p[i] == q[i]; }
    var x, y := ParentKey(e).parts, ParentKey(f).parts;
    if x == y { assert forall i :: 0 <= i < 3 ==> x[i] == y[i]; }
  }

  /** A report names every entry, and the same execution or parent test always alike. */
  ghost predicate NamedAlike(entries: seq<Entry>) {
    && (forall e :: e in entries ==> e.executionId != "" && e.testId != "")
    && (forall e, f :: e in entries && f in entries && SameExecution(e, f) ==> e.executionId == f.executionId)
    && (forall e, f :: e in entries && f in entries && SameParent(e, f) ==> e.testId == f.testId)
  }

  ghost predicate Covers(source: seq<Entry>, target: seq<Entry>) {
    forall e :: e in source ==> exists f :: f in target && SameExecution(e, f)
  }

  /** Entries are paired by equal file, suite and description, as executions by equal kind, parameters and
      tags too. */
  lemma {:induction false} PairingMeans(source: seq<Entry>, target: seq<Entry>, a: string, b: string)
    ensures Paired(source, target, a, b) <==> exists e, f :: e in source && f in target && Alike(e, f, a, b)
  {
    if Paired(source, target, a, b) {
      var e, f :| e in source && f in target && PairedBy(e, f, a, b);
      KeysMean(e, f);
      assert Alike(e, f, a, b);
    }
    if e, f :| e in source && f in target && Alike(e, f, a, b) {
      KeysMean(e, f);
      assert PairedBy(e, f, a, b);
    }
  }

  predicate Alike(e: Entry, f: Entry, a: string, b: string) {
    || (SameExecution(e, f) && a == e.executionId && b == f.executionId)
    || (SameParent(e, f) && a == e.testId && b == f.testId)
  }

  /** Two reports can be paired when both list the same executions under consistent names, and the paired
      names stand for each other one to one. */
  lemma {:induction false} PairableMeans(source: seq<Entry>, target: seq<Entry>)
    ensures Pairable(source, target) <==>
      && NamedAlike(source) && NamedAlike(target) && Covers(source, target) && Covers(target, source)
      && Functional(source, target) && Injective(source, target)
  {
    AlikeMeans(source);
    AlikeMeans(target);
    CoverMeans(source, target);
    CoverMeans(target, source);
  }

  lemma {:induction false} AlikeMeans(entries: seq<Entry>)
    ensures NamedAlike(entries) <==>
      Indexable(entries, ExecutionKey, ExecutionIdOf) && Indexable(entries, ParentKey, TestIdOf)
  {
    forall e, f
      ensures ExecutionKey(e) == ExecutionKey(f) <==> SameExecution(e, f)
      ensures ParentKey(e) == ParentKey(f) <==> SameParent(e, f)
    {
      KeysMean(e, f);
    }
  }

  lemma {:induction false} CoverMeans(source: seq<Entry>, target: seq<Entry>)
    ensures Covers(source, target) <==> KeysOf(source, ExecutionKey) <= KeysOf(target, ExecutionKey)
    ensures Covers(source, target) ==> KeysOf(source, ParentKey) <= KeysOf(target, ParentKey)
  {
    forall e, f
      ensures ExecutionKey(e) == ExecutionKey(f) <==> SameExecution(e, f)
      ensures ParentKey(e) == ParentKey(f) <==> SameParent(e, f)
    {
      KeysMean(e, f);
    }
    if KeysOf(source, ExecutionKey) <= KeysOf(target, ExecutionKey) {
      forall e | e in source
        ensures exists f :: f in target && SameExecution(e, f)
      {
        assert ExecutionKey(e) in KeysOf(target, ExecutionKey);
      }
    }
  }

  ghost predicate IsMapping(m: map<string, string>, source: seq<Entry>, target: seq<Entry>) {
    forall a, b :: a in m && m[a] == b <==> Paired(source, target, a, b)
  }

  ghost predicate Inverse(m: map<string, string>, n: map<string, string>) {
    && (forall a :: a in m ==> m[a] in n && n[m[a]] == a)
    && (forall b :: b in n ==> n[b] in m && m[n[b]] == b)
  }

  /** Pairs of one index pair, for the keys already visited. */
  ghost predicate Visited(
      done: set<Key>, source: map<Key, string>, target: map<Key, string>, a: string, b: string)
  {
    exists k :: k in done && k in source && k in target && source[k] == a && target[k] == b
  }

  /** ... together with what an earlier loop recorded. */
  ghost predicate Related(
      known: map<string, string>, done: set<Key>, source: map<Key, string>, target: map<Key, string>, a: string, b: string)
  {
    (a in known && known[a] == b) || Visited(done, source, target, a, b)
  }

  ghost predicate Records(
      mapping: map<string, string>, known: map<string, string>, done: set<Key>, source: map<Key, string>, target: map<Key, string>)
  {
    forall a, b :: a in mapping && mapping[a] == b <==> Related(known, done, source, target, a, b)
  }

  ghost predicate Ambiguous(known: map<string, string>, source: map<Key, string>, target: map<Key, string>) {
    exists a, b, c :: (b != c
      && Related(known, source.Keys, source, target, a, b)
      && Related(known, source.Keys, source, target, a, c))
  }

  /** One of the two loops that fill `mapping`, in whatever order the dictionary yields its keys. */
  method PairIndex(known: map<string, string>, source: map<Key, string>, target: map<Key, string>)
    returns (r: Result<map<string, string>>)
    requires source.Keys == target.Keys
    ensures r.Ok? ==> Records(r.value, known, source.Keys, source, target)
    ensures r.Err? ==> Ambiguous(known, source, target)
  {
    var mapping := known;
    var pending := source.Keys;
    ghost var done := {};
    while pending != {}
      invariant done + pending == source.Keys
      invariant Records(mapping, known, done, source, target)
      decreases |pending|
    {
      var k :| k in pending;
      var a, b := source[k], target[k];
      if a in mapping && mapping[a] != b {
        assert Related(known, done, source, target, a, mapping[a]);
        VisitedMore(done, source, target, a, mapping[a]);
        assert Visited(source.Keys, source, target, a, b);
        assert Related(known, source.Keys, source, target, a, b);
        assert Related(known, source.Keys, source, target, a, mapping[a]);
        return Err("identity maps ambiguously");
      }
      RecordsNext(mapping, known, done, k, source, target);
      mapping := mapping[a := b];
      pending := pending - {k};
      done := done + {k};
    }
    assert done == source.Keys;
    r := Ok(mapping);
  }

  lemma {:induction false} RecordsNext(
      mapping: map<string, string>, known: map<string, string>, done: set<Key>, k: Key,
      source: map<Key, string>, target: map<Key, string>)
    requires done <= source.Keys && source.Keys == target.Keys && k in source
    requires Records(mapping, known, done, source, target)
    requires source[k] in mapping ==> mapping[source[k]] == target[k]
    ensures Records(mapping[source[k] := target[k]], known, done + {k}, source, target)
  {
    var next := mapping[source[k] := target[k]];
    forall a, b
      ensures a in next && next[a] == b <==> Related(known, done + {k}, source, target, a, b)
    {
      VisitNext(done, k, source, target, a, b);
      assert a in mapping && mapping[a] == b <==> Related(known, done, source, target, a, b);
    }
  }

  lemma {:induction false} VisitedMore(done: set<Key>, source: map<Key, string>, target: map<Key, string>, a: string, b: string)
    requires done <= source.Keys && source.Keys == target.Keys
    ensures Visited(done, source, target, a, b) ==> Visited(source.Keys, source, target, a, b)
  {
    if Visited(done, source, target, a, b) {
      var j :| j in done && source[j] == a && target[j] == b;
      assert j in source.Keys;
    }
  }

  lemma {:induction false} VisitNext(
      done: set<Key>, k: Key, source: map<Key, string>, target: map<Key, string>, a: string, b: string)
    requires done <= source.Keys && source.Keys == target.Keys && k in source
    ensures Visited(done + {k}, source, target, a, b) <==>
            Visited(done, source, target, a, b) || (a == source[k] && b == target[k])
  {
    if Visited(done, source, target, a, b) {
      var j :| j in done && source[j] == a && target[j] == b;
      assert j in done + {k};
    }
    if a == source[k] && b == target[k] { assert k in done + {k}; }
  }

  /** The loop that fills `reverse`: it succeeds exactly for an injection, and inverts it. */
  method Reverse(mapping: map<string, string>) returns (r: Result<map<string, string>>)
    ensures r.Ok? <==> forall a, b :: a in mapping && b in mapping && mapping[a] == mapping[b] ==> a == b
    ensures r.Ok? ==> Inverse(mapping, r.value)
  {
    var reverse: map<string, string> := map[];
    var pending := mapping.Keys;
    while pending != {}
      invariant pending <= mapping.Keys
      invariant forall a :: a in mapping && a !in pending ==> mapping[a] in reverse && reverse[mapping[a]] == a
      invariant forall b :: b in reverse ==> reverse[b] in mapping && reverse[b] !in pending && mapping[reverse[b]] == b
      decreases |pending|
    {
      var a :| a in pending;
      if mapping[a] in reverse && reverse[mapping[a]] != a {
        return Err("new identity collides");
      }
      reverse := reverse[mapping[a] := a];
      pending := pending - {a};
    }
    r := Ok(reverse);
  }

  /** Paired through one kind of key and identity. */
  ghost predicate PairedWith(
      source: seq<Entry>, target: seq<Entry>, key: Entry -> Key, id: Entry -> string, a: string, b: string)
  {
    exists e, f :: e in source && f in target && key(e) == key(f) && id(e) == a && id(f) == b
  }

  lemma {:induction false} VisitedPairs(
      source: seq<Entry>, target: seq<Entry>, key: Entry -> Key, id: Entry -> string,
      sourceIndex: map<Key, string>, targetIndex: map<Key, string>, a: string, b: string)
    requires Indexes(sourceIndex, source, key, id) && Indexes(targetIndex, target, key, id)
    requires sourceIndex.Keys == targetIndex.Keys
    ensures Visited(sourceIndex.Keys, sourceIndex, targetIndex, a, b) <==> PairedWith(source, target, key, id, a, b)
  {
    if Visited(sourceIndex.Keys, sourceIndex, targetIndex, a, b) {
      var k :| k in sourceIndex.Keys && sourceIndex[k] == a && targetIndex[k] == b;
      var e :| e in source && key(e) == k;
      assert k in targetIndex.Keys;
      var f :| f in target && key(f) == k;
    }
    if PairedWith(source, target, key, id, a, b) {
      var e, f :| e in source && f in target && key(e) == key(f) && id(e) == a && id(f) == b;
      assert key(e) in sourceIndex.Keys;
    }
  }

  /** `Paired` through the two indexes. */
  ghost predicate ByIndexes(
      sourceExec: map<Key, string>, targetExec: map<Key, string>,
      sourceParent: map<Key, string>, targetParent: map<Key, string>, a: string, b: string)
  {
    Visited(sourceExec.Keys, sourceExec, targetExec, a, b) || Visited(sourceParent.Keys, sourceParent, targetParent, a, b)
  }

  lemma {:induction false} PairedCases(source: seq<Entry>, target: seq<Entry>, a: string, b: string)
    ensures Paired(source, target, a, b) <==>
            || PairedWith(source, target, ExecutionKey, ExecutionIdOf, a, b)
            || PairedWith(source, target, ParentKey, TestIdOf, a, b)
  {
    if Paired(source, target, a, b) {
      var e, f :| e in source && f in target && PairedBy(e, f, a, b);
      assert ExecutionIdOf(e) == e.executionId && TestIdOf(e) == e.testId;
      assert ExecutionIdOf(f) == f.executionId && TestIdOf(f) == f.testId;
    }
    if PairedWith(source, target, ExecutionKey, ExecutionIdOf, a, b) {
      var e, f :| e in source && f in target && ExecutionKey(e) == ExecutionKey(f) && ExecutionIdOf(e) == a && ExecutionIdOf(f) == b;
      assert PairedBy(e, f, a, b);
    }
    if PairedWith(source, target, ParentKey, TestIdOf, a, b) {
      var e, f :| e in source && f in target && ParentKey(e) == ParentKey(f) && TestIdOf(e) == a && TestIdOf(f) == b;
      assert PairedBy(e, f, a, b);
    }
  }

  /** `pair_maps`: accepted exactly when the reports prove a bijection, which is returned with its inverse. */
  method PairMaps(source: seq<Entry>, target: seq<Entry>)
    returns (r: Result<(map<string, string>, map<string, string>)>)
    ensures r.Ok? <==> Pairable(source, target)
    ensures r.Ok? ==> IsMapping(r.value.0, source, target) && Inverse(r.value.0, r.value.1)
  {
    var sourceExec := Indexed(source, ExecutionKey, ExecutionIdOf);
    if sourceExec.Err? { return Err(sourceExec.error); }
    var targetExec := Indexed(target, ExecutionKey, ExecutionIdOf);
    if targetExec.Err? { return Err(targetExec.error); }
    if sourceExec.value.Keys != targetExec.value.Keys {
      return Err("report inventories differ");
    }
    var sourceParent := Indexed(source, ParentKey, TestIdOf);
    if sourceParent.Err? { return Err(sourceParent.error); }
    var targetParent := Indexed(target, ParentKey, TestIdOf);
    if targetParent.Err? { return Err(targetParent.error); }
    if sourceParent.value.Keys != targetParent.value.Keys {
      return Err("report parent-test inventories differ");
    }
    r := PairIndexes(source, target, sourceExec.value, targetExec.value, sourceParent.value, targetParent.value);
  }

  /** Both loops over the indexes, and the loop that inverts their result. */
  method PairIndexes(
      ghost source: seq<Entry>, ghost target: seq<Entry>,
      sourceExec: map<Key, string>, targetExec: map<Key, string>,
      sourceParent: map<Key, string>, targetParent: map<Key, string>)
    returns (r: Result<(map<string, string>, map<string, string>)>)
    requires Indexes(sourceExec, source, ExecutionKey, ExecutionIdOf) && Indexes(targetExec, target, ExecutionKey, ExecutionIdOf)
    requires Indexes(sourceParent, source, ParentKey, TestIdOf) && Indexes(targetParent, target, ParentKey, TestIdOf)
    requires sourceExec.Keys == targetExec.Keys && sourceParent.Keys == targetParent.Keys
    ensures r.Ok? <==> Functional(source, target) && Injective(source, target)
    ensures r.Ok? ==> IsMapping(r.value.0, source, target) && Inverse(r.value.0, r.value.1)
  {
    AllRepresented(source, target, sourceExec, targetExec, sourceParent, targetParent);
    var mapping := FillMapping(source, target, sourceExec, targetExec, sourceParent, targetParent);
    if mapping.Err? {
      return Err(mapping.error);
    }
    r := WithInverse(source, target, mapping.value);
  }

  method WithInverse(ghost source: seq<Entry>, ghost target: seq<Entry>, mapping: map<string, string>)
    returns (r: Result<(map<string, string>, map<string, string>)>)
    requires IsMapping(mapping, source, target)
    ensures Functional(source, target) && (r.Ok? <==> Injective(source, target))
    ensures r.Ok? ==> IsMapping(r.value.0, source, target) && Inverse(r.value.0, r.value.1)
  {
    MappingFunctional(mapping, source, target);
    var reverse := Reverse(mapping);
    if reverse.Err? {
      return Err(reverse.error);
    }
    r := Ok((mapping, reverse.value));
  }

  method FillMapping(
      ghost source: seq<Entry>, ghost target: seq<Entry>,
      sourceExec: map<Key, string>, targetExec: map<Key, string>,
      sourceParent: map<Key, string>, targetParent: map<Key, string>)
    returns (r: Result<map<string, string>>)
    requires sourceExec.Keys == targetExec.Keys && sourceParent.Keys == targetParent.Keys
    requires Represented(source, target, sourceExec, targetExec, sourceParent, targetParent)
    ensures r.Err? ==> !Functional(source, target)
    ensures r.Ok? ==> IsMapping(r.value, source, target)
  {
    var executions := PairIndex(map[], sourceExec, targetExec);
    if executions.Err? {
      ExecutionsPaired(source, target, sourceExec, targetExec, sourceParent, targetParent);
      NotFunctional(source, target, map[], sourceExec, targetExec);
      return Err(executions.error);
    }
    r := PairIndex(executions.value, sourceParent, targetParent);
    if r.Err? {
      StillPaired(source, target, executions.value, sourceExec, targetExec, sourceParent, targetParent);
      NotFunctional(source, target, executions.value, sourceParent, targetParent);
    } else {
      BothRecorded(source, target, executions.value, r.value, sourceExec, targetExec, sourceParent, targetParent);
    }
  }

  ghost predicate Represented(
      source: seq<Entry>, target: seq<Entry>,
      sourceExec: map<Key, string>, targetExec: map<Key, string>,
      sourceParent: map<Key, string>, targetParent: map<Key, string>)
  {
    forall a, b :: Paired(source, target, a, b) <==> ByIndexes(sourceExec, targetExec, sourceParent, targetParent, a, b)
  }

  lemma {:induction false} AllRepresented(
      source: seq<Entry>, target: seq<Entry>,
      sourceExec: map<Key, string>, targetExec: map<Key, string>,
      sourceParent: map<Key, string>, targetParent: map<Key, string>)
    requires Indexes(sourceExec, source, ExecutionKey, ExecutionIdOf) && Indexes(targetExec, target, ExecutionKey, ExecutionIdOf)
    requires Indexes(sourceParent, source, ParentKey, TestIdOf) && Indexes(targetParent, target, ParentKey, TestIdOf)
    requires sourceExec.Keys == targetExec.Keys && sourceParent.Keys == targetParent.Keys
    ensures Represented(source, target, sourceExec, targetExec, sourceParent, targetParent)
  {
    AllVisited(source, target, ExecutionKey, ExecutionIdOf, sourceExec, targetExec);
    AllVisited(source, target, ParentKey, TestIdOf, sourceParent, targetParent);
    forall a, b
      ensures Paired(source, target, a, b) <==> ByIndexes(sourceExec, targetExec, sourceParent, targetParent, a, b)
    {
      PairedCases(source, target, a, b);
    }
  }

  lemma {:induction false} AllVisited(
      source: seq<Entry>, target: seq<Entry>, key: Entry -> Key, id: Entry -> string,
      sourceIndex: map<Key, string>, targetIndex: map<Key, string>)
    requires Indexes(sourceIndex, source, key, id) && Indexes(targetIndex, target, key, id)
    requires sourceIndex.Keys == targetIndex.Keys
    ensures forall a, b :: Visited(sourceIndex.Keys, sourceIndex, targetIndex, a, b) <==> PairedWith(source, target, key, id, a, b)
  {
    forall a, b
      ensures Visited(sourceIndex.Keys, sourceIndex, targetIndex, a, b) <==> PairedWith(source, target, key, id, a, b)
    {
      VisitedPairs(source, target, key, id, sourceIndex, targetIndex, a, b);
    }
  }

  ghost predicate OnlyPairs(
      source: seq<Entry>, target: seq<Entry>, known: map<string, string>,
      sourceIndex: map<Key, string>, targetIndex: map<Key, string>)
  {
    forall a, b :: Related(known, sourceIndex.Keys, sourceIndex, targetIndex, a, b) ==> Paired(source, target, a, b)
  }

  lemma {:induction false} ExecutionsPaired(
      source: seq<Entry>, target: seq<Entry>,
      sourceExec: map<Key, string>, targetExec: map<Key, string>,
      sourceParent: map<Key, string>, targetParent: map<Key, string>)
    requires sourceExec.Keys == targetExec.Keys && sourceParent.Keys == targetParent.Keys
    requires Represented(source, target, sourceExec, targetExec, sourceParent, targetParent)
    ensures OnlyPairs(source, target, map[], sourceExec, targetExec)
  {
    forall a, b | Related(map[], sourceExec.Keys, sourceExec, targetExec, a, b)
      ensures Paired(source, target, a, b)
    {
      assert ByIndexes(sourceExec, targetExec, sourceParent, targetParent, a, b);
    }
  }

  lemma {:induction false} StillPaired(
      source: seq<Entry>, target: seq<Entry>, executions: map<string, string>,
      sourceExec: map<Key, string>, targetExec: map<Key, string>,
      sourceParent: map<Key, string>, targetParent: map<Key, string>)
    requires sourceExec.Keys == targetExec.Keys && sourceParent.Keys == targetParent.Keys
    requires Represented(source, target, sourceExec, targetExec, sourceParent, targetParent)
    requires Records(executions, map[], sourceExec.Keys, sourceExec, targetExec)
    ensures OnlyPairs(source, target, executions, sourceParent, targetParent)
  {
    forall a, b | Related(executions, sourceParent.Keys, sourceParent, targetParent, a, b)
      ensures Paired(source, target, a, b)
    {
      assert ByIndexes(sourceExec, targetExec, sourceParent, targetParent, a, b) by {
        assert Related(map[], sourceExec.Keys, sourceExec, targetExec, a, b) <==> a in executions && executions[a] == b;
      }
    }
  }

  lemma {:induction false} BothRecorded(
      source: seq<Entry>, target: seq<Entry>, executions: map<string, string>, all: map<string, string>,
      sourceExec: map<Key, string>, targetExec: map<Key, string>,
      sourceParent: map<Key, string>, targetParent: map<Key, string>)
    requires sourceExec.Keys == targetExec.Keys && sourceParent.Keys == targetParent.Keys
    requires Represented(source, target, sourceExec, targetExec, sourceParent, targetParent)
    requires Records(executions, map[], sourceExec.Keys, sourceExec, targetExec)
    requires Records(all, executions, sourceParent.Keys, sourceParent, targetParent)
    ensures IsMapping(all, source, target)
  {
    forall a, b
      ensures a in all && all[a] == b <==> Paired(source, target, a, b)
    {
      assert ByIndexes(sourceExec, targetExec, sourceParent, targetParent, a, b) <==> Paired(source, target, a, b);
      assert Related(executions, sourceParent.Keys, sourceParent, targetParent, a, b) <==> a in all && all[a] == b;
      assert Related(map[], sourceExec.Keys, sourceExec, targetExec, a, b) <==> a in executions && executions[a] == b;
    }
  }

  lemma {:induction false} NotFunctional(
      source: seq<Entry>, target: seq<Entry>, known: map<string, string>,
      sourceIndex: map<Key, string>, targetIndex: map<Key, string>)
    requires sourceIndex.Keys == targetIndex.Keys
    requires OnlyPairs(source, target, known, sourceIndex, targetIndex)
    requires Ambiguous(known, sourceIndex, targetIndex)
    ensures !Functional(source, target)
  {
    var a, b, c :| b != c
      && Related(known, sourceIndex.Keys, sourceIndex, targetIndex, a, b)
      && Related(known, sourceIndex.Keys, sourceIndex, targetIndex, a, c);
    assert Paired(source, target, a, b) && Paired(source, target, a, c);
  }

  lemma {:induction false} MappingFunctional(m: map<string, string>, source: seq<Entry>, target: seq<Entry>)
    requires IsMapping(m, source, target)
    ensures Functional(source, target)
    ensures Injective(source, target) <==> forall a, b :: a in m && b in m && m[a] == m[b] ==> a == b
  {
    if Injective(source, target) {
      forall a, b | a in m && b in m && m[a] == m[b]
        ensures a == b
      {
        assert Paired(source, target, a, m[a]) && Paired(source, target, b, m[a]);
      }
    }
  }
}
