/** What the accepted checks establish together: the merged report covers one
    execution inventory, every shardable execution once and by its owner. */
module ExactCover {
  import opened Orders
  import opened Seqs
  import opened Text
  import opened Shards
  import opened Inventory
  import opened ShardResults

  function Expected(docs: seq<Shard>): seq<set<string>> {
    seq(|docs|, (i: nat) requires i < |docs| => Selected(docs[i].tests))
  }

  /** Executions that every shard runs. */
  function RunLevel(tests: seq<Entry>): set<string> {
    set e | e in tests && !e.shardable :: EntryId(e)
  }

  ghost predicate Mergeable(docs: seq<Shard>)
    requires docs != []
  {
    && TopologyOk(docs)
    && InventoryOk(docs, |docs|)
    && ResultsOk(docs, Expected(docs), RunLevel(AllTests(docs)))
  }

  // ---------------------------------------------------------------- rows in inventory order

  function HasId(id: string): Row -> seq<Row> { (r: Row) => if RowId(r) == id then [r] else [] }

  function InOrder(inventory: seq<Entry>, rows: seq<Row>): seq<Row> {
    if inventory == [] then []
    else FlatMap(rows, HasId(inventory[0].executionId)) + InOrder(inventory[1..], rows)
  }

  function IdsOf(rows: seq<Row>): seq<string> {
    seq(|rows|, (i: nat) requires i < |rows| => RowId(rows[i]))
  }

  /** The inventory's identities that have a result. */
  function Present(inventory: seq<Entry>, reported: set<string>): seq<string> {
    if inventory == [] then []
    else (if inventory[0].executionId in reported then [inventory[0].executionId] else [])
         + Present(inventory[1..], reported)
  }

  lemma {:induction false} NoneWithId(rows: seq<Row>, id: string)
    requires id !in RowIds(rows)
    ensures FlatMap(rows, HasId(id)) == []
  {
    if rows != [] {
      assert rows[0] in rows;
      NoneWithId(rows[1..], id);
    }
  }

  lemma {:induction false} OneWithId(rows: seq<Row>, id: string)
    requires DistinctRows(rows) && id in RowIds(rows)
    ensures IdsOf(FlatMap(rows, HasId(id))) == [id]
  {
    var tail := rows[1..];
    assert rows == [rows[0]] + tail;
    if RowId(rows[0]) == id {
      assert id !in RowIds(tail);
      NoneWithId(tail, id);
      assert FlatMap(rows, HasId(id)) == [rows[0]];
    } else {
      OneWithId(tail, id);
      assert FlatMap(rows, HasId(id)) == FlatMap(tail, HasId(id));
    }
  }

  lemma {:induction false} IdsAppend(a: seq<Row>, b: seq<Row>)
    ensures IdsOf(a + b) == IdsOf(a) + IdsOf(b)
  {}

  /** Sorting rows by inventory position leaves only the inventory's order in their identities. */
  lemma {:induction false} IdsInOrder(inventory: seq<Entry>, rows: seq<Row>)
    requires DistinctRows(rows)
    ensures IdsOf(InOrder(inventory, rows)) == Present(inventory, RowIds(rows))
  {
    if inventory != [] {
      var id := inventory[0].executionId;
      IdsInOrder(inventory[1..], rows);
      IdsAppend(FlatMap(rows, HasId(id)), InOrder(inventory[1..], rows));
      if id in RowIds(rows) { OneWithId(rows, id); } else { NoneWithId(rows, id); }
    }
  }

  lemma {:induction false} DropWithId(rows: seq<Row>, id: string, x: Row)
    ensures multiset(FlatMap(rows, HasId(id)))[x] == if RowId(x) == id then multiset(rows)[x] else 0
  {
    if rows != [] {
      DropWithId(rows[1..], id, x);
      assert rows == [rows[0]] + rows[1..];
    }
  }

  /** `rows.sort(key=...)` keeps every row. */
  lemma {:induction false} InOrderCount(inventory: seq<Entry>, rows: seq<Row>, x: Row)
    requires forall i, j :: 0 <= i < j < |inventory| ==> inventory[i].executionId != inventory[j].executionId
    ensures multiset(InOrder(inventory, rows))[x] ==
            if exists e :: e in inventory && e.executionId == RowId(x) then multiset(rows)[x] else 0
  {
    if inventory != [] {
      InOrderCount(inventory[1..], rows, x);
      DropWithId(rows, inventory[0].executionId, x);
      assert inventory == [inventory[0]] + inventory[1..];
      if inventory[0].executionId == RowId(x) { assert inventory[0] in inventory; }
    }
  }

  lemma {:induction false} InOrderKeepsRows(inventory: seq<Entry>, rows: seq<Row>)
    requires forall i, j :: 0 <= i < j < |inventory| ==> inventory[i].executionId != inventory[j].executionId
    requires forall r :: r in rows ==> exists e :: e in inventory && e.executionId == RowId(r)
    ensures multiset(InOrder(inventory, rows)) == multiset(rows)
  {
    forall x
      ensures multiset(InOrder(inventory, rows))[x] == multiset(rows)[x]
    {
      InOrderCount(inventory, rows, x);
      if x !in rows { assert multiset(rows)[x] == 0; }
    }
  }

  // ---------------------------------------------------------------- the procedure

  lemma {:induction false} RunLevelListed(inventory: seq<Entry>, tests: seq<Entry>)
    requires Lists(inventory, tests) && forall e :: e in tests ==> e.executionId == EntryId(e)
    ensures (set e | e in inventory && !e.shardable :: e.executionId) == RunLevel(tests)
  {
    forall id
      ensures id in RunLevel(tests) <==> exists e :: e in inventory && !e.shardable && e.executionId == id
    {
      if id in RunLevel(tests) {
        var t :| t in tests && !t.shardable && EntryId(t) == id;
        assert Norm(t) in inventory;
      }
      if e :| e in inventory && !e.shardable && e.executionId == id {
        var t :| t in tests && e == Norm(t);
      }
    }
  }

  /** The part of `merge` that decides which rows the merged report has. */
  method MergeRows(docs: seq<Shard>) returns (r: Result<(seq<Entry>, seq<Row>)>)
    requires docs != []
    ensures r.Ok? <==> Mergeable(docs)
    ensures r.Ok? ==> Lists(r.value.0, AllTests(docs))
    ensures r.Ok? ==> r.value.1 == InOrder(r.value.0, FirstRows(AllRows(docs)))
  {
    var count := Topology(docs);
    if count.Err? {
      return Err(count.error);
    }
    var checked := ValidateInventory(docs, count.value);
    if checked.Err? {
      return Err(checked.error);
    }
    var (inventory, expected) := checked.value;
    assert expected == Expected(docs);
    var unshardable := set e | e in inventory && !e.shardable :: e.executionId;
    EntriesNamed(docs, |docs|);
    RunLevelListed(inventory, AllTests(docs));
    var rows := ValidateResults(docs, expected, unshardable);
    if rows.Err? {
      return Err(rows.error);
    }
    r := Ok((inventory, InOrder(inventory, rows.value)));
  }

  // ---------------------------------------------------------------- who reports what

  /** Every index has its shard. */
  lemma {:induction false} Owner(docs: seq<Shard>, k: int) returns (d: Shard)
    requires docs != [] && TopologyOk(docs) && 0 <= k < |docs|
    ensures d in docs && d.index == k
  {
    Pigeonhole(Indices(docs), |docs|, k);
    var i :| 0 <= i < |docs| && Indices(docs)[i] == k;
    d := docs[i];
  }

  /** A result comes from the shard's own manifest, and a shardable one from the shard it is assigned to. */
  lemma {:induction false} ReportedByOwner(docs: seq<Shard>, d: Shard, r: Row) returns (e: Entry)
    requires docs != [] && InventoryOk(docs, |docs|) && d in docs && r in d.rows
    requires ReportsExactly(d.rows, Selected(d.tests))
    ensures e in d.tests && e.executionId == RowId(r) && (e.shardable ==> e.assignedShard == d.index)
  {
    assert RowId(r) in RowIds(d.rows);
    e :| e in d.tests && e.selected && EntryId(e) == RowId(r);
    assert ManifestOk(d, |docs|) && SelectionOk(e, d.index);
  }

  lemma {:induction false} InAllTests(docs: seq<Shard>, d: Shard, e: Entry)
    requires d in docs && e in d.tests
    ensures e in AllTests(docs)
  {
    assert e in TestsOf(d);
    FlatMapMember(docs, TestsOf, e);
  }

  lemma {:induction false} InAllRows(docs: seq<Shard>, d: Shard, r: Row)
    requires d in docs && r in d.rows
    ensures r in AllRows(docs)
  {
    assert r in RowsOf(d);
    FlatMapMember(docs, RowsOf, r);
  }

  /** Results of one identity, from whatever shards, carry the same evidence. */
  lemma {:induction false} SharedResultsAgree(docs: seq<Shard>, c: Shard, d: Shard, r: Row, s: Row)
    requires docs != [] && Mergeable(docs) && c in docs && d in docs
    requires r in c.rows && s in d.rows && RowId(r) == RowId(s)
    ensures r.evidence == s.evidence && r.testId == s.testId && r.caseId == s.caseId
  {
    var i :| 0 <= i < |docs| && docs[i] == c;
    var j :| 0 <= j < |docs| && docs[j] == d;
    if i < j {
      assert MayRepeat(docs[i].rows, docs[j].rows, RunLevel(AllTests(docs)));
    } else if j < i {
      assert MayRepeat(docs[j].rows, docs[i].rows, RunLevel(AllTests(docs)));
    } else {
      assert ReportsExactly(c.rows, Expected(docs)[i]);
      SameDistinctRow(c.rows, r, s);
    }
  }

  lemma {:induction false} SameDistinctRow(rows: seq<Row>, r: Row, s: Row)
    requires DistinctRows(rows) && r in rows && s in rows && RowId(r) == RowId(s)
    ensures r == s
  {
    var i :| 0 <= i < |rows| && rows[i] == r;
    var j :| 0 <= j < |rows| && rows[j] == s;
  }

  /** Shards that report one identity with different evidence are refused. */
  lemma {:induction false} ContradictionRefused(docs: seq<Shard>, c: Shard, d: Shard, r: Row, s: Row)
    requires docs != [] && c in docs && d in docs && r in c.rows && s in d.rows && RowId(r) == RowId(s)
    requires r.evidence != s.evidence || r.testId != s.testId || r.caseId != s.caseId
    ensures !Mergeable(docs)
  {
    if Mergeable(docs) { SharedResultsAgree(docs, c, d, r, s); }
  }

  /** Two shards can report the same execution only if it is run-level: for a shardable one the
      "more than one shard" rejection is never reached. */
  lemma {:induction false} SharedResultIsRunLevel(docs: seq<Shard>, c: Shard, d: Shard, r: Row, s: Row)
    requires docs != [] && InventoryOk(docs, |docs|)
    requires c in docs && d in docs && c.index != d.index
    requires ReportsExactly(c.rows, Selected(c.tests)) && ReportsExactly(d.rows, Selected(d.tests))
    requires r in c.rows && s in d.rows && RowId(r) == RowId(s)
    ensures RowId(r) in RunLevel(AllTests(docs))
  {
    var e := ReportedByOwner(docs, c, r);
    var f := ReportedByOwner(docs, d, s);
    InAllTests(docs, c, e);
    InAllTests(docs, d, f);
    assert ManifestOk(c, |docs|) && ManifestOk(d, |docs|);
    assert EntryOk(e, |docs|) && EntryOk(f, |docs|);
    assert Norm(e) == Norm(f);
    assert e.assignedShard == f.assignedShard && e.shardable == f.shardable;
  }

  ghost predicate OwnReports(docs: seq<Shard>) {
    forall d :: d in docs ==> ReportsExactly(d.rows, Selected(d.tests))
  }

  lemma {:induction false} MergeableReports(docs: seq<Shard>)
    requires docs != [] && Mergeable(docs)
    ensures OwnReports(docs)
  {
    forall d | d in docs
      ensures ReportsExactly(d.rows, Selected(d.tests))
    {
      var i :| 0 <= i < |docs| && docs[i] == d;
      assert Expected(docs)[i] == Selected(d.tests);
    }
  }

  /** Exactly one: a shardable execution is reported by its owner if and only if the owner's own
      manifest lists it, and by no other shard. */
  lemma {:induction false} ExactlyOneReporter(docs: seq<Shard>, e: Entry, owner: Shard)
    requires docs != [] && Mergeable(docs)
    requires e in AllTests(docs) && e.shardable
    requires owner in docs && owner.index == e.assignedShard
    ensures EntryId(e) in RowIds(owner.rows) <==> EntryId(e) in EntryIds(owner.tests)
    ensures forall d :: d in docs && d != owner ==> EntryId(e) !in RowIds(d.rows)
  {
    MergeableReports(docs);
    assert ManifestOk(owner, |docs|);
    if EntryId(e) in EntryIds(owner.tests) {
      var f :| f in owner.tests && EntryId(f) == EntryId(e);
      InAllTests(docs, owner, f);
      assert Norm(e) == Norm(f) && SelectionOk(f, owner.index);
      assert EntryId(f) in Selected(owner.tests);
    }
    forall d | d in docs && EntryId(e) in RowIds(d.rows)
      ensures d == owner
    {
      var r :| r in d.rows && RowId(r) == EntryId(e);
      OnlyOwner(docs, e, d, r);
      SameIndexSameShard(docs, d, owner);
    }
  }

  lemma {:induction false} OnlyOwner(docs: seq<Shard>, e: Entry, d: Shard, r: Row)
    requires docs != [] && Mergeable(docs) && OwnReports(docs)
    requires e in AllTests(docs) && e.shardable && d in docs && r in d.rows && RowId(r) == EntryId(e)
    ensures d.index == e.assignedShard
  {
    var f := ReportedByOwner(docs, d, r);
    InAllTests(docs, d, f);
    assert ManifestOk(d, |docs|) && EntryOk(f, |docs|);
    assert Norm(e) == Norm(f);
    assert e.assignedShard == f.assignedShard && e.shardable == f.shardable;
  }

  lemma {:induction false} SameIndexSameShard(docs: seq<Shard>, c: Shard, d: Shard)
    requires docs != [] && TopologyOk(docs) && c in docs && d in docs && c.index == d.index
    ensures c == d
  {
    var i :| 0 <= i < |docs| && docs[i] == c;
    var j :| 0 <= j < |docs| && docs[j] == d;
    assert Indices(docs)[i] == Indices(docs)[j];
    assert i == j;
  }

  /** Every reported result has its one row in the merged report: itself, or for a run-level
      execution a copy with the same evidence. */
  lemma {:induction false} EveryResultMerged(docs: seq<Shard>, inventory: seq<Entry>, d: Shard, r: Row)
    returns (m: Row)
    requires docs != [] && Mergeable(docs) && Lists(inventory, AllTests(docs))
    requires d in docs && r in d.rows
    ensures m in InOrder(inventory, FirstRows(AllRows(docs)))
    ensures RowId(m) == RowId(r) && SameEvidence(m, r)
    ensures RowId(r) !in RunLevel(AllTests(docs)) ==> m == r
  {
    InAllRows(docs, d, r);
    FirstRowsIds(AllRows(docs));
    FirstRowsDistinct(AllRows(docs));
    assert RowId(r) in RowIds(FirstRows(AllRows(docs)));
    m :| m in FirstRows(AllRows(docs)) && RowId(m) == RowId(r);
    RowsAreListed(docs, inventory);
    InOrderKeepsRows(inventory, FirstRows(AllRows(docs)));
    SameMembers(InOrder(inventory, FirstRows(AllRows(docs))), FirstRows(AllRows(docs)));
    FlatMapMember(docs, RowsOf, m);
    var c :| c in docs && m in RowsOf(c);
    CopiesAgree(docs, c, d, m, r);
  }

  lemma {:induction false} CopiesAgree(docs: seq<Shard>, c: Shard, d: Shard, m: Row, r: Row)
    requires docs != [] && Mergeable(docs)
    requires c in docs && d in docs && m in c.rows && r in d.rows && RowId(m) == RowId(r)
    ensures SameEvidence(m, r)
    ensures RowId(r) !in RunLevel(AllTests(docs)) ==> m == r
  {
    MergeableReports(docs);
    var i :| 0 <= i < |docs| && docs[i] == c;
    var j :| 0 <= j < |docs| && docs[j] == d;
    if i == j {
      assert ReportsExactly(c.rows, Selected(c.tests));
      RowById(c.rows, m, r);
    } else if i < j {
      assert MayRepeat(docs[i].rows, docs[j].rows, RunLevel(AllTests(docs)));
    } else {
      assert MayRepeat(docs[j].rows, docs[i].rows, RunLevel(AllTests(docs)));
    }
  }

  lemma {:induction false} RowById(rs: seq<Row>, a: Row, b: Row)
    requires DistinctRows(rs) && a in rs && b in rs && RowId(a) == RowId(b)
    ensures a == b
  {
    var i :| 0 <= i < |rs| && rs[i] == a;
    var j :| 0 <= j < |rs| && rs[j] == b;
    assert i == j;
  }

  /** The lookup `order[execution_id(row)]` never fails. */
  lemma {:induction false} RowsAreListed(docs: seq<Shard>, inventory: seq<Entry>)
    requires docs != [] && Mergeable(docs) && Lists(inventory, AllTests(docs))
    ensures forall r :: r in FirstRows(AllRows(docs)) ==> exists e :: e in inventory && e.executionId == RowId(r)
  {
    MergeableReports(docs);
    FirstRowsDistinct(AllRows(docs));
    forall r | r in FirstRows(AllRows(docs))
      ensures exists e :: e in inventory && e.executionId == RowId(r)
    {
      FlatMapMember(docs, RowsOf, r);
      var d :| d in docs && r in RowsOf(d);
      var e := ReportedByOwner(docs, d, r);
      InAllTests(docs, d, e);
      assert Norm(e) in inventory;
    }
  }

  // ---------------------------------------------------------------- completion

  /** Every shardable execution is in the manifest of the shard it is assigned to. */
  ghost predicate OwnersKnow(docs: seq<Shard>) {
    forall e, d :: e in AllTests(docs) && e.shardable && d in docs && d.index == e.assignedShard ==>
      EntryId(e) in EntryIds(d.tests)
  }

  /** The merged results cover the merged inventory exactly when every owner knows its executions:
      manifests are compared by digest, so nothing else forces them to list the same ones. */
  lemma {:induction false} CoversInventory(docs: seq<Shard>)
    requires docs != [] && Mergeable(docs)
    ensures RowIds(AllRows(docs)) <= EntryIds(AllTests(docs))
    ensures RowIds(AllRows(docs)) == EntryIds(AllTests(docs)) <==> OwnersKnow(docs)
  {
    MergeableReports(docs);
    forall id | id in RowIds(AllRows(docs))
      ensures id in EntryIds(AllTests(docs))
    {
      var r :| r in AllRows(docs) && RowId(r) == id;
      FlatMapMember(docs, RowsOf, r);
      var d :| d in docs && r in RowsOf(d);
      var e := ReportedByOwner(docs, d, r);
      InAllTests(docs, d, e);
      assert ManifestOk(d, |docs|) && EntryOk(e, |docs|);
    }
    if RowIds(AllRows(docs)) == EntryIds(AllTests(docs)) { CoveredOwnersKnow(docs); }
    if OwnersKnow(docs) {
      forall id | id in EntryIds(AllTests(docs))
        ensures id in RowIds(AllRows(docs))
      {
        var e :| e in AllTests(docs) && EntryId(e) == id;
        KnownIsReported(docs, e);
      }
    }
  }

  lemma {:induction false} CoveredOwnersKnow(docs: seq<Shard>)
    requires docs != [] && Mergeable(docs) && RowIds(AllRows(docs)) == EntryIds(AllTests(docs))
    ensures OwnersKnow(docs)
  {
    forall e, d | e in AllTests(docs) && e.shardable && d in docs && d.index == e.assignedShard
      ensures EntryId(e) in EntryIds(d.tests)
    {
      assert EntryId(e) in RowIds(AllRows(docs));
      var r :| r in AllRows(docs) && RowId(r) == EntryId(e);
      FlatMapMember(docs, RowsOf, r);
      var c :| c in docs && r in RowsOf(c);
      assert RowId(r) in RowIds(c.rows);
      ExactlyOneReporter(docs, e, d);
    }
  }

  lemma {:induction false} KnownIsReported(docs: seq<Shard>, e: Entry)
    requires docs != [] && Mergeable(docs) && OwnersKnow(docs) && e in AllTests(docs)
    ensures EntryId(e) in RowIds(AllRows(docs))
  {
    EntriesNamed(docs, |docs|);
    assert EntryOk(e, |docs|);
    var d;
    if e.shardable {
      d := Owner(docs, e.assignedShard);
      ExactlyOneReporter(docs, e, d);
    } else {
      MergeableReports(docs);
      FlatMapMember(docs, TestsOf, e);
      d :| d in docs && e in TestsOf(d);
      assert ManifestOk(d, |docs|) && SelectionOk(e, d.index);
      assert EntryId(e) in Selected(d.tests) && ReportsExactly(d.rows, Selected(d.tests));
    }
    var r :| r in d.rows && RowId(r) == EntryId(e);
    InAllRows(docs, d, r);
  }

  datatype Completion = Completion(
    state: string, complete: bool, truncated: bool, reason: string,
    selectedTestCount: int, resultCount: int, missing: seq<string>)

  const REASONS := {
    "completed", "describeOnly", "emptyShard", "frameworkError", "loadError",
    "isolationError", "failFast", "missingResults"
  }

  /** `validate_completion`. */
  ghost predicate CompletionOk(c: Completion, selected: seq<string>, ids: seq<string>) {
    && c.state in {"complete", "incomplete"}
    && c.complete != c.truncated
    && (c.state == "complete" <==> c.complete)
    && c.reason in REASONS
    && c.selectedTestCount == |selected|
    && c.resultCount == |ids|
    && Elements(c.missing) == Elements(selected) - Elements(ids)
    && Elements(ids) <= Elements(selected)
    && (c.complete ==> Elements(ids) == Elements(selected))
    && (c.truncated ==> c.reason !in {"completed", "describeOnly", "emptyShard"})
  }

  method ValidateCompletion(c: Completion, selected: seq<string>, ids: seq<string>) returns (ok: bool)
    ensures ok <==> CompletionOk(c, selected, ids)
  {
    if c.state != "complete" && c.state != "incomplete" { return false; }
    if c.complete == c.truncated || (c.state == "complete") != c.complete { return false; }
    if c.reason !in {"completed", "describeOnly", "emptyShard", "frameworkError", "loadError", "isolationError",
                     "failFast", "missingResults"} { return false; }
    var results, expected := Elements(ids), Elements(selected);
    if c.selectedTestCount != |selected| || c.resultCount != |ids| { return false; }
    if Elements(c.missing) != expected - results { return false; }
    if !(results <= expected) { return false; }
    if c.complete && results != expected { return false; }
    ok := !(c.truncated && c.reason in {"completed", "describeOnly", "emptyShard"});
  }

  function InventoryIds(inventory: seq<Entry>): seq<string> {
    seq(|inventory|, (i: nat) requires i < |inventory| => inventory[i].executionId)
  }

  lemma {:induction false} ListedIds(inventory: seq<Entry>, tests: seq<Entry>)
    requires Lists(inventory, tests) && forall e :: e in tests ==> e.executionId == EntryId(e)
    ensures Elements(InventoryIds(inventory)) == EntryIds(tests)
  {
    forall id
      ensures id in InventoryIds(inventory) <==> id in EntryIds(tests)
    {
      if id in InventoryIds(inventory) {
        var i :| 0 <= i < |inventory| && InventoryIds(inventory)[i] == id;
        assert inventory[i] in inventory;
        var t :| t in tests && inventory[i] == Norm(t);
      }
      if id in EntryIds(tests) {
        var t :| t in tests && EntryId(t) == id;
        assert Norm(t) in inventory;
        var i :| 0 <= i < |inventory| && inventory[i] == Norm(t);
        assert InventoryIds(inventory)[i] == id;
      }
    }
  }

  lemma {:induction false} RowIdList(rows: seq<Row>)
    ensures Elements(IdsOf(rows)) == RowIds(rows)
  {
    forall id
      ensures id in IdsOf(rows) <==> id in RowIds(rows)
    {
      if id in RowIds(rows) {
        var r :| r in rows && RowId(r) == id;
        var i :| 0 <= i < |rows| && rows[i] == r;
        assert IdsOf(rows)[i] == id;
      }
      if id in IdsOf(rows) {
        var i :| 0 <= i < |rows| && IdsOf(rows)[i] == id;
        assert rows[i] in rows;
      }
    }
  }

  lemma {:induction false} SameRowIds(a: seq<Row>, b: seq<Row>)
    requires multiset(a) == multiset(b)
    ensures RowIds(a) == RowIds(b)
  {
    SameMembers(a, b);
  }

  /** A merged report is accepted as complete if and only if its rows are the union of all manifests. */
  lemma {:induction false} MergedReportComplete(docs: seq<Shard>, inventory: seq<Entry>, rows: seq<Row>)
    requires docs != [] && Mergeable(docs) && Lists(inventory, AllTests(docs))
    requires rows == InOrder(inventory, FirstRows(AllRows(docs)))
    ensures RowIds(rows) == RowIds(AllRows(docs))
    ensures var completion := Completion("complete", true, false, "completed", |inventory|, |rows|, []);
            CompletionOk(completion, InventoryIds(inventory), IdsOf(rows)) <==> OwnersKnow(docs)
  {
    RowsAreListed(docs, inventory);
    InOrderKeepsRows(inventory, FirstRows(AllRows(docs)));
    SameRowIds(rows, FirstRows(AllRows(docs)));
    FirstRowsIds(AllRows(docs));
    EntriesNamed(docs, |docs|);
    ListedIds(inventory, AllTests(docs));
    RowIdList(rows);
    CoversInventory(docs);
    assert Elements<string>([]) == {};
  }

  /** The condition is needed: here shard 0 knows an execution assigned to shard 1, shard 1 does not.
      All checks on the shards pass, and the execution is missing from the merged report. */
  lemma {:induction false} UnknownToItsOwner() returns (docs: seq<Shard>)
    ensures docs != [] && Mergeable(docs) && !OwnersKnow(docs)
  {
    var id := HexId("test", '1');
    var e := Entry(id, id, "", "a.q", "s", Some(3), "d", 1, false, true, "");
    docs := [Shard(0, 2, "test", "v1", [], [e], []), Shard(1, 2, "test", "v1", [], [], [])];
    OwnerUnaware(docs, e, id);
  }

  lemma {:induction false} OwnerUnaware(docs: seq<Shard>, e: Entry, id: string)
    requires id != "" && e == Entry(id, id, "", "a.q", "s", Some(3), "d", 1, false, true, "")
    requires docs == [Shard(0, 2, "test", "v1", [], [e], []), Shard(1, 2, "test", "v1", [], [], [])]
    ensures Mergeable(docs) && !OwnersKnow(docs)
  {
    var c, d := docs[0], docs[1];
    FlatMapTwo(c, d, TestsOf);
    assert AllTests(docs) == [e];
    assert Indices(docs) == [0, 1];
    assert e in AllTests(docs) && d in docs && EntryIds(d.tests) == {};
    assert Elements<string>([]) == {} && Selected([e]) == {} && Selected([]) == {} && RowIds([]) == {};
    assert Expected(docs) == [{}, {}];
  }

  // ---------------------------------------------------------------- the order of the reports

  lemma {:induction false} DistinctPermutation<T>(a: seq<T>, b: seq<T>)
    requires Distinct(a) && multiset(a) == multiset(b)
    ensures Distinct(b)
  {
    forall i, j | 0 <= i < j < |b|
      ensures b[i] != b[j]
    {
      WithoutMultiset(b, i);
      assert Without(b, i)[j - 1] == b[j];
      assert b[j] in multiset(Without(b, i));
      DistinctCount(a, b[j]);
    }
  }

  /** Topology, without positions. */
  ghost predicate OneShardPerIndex(docs: seq<Shard>) {
    && (forall c, d :: c in docs && d in docs ==> c.unit == d.unit && c.count == d.count && c.algorithm == d.algorithm)
    && (forall d :: d in docs ==> d.count == |docs| && 0 <= d.index < |docs|)
    && Distinct(docs)
    && (forall c, d :: c in docs && d in docs && c != d ==> c.index != d.index)
  }

  lemma {:induction false} TopologyByMembers(docs: seq<Shard>)
    requires docs != []
    ensures TopologyOk(docs) <==> OneShardPerIndex(docs)
  {
    if TopologyOk(docs) {
      forall i, j | 0 <= i < j < |docs|
        ensures docs[i].index != docs[j].index
      {
        assert Indices(docs)[i] == docs[i].index && Indices(docs)[j] == docs[j].index;
      }
      forall c, d | c in docs && d in docs && c.index == d.index
        ensures c == d
      {
        SameIndexSameShard(docs, c, d);
      }
    }
    if OneShardPerIndex(docs) {
      assert docs[0] in docs;
      forall i, j | 0 <= i < j < |docs|
        ensures Indices(docs)[i] != Indices(docs)[j]
      {
        assert docs[i] in docs && docs[j] in docs && docs[i] != docs[j];
      }
    }
  }

  /** Result checks, without positions. */
  ghost predicate RepeatsAllowed(docs: seq<Shard>, unshardable: set<string>) {
    forall c, d :: c in docs && d in docs && c != d ==> MayRepeat(c.rows, d.rows, unshardable)
  }

  lemma {:induction false} ResultsByMembers(docs: seq<Shard>, unshardable: set<string>)
    requires Distinct(docs)
    ensures ResultsOk(docs, Expected(docs), unshardable) <==> OwnReports(docs) && RepeatsAllowed(docs, unshardable)
  {
    if ResultsOk(docs, Expected(docs), unshardable) { MembersFromResults(docs, unshardable); }
    if OwnReports(docs) && RepeatsAllowed(docs, unshardable) { ResultsFromMembers(docs, unshardable); }
  }

  lemma {:induction false} RepeatsBothWays(a: seq<Row>, b: seq<Row>, unshardable: set<string>)
    requires MayRepeat(a, b, unshardable)
    ensures MayRepeat(b, a, unshardable)
  {}

  lemma {:induction false} MembersFromResults(docs: seq<Shard>, unshardable: set<string>)
    requires ResultsOk(docs, Expected(docs), unshardable)
    ensures OwnReports(docs) && RepeatsAllowed(docs, unshardable)
  {
    forall d | d in docs
      ensures ReportsExactly(d.rows, Selected(d.tests))
    {
      var i :| 0 <= i < |docs| && docs[i] == d;
      assert Expected(docs)[i] == Selected(d.tests);
    }
    forall c, d | c in docs && d in docs && c != d
      ensures MayRepeat(c.rows, d.rows, unshardable)
    {
      var i :| 0 <= i < |docs| && docs[i] == c;
      var j :| 0 <= j < |docs| && docs[j] == d;
      if i < j {
        assert MayRepeat(docs[i].rows, docs[j].rows, unshardable);
      } else {
        assert MayRepeat(docs[j].rows, docs[i].rows, unshardable);
        RepeatsBothWays(d.rows, c.rows, unshardable);
      }
    }
  }

  lemma {:induction false} ResultsFromMembers(docs: seq<Shard>, unshardable: set<string>)
    requires Distinct(docs) && OwnReports(docs) && RepeatsAllowed(docs, unshardable)
    ensures ResultsOk(docs, Expected(docs), unshardable)
  {
    forall i | 0 <= i < |docs|
      ensures ReportsExactly(docs[i].rows, Expected(docs)[i])
    {
      assert docs[i] in docs;
    }
    forall i, j | 0 <= i < j < |docs|
      ensures MayRepeat(docs[i].rows, docs[j].rows, unshardable)
    {
      assert docs[i] in docs && docs[j] in docs && docs[i] != docs[j];
    }
  }

  lemma {:induction false} TestsByMembers(a: seq<Shard>, b: seq<Shard>)
    requires forall d :: d in a <==> d in b
    ensures forall e :: e in AllTests(a) <==> e in AllTests(b)
    ensures forall r :: r in AllRows(a) <==> r in AllRows(b)
  {
    forall e
      ensures e in AllTests(a) <==> e in AllTests(b)
    {
      FlatMapMember(a, TestsOf, e);
      FlatMapMember(b, TestsOf, e);
    }
    forall r
      ensures r in AllRows(a) <==> r in AllRows(b)
    {
      FlatMapMember(a, RowsOf, r);
      FlatMapMember(b, RowsOf, r);
    }
  }

  /** Acceptance does not depend on the order in which reports are supplied. */
  lemma {:induction false} AcceptanceIgnoresOrder(a: seq<Shard>, b: seq<Shard>)
    requires a != [] && multiset(a) == multiset(b) && Mergeable(a)
    ensures b != [] && Mergeable(b)
  {
    SameMembers(a, b);
    TopologyByMembers(a);
    DistinctPermutation(a, b);
    TopologyByMembers(b);
    TestsByMembers(a, b);
    SameInventory(a, b);
    assert RunLevel(AllTests(a)) == RunLevel(AllTests(b));
    ResultsByMembers(a, RunLevel(AllTests(a)));
    ResultsByMembers(b, RunLevel(AllTests(b)));
  }

  lemma {:induction false} SameInventory(a: seq<Shard>, b: seq<Shard>)
    requires |a| == |b| && InventoryOk(a, |a|)
    requires forall d :: d in a <==> d in b
    requires forall e :: e in AllTests(a) <==> e in AllTests(b)
    ensures InventoryOk(b, |b|)
  {
    if AllTests(b) == [] && AllTests(a) != [] {
      assert AllTests(a)[0] in AllTests(a);
    }
  }

  /** Neither does the merged inventory, nor the order of the merged rows. */
  lemma {:induction false} OrderLeavesNoTrace(
      a: seq<Shard>, b: seq<Shard>, inventory: seq<Entry>, other: seq<Entry>)
    requires a != [] && multiset(a) == multiset(b) && Mergeable(a)
    requires Lists(inventory, AllTests(a)) && Lists(other, AllTests(b))
    ensures inventory == other
    ensures IdsOf(InOrder(inventory, FirstRows(AllRows(a)))) == IdsOf(InOrder(other, FirstRows(AllRows(b))))
  {
    SameMembers(a, b);
    TestsByMembers(a, b);
    OneInventory(inventory, other, AllTests(a), AllTests(b));
    FirstRowsDistinct(AllRows(a));
    FirstRowsDistinct(AllRows(b));
    FirstRowsIds(AllRows(a));
    FirstRowsIds(AllRows(b));
    assert RowIds(AllRows(a)) == RowIds(AllRows(b));
    IdsInOrder(inventory, FirstRows(AllRows(a)));
    IdsInOrder(other, FirstRows(AllRows(b)));
  }
}
