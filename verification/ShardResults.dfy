/** The results of a merge: every shard reports exactly what it selected, and only
    run-level executions may be reported by several shards. */
module ShardResults {
  import opened Seqs
  import opened Shards

  function AllRows(docs: seq<Shard>): seq<Row> { FlatMap(docs, RowsOf) }

  ghost predicate DistinctRows(rs: seq<Row>) {
    forall i, j :: 0 <= i < j < |rs| ==> RowId(rs[i]) != RowId(rs[j])
  }

  /** Everything two copies of a run-level result must share. */
  predicate SameEvidence(a: Row, b: Row) {
    a.evidence == b.evidence && a.testId == b.testId && a.caseId == b.caseId
  }

  /** A result that was already reported may be reported again only for a run-level execution, and alike. */
  ghost predicate MayRepeat(before: seq<Row>, rows: seq<Row>, unshardable: set<string>) {
    forall a, b :: a in before && b in rows && RowId(a) == RowId(b) ==> RowId(b) in unshardable && SameEvidence(a, b)
  }

  ghost predicate ReportsExactly(rows: seq<Row>, expected: set<string>) {
    DistinctRows(rows) && RowIds(rows) == expected
  }

  ghost predicate ResultsOk(docs: seq<Shard>, expected: seq<set<string>>, unshardable: set<string>)
    requires |docs| == |expected|
  {
    && (forall i :: 0 <= i < |docs| ==> ReportsExactly(docs[i].rows, expected[i]))
    && (forall i, j :: 0 <= i < j < |docs| ==> MayRepeat(docs[i].rows, docs[j].rows, unshardable))
  }

  /** Insertion-ordered `setdefault`: the first result of every identity, in the order met. */
  function FirstRows(rs: seq<Row>): seq<Row> {
    if rs == [] then []
    else
      var init, last := FirstRows(rs[..|rs| - 1]), rs[|rs| - 1];
      if RowId(last) in RowIds(init) then init else init + [last]
  }

  lemma {:induction false} IdsSnoc(rs: seq<Row>, r: Row)
    ensures RowIds(rs + [r]) == RowIds(rs) + {RowId(r)}
  {}

  lemma {:induction false} FirstRowsIds(rs: seq<Row>)
    ensures RowIds(FirstRows(rs)) == RowIds(rs)
  {
    if rs != [] {
      var init, last := rs[..|rs| - 1], rs[|rs| - 1];
      FirstRowsIds(init);
      assert rs == init + [last];
      IdsSnoc(init, last);
      IdsSnoc(FirstRows(init), last);
    }
  }

  lemma {:induction false} FirstRowsSnoc(rs: seq<Row>, r: Row)
    ensures FirstRows(rs + [r]) == if RowId(r) in RowIds(rs) then FirstRows(rs) else FirstRows(rs) + [r]
  {
    FirstRowsIds(rs);
    assert (rs + [r])[..|rs|] == rs;
  }

  lemma {:induction false} FirstRowsDistinct(rs: seq<Row>)
    ensures DistinctRows(FirstRows(rs))
    ensures forall r :: r in FirstRows(rs) ==> r in rs
  {
    if rs != [] {
      var init, last := FirstRows(rs[..|rs| - 1]), rs[|rs| - 1];
      FirstRowsDistinct(rs[..|rs| - 1]);
      assert rs == rs[..|rs| - 1] + [last];
      if RowId(last) !in RowIds(init) { NextRow(init, last); }
    }
  }

  lemma {:induction false} NextRow(done: seq<Row>, r: Row)
    requires DistinctRows(done) && RowId(r) !in RowIds(done)
    ensures DistinctRows(done + [r])
  {
    forall i, j | 0 <= i < j < |done| + 1
      ensures RowId((done + [r])[i]) != RowId((done + [r])[j])
    {
      assert done[i] in done;
    }
  }

  // ---------------------------------------------------------------- the procedure

  /** The dictionary `union` after the rows `seen`. */
  ghost predicate Indexed(union: map<string, Row>, seen: seq<Row>) {
    && union.Keys == RowIds(seen)
    && (forall id :: id in union ==> union[id] in seen && RowId(union[id]) == id)
    && (forall r :: r in seen ==> RowId(r) in union && SameEvidence(r, union[RowId(r)]))
  }

  /** ... and `values` lists its values in insertion order. */
  ghost predicate Collected(union: map<string, Row>, values: seq<Row>, seen: seq<Row>) {
    Indexed(union, seen) && values == FirstRows(seen)
  }

  lemma {:induction false} IndexKnown(union: map<string, Row>, seen: seq<Row>, r: Row)
    requires Indexed(union, seen) && RowId(r) in union && SameEvidence(r, union[RowId(r)])
    ensures Indexed(union, seen + [r])
  {
    IdsSnoc(seen, r);
  }

  lemma {:induction false} IndexNew(union: map<string, Row>, seen: seq<Row>, r: Row)
    requires Indexed(union, seen) && RowId(r) !in union
    ensures Indexed(union[RowId(r) := r], seen + [r])
  {
    IdsSnoc(seen, r);
    var next := union[RowId(r) := r];
    forall s | s in seen + [r]
      ensures RowId(s) in next && SameEvidence(s, next[RowId(s)])
    {
      if s in seen { assert RowId(s) in union; }
    }
  }

  method Collect(union: map<string, Row>, values: seq<Row>, id: string, row: Row, ghost seen: seq<Row>)
    returns (next: map<string, Row>, listed: seq<Row>)
    requires Collected(union, values, seen) && id == RowId(row)
    requires RowId(row) in union ==> SameEvidence(row, union[RowId(row)])
    ensures Collected(next, listed, seen + [row])
  {
    FirstRowsSnoc(seen, row);
    if id in union {
      IndexKnown(union, seen, row);
      next, listed := union, values;
    } else {
      IndexNew(union, seen, row);
      next, listed := union[id := row], values + [row];
    }
  }

  /** The dictionaries of the loop after `before` and the rows `done` of the current shard. */
  ghost predicate Scanned(
      local: set<string>, union: map<string, Row>, values: seq<Row>,
      before: seq<Row>, done: seq<Row>, unshardable: set<string>)
  {
    && local == RowIds(done)
    && Collected(union, values, before + done)
    && DistinctRows(done)
    && MayRepeat(before, done, unshardable)
  }

  lemma {:induction false} ScannedNext(
      local: set<string>, union: map<string, Row>, values: seq<Row>,
      before: seq<Row>, done: seq<Row>, row: Row, unshardable: set<string>,
      next: map<string, Row>, listed: seq<Row>)
    requires Scanned(local, union, values, before, done, unshardable)
    requires RowId(row) !in local
    requires RowId(row) in union ==> RowId(row) in unshardable && SameEvidence(union[RowId(row)], row)
    requires Collected(next, listed, before + done + [row])
    ensures Scanned(local + {RowId(row)}, next, listed, before, done + [row], unshardable)
  {
    Associate(before, done, row);
    NextRow(done, row);
    IdsSnoc(done, row);
    NextRepeat(union, before, done, row, unshardable);
  }

  /** The dictionaries after one more row of the shard. */
  method CheckRow(
      local: set<string>, union: map<string, Row>, values: seq<Row>,
      ghost before: seq<Row>, rows: seq<Row>, i: nat, unshardable: set<string>)
    returns (r: Result<(set<string>, map<string, Row>, seq<Row>)>)
    requires i < |rows| && Scanned(local, union, values, before, rows[..i], unshardable)
    ensures r.Err? ==> !DistinctRows(rows) || !MayRepeat(before, rows, unshardable)
    ensures r.Ok? ==> Scanned(r.value.0, r.value.1, r.value.2, before, rows[..i + 1], unshardable)
  {
    var row := rows[i];
    var id := row.caseId;
    if id == "" { id := row.testId; }
    if id == "" { id := row.executionId; }
    if id in local {
      RepeatedRow(rows, i);
      return Err("duplicate result");
    }
    if id in union {
      NoRepeat(union, before, rows, i, unshardable);
      if id !in unshardable {
        return Err("result appears in more than one shard");
      }
      if union[id].evidence != row.evidence || union[id].testId != row.testId || union[id].caseId != row.caseId {
        return Err("run-level result differs across shards");
      }
    }
    var next, listed := Collect(union, values, id, row, before + rows[..i]);
    ScannedNext(local, union, values, before, rows[..i], row, unshardable, next, listed);
    TakeNext(rows, i);
    r := Ok((local + {id}, next, listed));
  }

  /** The results of one shard, after those of the shards before it. */
  method CheckResults(
      rows: seq<Row>, expected: set<string>, unshardable: set<string>,
      known: map<string, Row>, first: seq<Row>, ghost before: seq<Row>)
    returns (r: Result<(map<string, Row>, seq<Row>)>)
    requires Collected(known, first, before)
    ensures r.Ok? <==> ReportsExactly(rows, expected) && MayRepeat(before, rows, unshardable)
    ensures r.Ok? ==> Collected(r.value.0, r.value.1, before + rows)
  {
    var union, values := known, first;
    var local: set<string> := {};
    assert before + rows[..0] == before;
    for i := 0 to |rows|
      invariant Scanned(local, union, values, before, rows[..i], unshardable)
    {
      var step := CheckRow(local, union, values, before, rows, i, unshardable);
      if step.Err? {
        return Err(step.error);
      }
      local, union, values := step.value.0, step.value.1, step.value.2;
    }
    assert rows[..|rows|] == rows;
    if local != expected {
      return Err("incomplete result set");
    }
    r := Ok((union, values));
  }

  lemma {:induction false} RepeatedRow(rs: seq<Row>, i: nat)
    requires i < |rs| && RowId(rs[i]) in RowIds(rs[..i])
    ensures !DistinctRows(rs)
  {
    var r :| r in rs[..i] && RowId(r) == RowId(rs[i]);
    var j :| 0 <= j < i && rs[j] == r;
  }

  lemma {:induction false} NoRepeat(
      union: map<string, Row>, before: seq<Row>, rows: seq<Row>, i: nat, unshardable: set<string>)
    requires i < |rows| && Indexed(union, before + rows[..i]) && RowId(rows[i]) !in RowIds(rows[..i])
    requires RowId(rows[i]) in union
    ensures MayRepeat(before, rows, unshardable) ==>
              RowId(rows[i]) in unshardable && SameEvidence(union[RowId(rows[i])], rows[i])
  {
    var a := union[RowId(rows[i])];
    assert a in before;
    assert rows[i] in rows;
  }

  lemma {:induction false} NextRepeat(
      union: map<string, Row>, before: seq<Row>, done: seq<Row>, row: Row, unshardable: set<string>)
    requires Indexed(union, before + done) && MayRepeat(before, done, unshardable)
    requires RowId(row) in union ==> RowId(row) in unshardable && SameEvidence(union[RowId(row)], row)
    ensures MayRepeat(before, done + [row], unshardable)
  {
    forall a, b | a in before && b in done + [row] && RowId(a) == RowId(b)
      ensures RowId(b) in unshardable && SameEvidence(a, b)
    {
      if b !in done {
        assert a in before + done;
      }
    }
  }

  /** `validate_results`: accepted exactly when every shard reports its selection and repeats are
      run-level copies; then the first copy of every result. */
  method ValidateResults(docs: seq<Shard>, expected: seq<set<string>>, unshardable: set<string>)
    returns (r: Result<seq<Row>>)
    requires |docs| == |expected|
    ensures r.Ok? <==> ResultsOk(docs, expected, unshardable)
    ensures r.Ok? ==> r.value == FirstRows(AllRows(docs))
  {
    var union: map<string, Row> := map[];
    var values: seq<Row> := [];
    for i := 0 to |docs|
      invariant Collected(union, values, AllRows(docs[..i]))
      invariant ResultsOk(docs[..i], expected[..i], unshardable)
    {
      FlatMapNext(docs, RowsOf, i);
      ResultsStep(docs, expected, i, unshardable);
      var step := CheckResults(docs[i].rows, expected[i], unshardable, union, values, AllRows(docs[..i]));
      if step.Err? {
        return Err(step.error);
      }
      union, values := step.value.0, step.value.1;
    }
    assert docs[..|docs|] == docs && expected[..|docs|] == expected;
    r := Ok(values);
  }

  lemma {:induction false} ResultsStep(docs: seq<Shard>, expected: seq<set<string>>, i: nat, unshardable: set<string>)
    requires |docs| == |expected| && i < |docs|
    ensures ResultsOk(docs[..i + 1], expected[..i + 1], unshardable) <==>
            && ResultsOk(docs[..i], expected[..i], unshardable)
            && ReportsExactly(docs[i].rows, expected[i])
            && MayRepeat(AllRows(docs[..i]), docs[i].rows, unshardable)
    ensures ResultsOk(docs, expected, unshardable) ==> ResultsOk(docs[..i + 1], expected[..i + 1], unshardable)
  {
    RepeatsOfPrefix(docs, i, unshardable);
    var d, e := docs[..i + 1], expected[..i + 1];
    assert d[..i] == docs[..i] && e[..i] == expected[..i] && d[i] == docs[i] && e[i] == expected[i];
    ResultsSnoc(d, e, i, unshardable);
  }

  lemma {:induction false} ResultsSnoc(docs: seq<Shard>, expected: seq<set<string>>, i: nat, unshardable: set<string>)
    requires |docs| == |expected| == i + 1
    ensures ResultsOk(docs, expected, unshardable) <==>
            && ResultsOk(docs[..i], expected[..i], unshardable)
            && ReportsExactly(docs[i].rows, expected[i])
            && forall j :: 0 <= j < i ==> MayRepeat(docs[j].rows, docs[i].rows, unshardable)
  {
    if ResultsOk(docs[..i], expected[..i], unshardable) && ReportsExactly(docs[i].rows, expected[i]) {
      forall k | 0 <= k < i + 1
        ensures ReportsExactly(docs[k].rows, expected[k])
      {
        if k < i { assert docs[..i][k] == docs[k] && expected[..i][k] == expected[k]; }
      }
      forall j, k | 0 <= j < k < i + 1 && (k == i ==> MayRepeat(docs[j].rows, docs[i].rows, unshardable))
        ensures MayRepeat(docs[j].rows, docs[k].rows, unshardable)
      {
        if k < i { assert docs[..i][k] == docs[k] && docs[..i][j] == docs[j]; }
      }
    }
  }

  lemma {:induction false} RepeatsOfPrefix(docs: seq<Shard>, i: nat, unshardable: set<string>)
    requires i < |docs|
    ensures MayRepeat(AllRows(docs[..i]), docs[i].rows, unshardable) <==>
            forall j :: 0 <= j < i ==> MayRepeat(docs[j].rows, docs[i].rows, unshardable)
  {
    forall a
      ensures a in AllRows(docs[..i]) <==> exists j :: 0 <= j < i && a in docs[j].rows
    {
      FlatMapMember(docs[..i], RowsOf, a);
      if j :| 0 <= j < i && a in docs[j].rows {
        assert docs[..i][j] in docs[..i] && a in RowsOf(docs[..i][j]);
      }
    }
  }
}
