/** Shard reports as the strict merger reads them, and the check of their topology. */
module Shards {
  import opened Orders
  import opened Seqs

  /** One execution of a shard's manifest; `rest` is the remaining metadata as canonical text. */
  datatype Entry = Entry(
    executionId: string, testId: string, caseId: string,
    file: string, suite: string, line: Option<int>, description: string,
    assignedShard: int, selected: bool, shardable: bool, rest: string)

  /** One result; `evidence` is the canonical text of the fields compared between run-level copies. */
  datatype Row = Row(testId: string, caseId: string, executionId: string, evidence: string, rest: string)

  datatype Shard = Shard(
    index: int, count: int, unit: string, algorithm: string,
    declared: seq<string>, tests: seq<Entry>, rows: seq<Row>)

  /** `execution_id`: the first of caseId, testId, executionId that is not empty. */
  function FirstId(caseId: string, testId: string, executionId: string): string {
    if caseId != "" then caseId else if testId != "" then testId else executionId
  }

  function EntryId(e: Entry): string { FirstId(e.caseId, e.testId, e.executionId) }

  function RowId(r: Row): string { FirstId(r.caseId, r.testId, r.executionId) }

  /** `normalize_inventory`: what the shards must agree on. */
  function Norm(e: Entry): Entry { e.(selected := true) }

  function TestsOf(d: Shard): seq<Entry> { d.tests }

  function RowsOf(d: Shard): seq<Row> { d.rows }

  function AllTests(docs: seq<Shard>): seq<Entry> { FlatMap(docs, TestsOf) }

  function EntryIds(es: seq<Entry>): set<string> { set e | e in es :: EntryId(e) }

  function RowIds(rs: seq<Row>): set<string> { set r | r in rs :: RowId(r) }

  // ---------------------------------------------------------------- topology

  function Range(n: nat): seq<int> { seq(n, (i: nat) => i) }

  function Indices(docs: seq<Shard>): seq<int> {
    seq(|docs|, (i: nat) requires i < |docs| => docs[i].index)
  }

  predicate SameSettings(docs: seq<Shard>)
    requires docs != []
  {
    forall i :: 0 <= i < |docs| ==>
      docs[i].unit == docs[0].unit && docs[i].count == docs[0].count && docs[i].algorithm == docs[0].algorithm
  }

  /** One shard for every index. */
  ghost predicate TopologyOk(docs: seq<Shard>)
    requires docs != []
  {
    && SameSettings(docs)
    && |docs| == docs[0].count
    && (forall i :: 0 <= i < |docs| ==> 0 <= docs[i].index < |docs|)
    && Distinct(Indices(docs))
  }

  /** `[shard["index"] for shard in shards]` */
  method CollectIndices(docs: seq<Shard>) returns (indices: seq<int>)
    ensures indices == Indices(docs)
  {
    indices := [];
    for i := 0 to |docs|
      invariant indices == Indices(docs)[..i]
    {
      indices := indices + [docs[i].index];
    }
  }

  method Topology(docs: seq<Shard>) returns (r: Result<nat>)
    requires docs != []
    ensures r.Ok? <==> TopologyOk(docs)
    ensures r.Ok? ==> r.value == |docs|
  {
    if exists i :: 0 <= i < |docs| && (docs[i].unit != docs[0].unit
        || docs[i].count != docs[0].count || docs[i].algorithm != docs[0].algorithm) {
      return Err("mixed shard settings across shards");
    }
    var indices := CollectIndices(docs);
    var seen: set<int> := {};
    for i := 0 to |indices|
      invariant forall k :: k in seen <==> k in indices[..i]
      invariant forall j, k :: 0 <= j < k < i ==> indices[j] != indices[k]
    {
      if indices[i] in seen { return Err("duplicate shard index"); }
      seen := seen + {indices[i]};
    }
    var count := docs[0].count;
    // sorted(indices) == list(range(count))
    if count < 0 || multiset(indices) != multiset(Range(count)) {
      if |docs| == count && (forall i :: 0 <= i < |docs| ==> 0 <= docs[i].index < |docs|) {
        PermutationFromTopology(docs);
      }
      return Err("incomplete shard union");
    }
    TopologyFromPermutation(docs, count);
    r := Ok(count);
  }

  lemma {:induction false} RangeDistinct(n: nat)
    ensures Distinct(Range(n))
    ensures forall x :: x in Range(n) <==> 0 <= x < n
  {
    forall x: int | 0 <= x < n
      ensures x in Range(n)
    {
      assert Range(n)[x] == x;
    }
  }

  lemma {:induction false} PermutationFromTopology(docs: seq<Shard>)
    requires docs != [] && TopologyOk(docs)
    ensures multiset(Indices(docs)) == multiset(Range(|docs|))
  {
    var indices := Indices(docs);
    RangeDistinct(|docs|);
    forall x: int | 0 <= x < |docs|
      ensures x in indices
    {
      if x !in indices { Pigeonhole(indices, |docs|, x); }
    }
    DistinctSameElements(indices, Range(|docs|));
  }

  /** `n` distinct numbers below `n` leave none out. */
  lemma {:induction false} Pigeonhole(s: seq<int>, n: nat, x: int)
    requires |s| == n && Distinct(s) && 0 <= x < n
    requires forall i :: 0 <= i < n ==> 0 <= s[i] < n
    ensures x in s
  {
    var all := Elements(Range(n));
    RangeDistinct(n);
    DistinctSize(s);
    DistinctSize(Range(n));
    assert Elements(s) <= all;
    if x !in s {
      assert Elements(s) <= all - {x};
      SubsetAtMost(Elements(s), all - {x});
    }
  }

  lemma {:induction false} TopologyFromPermutation(docs: seq<Shard>, count: nat)
    requires docs != [] && SameSettings(docs) && count == docs[0].count
    requires multiset(Indices(docs)) == multiset(Range(count))
    requires Distinct(Indices(docs))
    ensures TopologyOk(docs) && count == |docs|
  {
    var indices := Indices(docs);
    SameMembers(indices, Range(count));
    RangeDistinct(count);
    forall i | 0 <= i < |docs|
      ensures 0 <= docs[i].index < count
    {
      assert indices[i] in indices;
    }
  }
}
