/** Per-test coverage attribution: merging context measurements and the checker they must meet. */
module Contexts {
  import opened Seqs
  import opened Text
  import opened Records
  import opened Recompute

  datatype ContextKind = TestContext | AttemptContext | Unattributed | Overflow

  datatype Detail = TestDetail | AttemptDetail

  /** `about` is the remaining metadata of the context, as canonical text. */
  datatype Context = Context(contextId: string, kind: ContextKind, attempt: nat, about: string, metrics: seq<Rec>)

  datatype Totals = Totals(
    contextsStored: nat, metricEntriesStored: nat,
    functionHits: nat, statementHits: nat, branchHits: nat, unattributedHits: nat,
    overflowActivations: nat, droppedMetricHits: nat, truncated: bool)

  datatype Header = Header(schemaVersion: nat, enabled: bool, detail: Detail, contextLimit: nat, entryLimit: nat)

  datatype Measurement = Measurement(header: Header, contexts: seq<Context>, totals: Totals)

  // ---------------------------------------------------------------- totals

  function ContextsOf(m: Measurement): seq<Context> { m.contexts }

  function MetricsOf(c: Context): seq<Rec> { c.metrics }

  function AllContexts(ms: seq<Measurement>): seq<Context> { FlatMap(ms, ContextsOf) }

  function AllMetrics(cs: seq<Context>): seq<Rec> { FlatMap(cs, MetricsOf) }

  /** The hits of a metric if it is of that kind. */
  function HitsIf(kind: MetricKind): Rec -> nat {
    (r: Rec) => if r.meta.MetricMeta? && r.meta.metricKind == kind then Hits(r) else 0
  }

  function UnattributedIf(r: Rec): nat {
    if r.meta.MetricMeta? && r.meta.contextId == "unattributed" then Hits(r) else 0
  }

  function SumOverflow(ms: seq<Measurement>): nat {
    if ms == [] then 0 else ms[0].totals.overflowActivations + SumOverflow(ms[1..])
  }

  function SumDropped(ms: seq<Measurement>): nat {
    if ms == [] then 0 else ms[0].totals.droppedMetricHits + SumDropped(ms[1..])
  }

  predicate AnyTruncated(ms: seq<Measurement>) {
    exists m :: m in ms && m.totals.truncated
  }

  function TotalsOf(rows: seq<Context>, ms: seq<Measurement>): Totals {
    var metrics := AllMetrics(rows);
    Totals(|rows|, |metrics|,
           Sum(metrics, HitsIf(FunctionMetric)), Sum(metrics, HitsIf(StatementMetric)), Sum(metrics, HitsIf(BranchMetric)),
           Sum(metrics, UnattributedIf),
           SumOverflow(ms), SumDropped(ms), AnyTruncated(ms))
  }

  // ---------------------------------------------------------------- what the merge means

  function WithId(id: string): Context -> seq<Context> { (c: Context) => if c.contextId == id then [c] else [] }

  function Same(cs: seq<Context>, id: string): seq<Context> { FlatMap(cs, WithId(id)) }

  function Ids(cs: seq<Context>): set<string> { set c | c in cs :: c.contextId }

  /** A context together with nothing but the metadata that shards must agree on. */
  function About(c: Context): Context { c.(metrics := []) }

  /** One context: the common metadata, all metrics of all shards in one merge. */
  function MergedContext(cs: seq<Context>, id: string): Context
    requires Same(cs, id) != []
  {
    Same(cs, id)[0].(metrics := Merged(AllMetrics(Same(cs, id)), LeafKind))
  }

  lemma {:induction false} SameMember(cs: seq<Context>, id: string, c: Context)
    ensures c in Same(cs, id) <==> c in cs && c.contextId == id
  {
    FlatMapMember(cs, WithId(id), c);
    if c in cs && c.contextId == id { assert c in WithId(id)(c); }
  }

  lemma {:induction false} SameNonEmpty(cs: seq<Context>, id: string)
    ensures id in Ids(cs) <==> Same(cs, id) != []
  {
    if id in Ids(cs) {
      var c :| c in cs && c.contextId == id;
      SameMember(cs, id, c);
    }
    if Same(cs, id) != [] { SameMember(cs, id, Same(cs, id)[0]); }
  }

  function MergedContexts(cs: seq<Context>): (rows: seq<Context>)
    ensures |rows| == |SortedNames(Ids(cs))|
  {
    var ids := SortedNames(Ids(cs));
    seq(|ids|, (i: nat) requires i < |ids| => assert ids[i] in ids; SameNonEmpty(cs, ids[i]); MergedContext(cs, ids[i]))
  }

  ghost predicate ContextAccepted(cs: seq<Context>, id: string) {
    && (forall c :: c in Same(cs, id) ==> About(c) == About(Same(cs, id)[0]))
    && Consistent(AllMetrics(Same(cs, id)), LeafKind)
  }

  ghost predicate Accepted(ms: seq<Measurement>)
    requires ms != []
  {
    && (forall m :: m in ms ==> m.header == ms[0].header)
    && (forall id :: id in Ids(AllContexts(ms)) ==> ContextAccepted(AllContexts(ms), id))
  }

  // ---------------------------------------------------------------- the procedure

  /** The dictionary after the contexts `cs`: every identity with its metrics merged so far. */
  ghost predicate Table(table: map<string, Context>, cs: seq<Context>) {
    && table.Keys == Ids(cs)
    && forall id :: id in table ==> Entry(cs, id, table[id])
  }

  ghost predicate Entry(cs: seq<Context>, id: string, entry: Context) {
    Same(cs, id) != [] && ContextAccepted(cs, id) && entry == MergedContext(cs, id)
  }

  /** `merge_contexts`: the incremental merge, context by context, accepts and yields exactly what
      one merge of all metrics per context would. */
  method MergeContexts(ms: seq<Measurement>) returns (r: Result<Measurement>)
    requires ms != []
    ensures r.Ok? <==> Accepted(ms)
    ensures r.Ok? ==>
              var rows := MergedContexts(AllContexts(ms));
              r.value == Measurement(ms[0].header, rows, TotalsOf(rows, ms))
  {
    if exists m :: m in ms && m.header != ms[0].header {
      return Err("coverage context settings differ across shards");
    }
    var table: map<string, Context> := map[];
    ghost var all := AllContexts(ms);
    for i := 0 to |ms|
      invariant Table(table, AllContexts(ms[..i]))
    {
      var next := MergeShard(table, ms, i);
      if next.Err? {
        return Err(next.error);
      }
      table := next.value;
      FlatMapNext(ms, ContextsOf, i);
    }
    assert ms[..|ms|] == ms;
    var rows := RowsInOrder(table);
    RowsListed(table, all);
    assert rows == MergedContexts(all);
    var totals := CollectTotals(rows, ms);
    r := Ok(Measurement(ms[0].header, rows, totals));
  }

  /** The counters of the merged measurement. */
  method CollectTotals(rows: seq<Context>, ms: seq<Measurement>) returns (t: Totals)
    ensures t == TotalsOf(rows, ms)
  {
    var metrics: seq<Rec> := [];
    for i := 0 to |rows|
      invariant metrics == AllMetrics(rows[..i])
    {
      FlatMapNext(rows, MetricsOf, i);
      metrics := metrics + rows[i].metrics;
    }
    assert rows[..|rows|] == rows;
    var functionHits, statementHits, branchHits, unattributed := SumMetrics(metrics);
    var overflow, dropped, truncated := SumLosses(ms);
    t := Totals(|rows|, |metrics|, functionHits, statementHits, branchHits, unattributed, overflow, dropped, truncated);
  }

  method SumMetrics(metrics: seq<Rec>)
    returns (functionHits: nat, statementHits: nat, branchHits: nat, unattributed: nat)
    ensures functionHits == Sum(metrics, HitsIf(FunctionMetric)) && statementHits == Sum(metrics, HitsIf(StatementMetric))
    ensures branchHits == Sum(metrics, HitsIf(BranchMetric)) && unattributed == Sum(metrics, UnattributedIf)
  {
    functionHits, statementHits, branchHits, unattributed := 0, 0, 0, 0;
    for i := 0 to |metrics|
      invariant functionHits == Sum(metrics[..i], HitsIf(FunctionMetric))
      invariant statementHits == Sum(metrics[..i], HitsIf(StatementMetric))
      invariant branchHits == Sum(metrics[..i], HitsIf(BranchMetric))
      invariant unattributed == Sum(metrics[..i], UnattributedIf)
    {
      SumNext(metrics, i, HitsIf(FunctionMetric));
      SumNext(metrics, i, HitsIf(StatementMetric));
      SumNext(metrics, i, HitsIf(BranchMetric));
      SumNext(metrics, i, UnattributedIf);
      var m := metrics[i].meta;
      var hits := if metrics[i].hits.Some? then metrics[i].hits.value else 0;
      if m.MetricMeta? {
        match m.metricKind
        case FunctionMetric => functionHits := functionHits + hits;
        case StatementMetric => statementHits := statementHits + hits;
        case BranchMetric => branchHits := branchHits + hits;
      }
      if m.MetricMeta? && m.contextId == "unattributed" { unattributed := unattributed + hits; }
    }
    assert metrics[..|metrics|] == metrics;
  }

  method SumLosses(ms: seq<Measurement>) returns (overflow: nat, dropped: nat, truncated: bool)
    ensures overflow == SumOverflow(ms) && dropped == SumDropped(ms) && truncated == AnyTruncated(ms)
  {
    overflow, dropped, truncated := 0, 0, false;
    for i := 0 to |ms|
      invariant overflow == SumOverflow(ms[..i]) && dropped == SumDropped(ms[..i]) && truncated == AnyTruncated(ms[..i])
    {
      TakeNext(ms, i);
      LossesSnoc(ms[..i], ms[i]);
      overflow := overflow + ms[i].totals.overflowActivations;
      dropped := dropped + ms[i].totals.droppedMetricHits;
      truncated := truncated || ms[i].totals.truncated;
    }
    assert ms[..|ms|] == ms;
  }

  lemma {:induction false} LossesSnoc(ms: seq<Measurement>, m: Measurement)
    ensures SumOverflow(ms + [m]) == SumOverflow(ms) + m.totals.overflowActivations
    ensures SumDropped(ms + [m]) == SumDropped(ms) + m.totals.droppedMetricHits
    ensures AnyTruncated(ms + [m]) <==> AnyTruncated(ms) || m.totals.truncated
  {
    assert m in ms + [m] && forall x :: x in ms + [m] <==> x in ms || x == m;
    if ms != [] {
      LossesSnoc(ms[1..], m);
      assert (ms + [m])[1..] == ms[1..] + [m];
    } else {
      assert ms + [m] == [m] && [m][1..] == [];
    }
  }

  /** The inner loop: the contexts of one shard. */
  method MergeShard(before: map<string, Context>, ms: seq<Measurement>, i: nat) returns (r: Result<map<string, Context>>)
    requires i < |ms| && Table(before, AllContexts(ms[..i]))
    ensures r.Err? ==> exists id :: id in Ids(AllContexts(ms)) && !ContextAccepted(AllContexts(ms), id)
    ensures r.Ok? ==> Table(r.value, AllContexts(ms[..i]) + ms[i].contexts)
  {
    var contexts := ms[i].contexts;
    var table := before;
    ghost var done := AllContexts(ms[..i]);
    assert done + contexts[..0] == done;
    for j := 0 to |contexts|
      invariant Table(table, done + contexts[..j])
    {
      ghost var rest := FlatMapSplit(ms, ContextsOf, i, j);
      var next := AddContext(table, contexts[j], done + contexts[..j]);
      if next.Err? {
        RejectedContext(done + contexts[..j], contexts[j], rest);
        assert AllContexts(ms) == done + contexts[..j] + [contexts[j]] + rest;
        assert !ContextAccepted(AllContexts(ms), contexts[j].contextId);
        return Err(next.error);
      }
      table := next.value;
      TakeNext(contexts, j);
      Associate(done, contexts[..j], contexts[j]);
    }
    assert contexts[..|contexts|] == contexts;
    r := Ok(table);
  }

  /** The body of the inner loop. */
  method AddContext(table: map<string, Context>, context: Context, ghost seen: seq<Context>)
    returns (r: Result<map<string, Context>>)
    requires Table(table, seen)
    ensures r.Ok? <==> ContextAccepted(seen + [context], context.contextId)
    ensures r.Ok? ==> Table(r.value, seen + [context])
  {
    var id := context.contextId;
    if id in table && About(context) != About(table[id]) {
      DifferentMetadata(seen, context);
      return Err("coverage context metadata differs");
    }
    var metrics := (if id in table then table[id].metrics else []) + context.metrics;
    var merged := MergeRecords(metrics, LeafKind);
    OneMoreContext(table, seen, context);
    if merged.Err? {
      return Err(merged.error);
    }
    r := Ok(table[id := context.(metrics := merged.value)]);
    assert id in r.value;
  }

  /** `[contexts[key] for key in sorted(contexts)]`. */
  method RowsInOrder(table: map<string, Context>) returns (rows: seq<Context>)
    ensures var ids := SortedNames(table.Keys);
            |rows| == |ids| && forall k :: 0 <= k < |ids| ==> ids[k] in table && rows[k] == table[ids[k]]
  {
    var ids := SortedNames(table.Keys);
    rows := [];
    for k := 0 to |ids|
      invariant |rows| == k && forall j :: 0 <= j < k ==> ids[j] in table && rows[j] == table[ids[j]]
    {
      assert ids[k] in ids;
      rows := rows + [table[ids[k]]];
    }
  }

  lemma {:induction false} RowsListed(table: map<string, Context>, cs: seq<Context>)
    requires Table(table, cs)
    ensures var ids := SortedNames(table.Keys);
            forall k :: 0 <= k < |ids| ==> ids[k] in table && table[ids[k]] == MergedContexts(cs)[k]
  {
    var ids := SortedNames(table.Keys);
    forall k | 0 <= k < |ids|
      ensures ids[k] in table && table[ids[k]] == MergedContexts(cs)[k]
    {
      assert ids[k] in ids;
    }
  }

  lemma {:induction false} SameSnoc(cs: seq<Context>, c: Context, id: string)
    ensures c.contextId == id ==> Same(cs + [c], id) == Same(cs, id) + [c]
    ensures c.contextId != id ==> Same(cs + [c], id) == Same(cs, id)
  {
    FlatMapSnoc(cs, c, WithId(id));
  }

  lemma {:induction false} MetricsSnoc(cs: seq<Context>, c: Context)
    ensures AllMetrics(cs + [c]) == AllMetrics(cs) + c.metrics
  {
    FlatMapSnoc(cs, c, MetricsOf);
  }

  lemma {:induction false} DifferentMetadata(seen: seq<Context>, c: Context)
    requires var same := Same(seen, c.contextId); same != [] && About(c) != About(same[0])
    ensures !ContextAccepted(seen + [c], c.contextId)
  {
    SameSnoc(seen, c, c.contextId);
    assert c in Same(seen + [c], c.contextId);
  }

  /** What is rejected stays rejected, whatever follows. */
  lemma {:induction false} RejectedContext(seen: seq<Context>, c: Context, rest: seq<Context>)
    requires !ContextAccepted(seen + [c], c.contextId)
    ensures c.contextId in Ids(seen + [c] + rest) && !ContextAccepted(seen + [c] + rest, c.contextId)
  {
    var id := c.contextId;
    var x, y := Same(seen + [c], id), Same(rest, id);
    assert c in seen + [c] + rest;
    FlatMapAppend(seen + [c], rest, WithId(id));
    FlatMapAppend(x, y, MetricsOf);
    SameSnoc(seen, c, id);
    assert Same(seen + [c] + rest, id) == x + y;
    if Consistent(AllMetrics(x + y), LeafKind) {
      ConsistencyOfPrefix(AllMetrics(x), AllMetrics(y), LeafKind);
    }
  }

  /** One dictionary update is one step of the batch merge. */
  lemma {:induction false} OneMoreContext(table: map<string, Context>, seen: seq<Context>, c: Context)
    requires Table(table, seen)
    requires c.contextId in table ==> About(c) == About(table[c.contextId])
    ensures var id := c.contextId;
            var metrics := (if id in table then table[id].metrics else []) + c.metrics;
            && (Consistent(metrics, LeafKind) <==> Consistent(AllMetrics(Same(seen + [c], id)), LeafKind))
            && (Consistent(metrics, LeafKind) ==>
                  Table(table[id := c.(metrics := Merged(metrics, LeafKind))], seen + [c]))
  {
    var id := c.contextId;
    var metrics := (if id in table then table[id].metrics else []) + c.metrics;
    SameSnoc(seen, c, id);
    MetricsSnoc(Same(seen, id), c);
    SameNonEmpty(seen, id);
    var before := AllMetrics(Same(seen, id));
    if id in table {
      MergeAbsorbs(before, c.metrics, LeafKind);
      ConsistencyAbsorbs(before, c.metrics, LeafKind);
    } else {
      assert before == [];
      assert metrics == c.metrics;
    }
    if Consistent(metrics, LeafKind) {
      TableGrows(table, seen, c, Merged(metrics, LeafKind));
    }
  }

  lemma {:induction false} TableGrows(table: map<string, Context>, seen: seq<Context>, c: Context, merged: seq<Rec>)
    requires Table(table, seen)
    requires c.contextId in table ==> About(c) == About(table[c.contextId])
    requires var all := AllMetrics(Same(seen + [c], c.contextId));
             Consistent(all, LeafKind) && merged == Merged(all, LeafKind)
    ensures Table(table[c.contextId := c.(metrics := merged)], seen + [c])
  {
    var now, id := table[c.contextId := c.(metrics := merged)], c.contextId;
    IdsSnoc(seen, c);
    forall k | k in now
      ensures Entry(seen + [c], k, now[k])
    {
      if k == id {
        EntryUpdated(table, seen, c, merged);
      } else {
        OtherEntry(seen, c, k, table[k]);
      }
    }
  }

  lemma {:induction false} IdsSnoc(seen: seq<Context>, c: Context)
    ensures Ids(seen + [c]) == Ids(seen) + {c.contextId}
  {
    assert c in seen + [c];
    assert forall d :: d in seen + [c] <==> d in seen || d == c;
  }

  lemma {:induction false} OtherEntry(seen: seq<Context>, c: Context, k: string, entry: Context)
    requires k != c.contextId && Entry(seen, k, entry)
    ensures Entry(seen + [c], k, entry)
  {
    SameSnoc(seen, c, k);
  }

  lemma {:induction false} EntryUpdated(table: map<string, Context>, seen: seq<Context>, c: Context, merged: seq<Rec>)
    requires Table(table, seen)
    requires c.contextId in table ==> About(c) == About(table[c.contextId])
    requires var all := AllMetrics(Same(seen + [c], c.contextId));
             Consistent(all, LeafKind) && merged == Merged(all, LeafKind)
    ensures Entry(seen + [c], c.contextId, c.(metrics := merged))
  {
    ItsMetadata(table, seen, c);
    var first := Same(seen + [c], c.contextId)[0];
    assert About(first) == About(c);
    assert c.(metrics := merged) == About(c).(metrics := merged) == first.(metrics := merged);
  }

  lemma {:induction false} ItsMetadata(table: map<string, Context>, seen: seq<Context>, c: Context)
    requires Table(table, seen)
    requires c.contextId in table ==> About(c) == About(table[c.contextId])
    ensures var same := Same(seen + [c], c.contextId);
            same != [] && forall d :: d in same ==> About(d) == About(c)
  {
    var id := c.contextId;
    SameSnoc(seen, c, id);
    SameNonEmpty(seen, id);
    if id in table {
      assert Entry(seen, id, table[id]);
      assert About(table[id]) == About(Same(seen, id)[0]);
    }
  }
}
