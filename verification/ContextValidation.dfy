/** `validate_context_measurement` as the checker runs it. */
module ContextValidation {
  import opened Orders
  import opened Seqs
  import opened Text
  import opened Records
  import opened Recompute
  import opened Contexts
  import opened ContextContract

  method ValidateMetric(r: Rec, contextId: string) returns (ok: bool)
    ensures ok <==> MetricOk(r, contextId)
  {
    var m := r.meta;
    if !m.MetricMeta? { return false; }
    if m.contextId != contextId || m.metricId == "" { return false; }
    match m.metricKind {
      case FunctionMetric => if m.site != "" || m.edgeIndex != -1 { return false; }
      case StatementMetric => if m.site == "" || m.edgeIndex != -1 { return false; }
      case BranchMetric => if m.site == "" || m.edgeIndex !in {0, 1} { return false; }
    }
    ok := r.hits.Some? && r.hits.value >= 1;
  }

  method ValidateMetrics(rows: seq<Rec>, contextId: string) returns (ok: bool)
    ensures ok <==> DistinctKeys(rows) && forall r :: r in rows ==> MetricOk(r, contextId)
  {
    var seen: set<string> := {};
    for i := 0 to |rows|
      invariant forall j :: 0 <= j < i ==> MetricOk(rows[j], contextId) && rows[j].meta.metricId in seen
      invariant forall id :: id in seen ==> exists j :: 0 <= j < i && rows[j].meta.MetricMeta? && rows[j].meta.metricId == id
      invariant DistinctKeys(rows[..i])
    {
      ok := ValidateMetric(rows[i], contextId);
      if !ok { return; }
      if rows[i].meta.metricId in seen { return false; }
      seen := seen + {rows[i].meta.metricId};
    }
    assert rows[..|rows|] == rows;
    ok := true;
  }

  method ValidateContext(c: Context, detail: Detail) returns (ok: bool)
    ensures ok <==> ContextOk(c, detail)
  {
    if c.contextId == "" { return false; }
    if c.kind == AttemptContext && c.attempt < 1 { return false; }
    if detail == TestDetail && c.kind == AttemptContext { return false; }
    ok := ValidateMetrics(c.metrics, c.contextId);
  }

  method ValidateContexts(cs: seq<Context>, detail: Detail) returns (ok: bool)
    ensures ok <==> forall c :: c in cs ==> ContextOk(c, detail)
  {
    for i := 0 to |cs|
      invariant forall j :: 0 <= j < i ==> ContextOk(cs[j], detail)
    {
      ok := ValidateContext(cs[i], detail);
      if !ok { return; }
    }
    ok := true;
  }

  lemma {:induction false} OnlyOrder(ids: seq<string>)
    ensures ids == SortedNames(Elements(ids)) <==> SortedBy(ids, StrLe) && Distinct(ids)
  {
    var sorted := SortedNames(Elements(ids));
    SortedNamesSorted(Elements(ids));
    StrLeIsTotalOrder();
    if SortedBy(ids, StrLe) && Distinct(ids) { SortedUnique(ids, sorted, StrLe); }
  }

  /** `ids == sorted(ids)` without a repeated identity. */
  method CheckOrder(cs: seq<Context>) returns (ok: bool)
    ensures ok <==> SortedBy(ContextIds(cs), StrLe) && Distinct(ContextIds(cs))
  {
    var ids: seq<string> := [];
    for i := 0 to |cs|
      invariant |ids| == i && forall k :: 0 <= k < i ==> ids[k] == cs[k].contextId
    {
      ids := ids + [cs[i].contextId];
    }
    assert ids == ContextIds(cs);
    OnlyOrder(ids);
    ok := ids == SortedNames(Elements(ids));
  }

  method SumHits(metrics: seq<Rec>) returns (n: nat)
    ensures n == Sum(metrics, Hits)
  {
    n := 0;
    for i := 0 to |metrics|
      invariant n == Sum(metrics[..i], Hits)
    {
      SumNext(metrics, i, Hits);
      if metrics[i].hits.Some? { n := n + metrics[i].hits.value; }
    }
    assert metrics[..|metrics|] == metrics;
  }

  /** The contexts of tests and attempts, all metrics, and the hits of unattributed contexts. */
  method CountContexts(cs: seq<Context>) returns (normal: nat, metrics: seq<Rec>, unattributed: nat)
    ensures normal == Sum(cs, OneIf) && metrics == AllMetrics(cs) && unattributed == Sum(cs, UnattributedIn)
  {
    normal, metrics, unattributed := 0, [], 0;
    for i := 0 to |cs|
      invariant normal == Sum(cs[..i], OneIf) && metrics == AllMetrics(cs[..i])
      invariant unattributed == Sum(cs[..i], UnattributedIn)
    {
      SumNext(cs, i, OneIf);
      SumNext(cs, i, UnattributedIn);
      FlatMapNext(cs, MetricsOf, i);
      if cs[i].kind != Unattributed && cs[i].kind != Overflow { normal := normal + 1; }
      if cs[i].kind == Unattributed {
        var hits := SumHits(cs[i].metrics);
        unattributed := unattributed + hits;
      }
      metrics := metrics + cs[i].metrics;
    }
    assert cs[..|cs|] == cs;
  }

  method ValidateMeasurement(m: Measurement) returns (ok: bool)
    ensures ok <==> MeasurementOk(m)
  {
    if m.header.schemaVersion != 1 { return false; }
    ok := ValidateContexts(m.contexts, m.header.detail);
    if !ok { return; }
    ok := CheckOrder(m.contexts);
    if !ok { return; }
    if !m.header.enabled && m.contexts != [] { return false; }
    var normal, metrics, unattributed := CountContexts(m.contexts);
    if normal > m.header.contextLimit || |metrics| > m.header.entryLimit { return false; }
    var functionHits, statementHits, branchHits, _ := SumMetrics(metrics);
    var t := m.totals;
    if t.contextsStored != normal || t.metricEntriesStored != |metrics| || t.functionHits != functionHits
       || t.statementHits != statementHits || t.branchHits != branchHits || t.unattributedHits != unattributed {
      return false;
    }
    ok := t.truncated == (t.overflowActivations != 0 || t.droppedMetricHits != 0);
  }
}
