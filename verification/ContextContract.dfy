/** What a merged context measurement conserves, and when the checker accepts it. */
module ContextContract {
  import opened Orders
  import opened Seqs
  import opened Text
  import opened Records
  import opened CoverageShape
  import opened Recompute
  import opened Contexts

  // ---------------------------------------------------------------- the checker

  predicate Normal(c: Context) { c.kind.TestContext? || c.kind.AttemptContext? }

  /** Identity rules of a stored metric, by kind. */
  predicate MetricShape(m: Meta, contextId: string) {
    && m.MetricMeta? && m.contextId == contextId && m.metricId != ""
    && match m.metricKind
       case FunctionMetric => m.site == "" && m.edgeIndex == -1
       case StatementMetric => m.site != "" && m.edgeIndex == -1
       case BranchMetric => m.site != "" && 0 <= m.edgeIndex <= 1
  }

  predicate MetricOk(r: Rec, contextId: string) {
    MetricShape(r.meta, contextId) && r.hits.Some? && r.hits.value >= 1
  }

  ghost predicate ContextOk(c: Context, detail: Detail) {
    && c.contextId != ""
    && (c.kind.AttemptContext? ==> c.attempt >= 1 && detail.AttemptDetail?)
    && DistinctKeys(c.metrics)
    && forall r :: r in c.metrics ==> MetricOk(r, c.contextId)
  }

  function ContextIds(cs: seq<Context>): seq<string> {
    seq(|cs|, (i: nat) requires i < |cs| => cs[i].contextId)
  }

  function OneIf(c: Context): nat { if Normal(c) then 1 else 0 }

  /** The hits stored in contexts of the unattributed kind. */
  function UnattributedIn(c: Context): nat {
    if c.kind.Unattributed? then Sum(c.metrics, Hits) else 0
  }

  /** `validate_context_measurement`. */
  ghost predicate MeasurementOk(m: Measurement) {
    var metrics := AllMetrics(m.contexts);
    && m.header.schemaVersion == 1
    && (forall c :: c in m.contexts ==> ContextOk(c, m.header.detail))
    && SortedBy(ContextIds(m.contexts), StrLe) && Distinct(ContextIds(m.contexts))
    && (!m.header.enabled ==> m.contexts == [])
    && Sum(m.contexts, OneIf) <= m.header.contextLimit && |metrics| <= m.header.entryLimit
    && m.totals.contextsStored == Sum(m.contexts, OneIf)
    && m.totals.metricEntriesStored == |metrics|
    && m.totals.functionHits == Sum(metrics, HitsIf(FunctionMetric))
    && m.totals.statementHits == Sum(metrics, HitsIf(StatementMetric))
    && m.totals.branchHits == Sum(metrics, HitsIf(BranchMetric))
    && m.totals.unattributedHits == Sum(m.contexts, UnattributedIn)
    && m.totals.truncated == (m.totals.overflowActivations > 0 || m.totals.droppedMetricHits > 0)
  }

  // ---------------------------------------------------------------- conservation

  /** A weight that adds up over a group of equal metadata. */
  ghost predicate Additive(w: Rec -> nat) {
    forall items :: items != [] && SameMeta(items) ==> w(MergedGroup(items, LeafKind)) == Sum(items, w)
  }

  lemma {:induction false} TotalAsSum(items: seq<Rec>)
    ensures Sum(items, Hits) == if TotalHits(items).Some? then TotalHits(items).value else 0
  {
    if items != [] { TotalAsSum(items[1..]); }
  }

  lemma {:induction false} SumZero(items: seq<Rec>, w: Rec -> nat)
    requires forall r :: r in items ==> w(r) == 0
    ensures Sum(items, w) == 0
  {
    if items != [] {
      assert items[0] in items;
      SumZero(items[1..], w);
    }
  }

  lemma {:induction false} SelectedHits(items: seq<Rec>, w: Rec -> nat, selected: bool)
    requires items != [] && SameMeta(items)
    requires forall r: Rec :: r.meta == items[0].meta ==> w(r) == if selected then Hits(r) else 0
    ensures w(MergedGroup(items, LeafKind)) == Sum(items, w)
  {
    forall r | r in items
      ensures w(r) == if selected then Hits(r) else 0
    {
      SameMetaMember(items, r);
    }
    if selected {
      SumSame(items, w, Hits);
      TotalAsSum(items);
    } else {
      SumZero(items, w);
    }
  }

  lemma {:induction false} KindHitsAdditive(kind: MetricKind)
    ensures Additive(HitsIf(kind))
  {
    forall items: seq<Rec> | items != [] && SameMeta(items)
      ensures HitsIf(kind)(MergedGroup(items, LeafKind)) == Sum(items, HitsIf(kind))
    {
      var m := items[0].meta;
      SelectedHits(items, HitsIf(kind), m.MetricMeta? && m.metricKind == kind);
    }
  }

  lemma {:induction false} UnattributedAdditive()
    ensures Additive(UnattributedIf)
  {
    forall items: seq<Rec> | items != [] && SameMeta(items)
      ensures UnattributedIf(MergedGroup(items, LeafKind)) == Sum(items, UnattributedIf)
    {
      var m := items[0].meta;
      SelectedHits(items, UnattributedIf, m.MetricMeta? && m.contextId == "unattributed");
    }
  }

  lemma {:induction false} GroupSum(rs: seq<Rec>, w: Rec -> nat, k: Key)
    ensures Sum(Group(rs, k), w) == SumAt(rs, KeyOf, w, k)
  {
    if rs != [] {
      GroupSum(rs[1..], w, k);
      SumAppend(Pick(k)(rs[0]), Group(rs[1..], k), w);
      assert Sum([rs[0]], w) == w(rs[0]) by { assert [rs[0]][1..] == []; }
    }
  }

  lemma {:induction false} MergedRowSum(rs: seq<Rec>, w: Rec -> nat, i: nat)
    requires Consistent(rs, LeafKind) && Additive(w) && i < |SortedKeys(rs)|
    ensures w(Merged(rs, LeafKind)[i]) == SumAt(rs, KeyOf, w, SortedKeys(rs)[i])
  {
    var k := SortedKeys(rs)[i];
    MergedAt(rs, LeafKind, i);
    assert k in SortedKeys(rs);
    assert ConsistentGroup(Group(rs, k), LeafKind);
    GroupSum(rs, w, k);
  }

  /** Merging metrics keeps every additive total. */
  lemma {:induction false} MergedSum(rs: seq<Rec>, w: Rec -> nat)
    requires Consistent(rs, LeafKind) && Additive(w)
    ensures Sum(Merged(rs, LeafKind), w) == Sum(rs, w)
  {
    var keys, merged := SortedKeys(rs), Merged(rs, LeafKind);
    forall i: nat | i < |keys|
      ensures w(merged[i]) == SumAt(rs, KeyOf, w, keys[i])
    {
      MergedRowSum(rs, w, i);
    }
    SumByGroups(merged, w, keys, rs, KeyOf, w);
    SortedKeysSorted(rs);
    assert forall r :: r in rs ==> KeyOf(r) in Keys(rs);
    GroupsPartition(keys, rs, KeyOf, w);
  }

  function IdOf(c: Context): string { c.contextId }

  function Within(w: Rec -> nat): Context -> nat { (c: Context) => Sum(c.metrics, w) }

  lemma {:induction false} ContextSum(cs: seq<Context>, w: Rec -> nat, id: string)
    ensures Sum(AllMetrics(Same(cs, id)), w) == SumAt(cs, IdOf, Within(w), id)
  {
    if cs != [] {
      ContextSum(cs[1..], w, id);
      var head := WithId(id)(cs[0]);
      FlatMapAppend(head, Same(cs[1..], id), MetricsOf);
      SumAppend(AllMetrics(head), AllMetrics(Same(cs[1..], id)), w);
      assert Same(cs, id) == head + Same(cs[1..], id);
      OneContext(cs[0]);
      assert Sum(AllMetrics(head), w) == if cs[0].contextId == id then Within(w)(cs[0]) else 0;
    }
  }

  lemma {:induction false} OneContext(c: Context)
    ensures AllMetrics([c]) == c.metrics
  {
    FlatMapSnoc([], c, MetricsOf);
    assert [] + [c] == [c];
  }

  lemma {:induction false} RowSum(cs: seq<Context>, w: Rec -> nat, i: nat)
    requires (forall id :: id in Ids(cs) ==> ContextAccepted(cs, id)) && Additive(w)
    requires i < |SortedNames(Ids(cs))|
    ensures Sum(MergedContexts(cs)[i].metrics, w) == SumAt(cs, IdOf, Within(w), SortedNames(Ids(cs))[i])
  {
    var id := SortedNames(Ids(cs))[i];
    assert id in SortedNames(Ids(cs));
    SameNonEmpty(cs, id);
    MergedSum(AllMetrics(Same(cs, id)), w);
    ContextSum(cs, w, id);
  }

  /** No attribution is lost or invented: an additive total over the merged contexts is the total
      over all contexts of all shards. */
  lemma {:induction false} AttributionConserved(cs: seq<Context>, w: Rec -> nat)
    requires (forall id :: id in Ids(cs) ==> ContextAccepted(cs, id)) && Additive(w)
    ensures Sum(AllMetrics(MergedContexts(cs)), w) == Sum(AllMetrics(cs), w)
  {
    var ids, rows := SortedNames(Ids(cs)), MergedContexts(cs);
    forall i: nat | i < |ids|
      ensures Within(w)(rows[i]) == SumAt(cs, IdOf, Within(w), ids[i])
    {
      RowSum(cs, w, i);
    }
    SumByGroups(rows, Within(w), ids, cs, IdOf, Within(w));
    SortedNamesSorted(Ids(cs));
    assert forall c :: c in cs ==> IdOf(c) in Ids(cs);
    GroupsPartition(ids, cs, IdOf, Within(w));
    SumFlatMap(rows, MetricsOf, w, Within(w));
    SumFlatMap(cs, MetricsOf, w, Within(w));
  }

  /** What the shards reported of one total. */
  function Reported(field: Totals -> nat): Measurement -> nat { (m: Measurement) => field(m.totals) }

  lemma {:induction false} LossesConserved(ms: seq<Measurement>)
    ensures SumOverflow(ms) == Sum(ms, Reported((t: Totals) => t.overflowActivations))
    ensures SumDropped(ms) == Sum(ms, Reported((t: Totals) => t.droppedMetricHits))
  {
    if ms != [] { LossesConserved(ms[1..]); }
  }

  /** The hits of the metrics of one kind, by position. */
  ghost function HitsOfKind(metrics: seq<Rec>, n: nat, kind: MetricKind): nat
    requires n <= |metrics|
  {
    if n == 0 then 0
    else
      HitsOfKind(metrics, n - 1, kind)
      + match metrics[n - 1].meta
        case MetricMeta(_, _, k, _, _, _, _) =>
          if k == kind && metrics[n - 1].hits.Some? then metrics[n - 1].hits.value else 0
        case _ => 0
  }

  lemma {:induction false} KindHitsMean(metrics: seq<Rec>, n: nat, kind: MetricKind)
    requires n <= |metrics|
    ensures Sum(metrics[..n], HitsIf(kind)) == HitsOfKind(metrics, n, kind)
  {
    if n > 0 {
      KindHitsMean(metrics, n - 1, kind);
      SumNext(metrics, n - 1, HitsIf(kind));
    }
  }

  /** The counters of a merge: rows and metrics stored, the hits of each kind of metric, and the shards'
      losses; truncated when some shard was. */
  lemma {:induction false} TotalsMean(rows: seq<Context>, ms: seq<Measurement>)
    ensures var t, metrics := TotalsOf(rows, ms), AllMetrics(rows);
            && t.contextsStored == |rows| && t.metricEntriesStored == |metrics|
            && t.functionHits == HitsOfKind(metrics, |metrics|, FunctionMetric)
            && t.statementHits == HitsOfKind(metrics, |metrics|, StatementMetric)
            && t.branchHits == HitsOfKind(metrics, |metrics|, BranchMetric)
            && (t.truncated <==> exists m :: m in ms && m.totals.truncated)
  {
    var metrics := AllMetrics(rows);
    KindHitsMean(metrics, |metrics|, FunctionMetric);
    KindHitsMean(metrics, |metrics|, StatementMetric);
    KindHitsMean(metrics, |metrics|, BranchMetric);
    assert metrics[..|metrics|] == metrics;
  }

  /** Function, statement and branch hit totals of the merge and its two loss counters are the sums of
      the shards' totals. */
  lemma {:induction false} TotalsConserved(ms: seq<Measurement>)
    requires ms != [] && Accepted(ms) && forall m :: m in ms ==> MeasurementOk(m)
    ensures var totals := TotalsOf(MergedContexts(AllContexts(ms)), ms);
            && totals.overflowActivations == Sum(ms, Reported((t: Totals) => t.overflowActivations))
            && totals.droppedMetricHits == Sum(ms, Reported((t: Totals) => t.droppedMetricHits))
            && totals.functionHits == Sum(ms, Reported((t: Totals) => t.functionHits))
            && totals.statementHits == Sum(ms, Reported((t: Totals) => t.statementHits))
            && totals.branchHits == Sum(ms, Reported((t: Totals) => t.branchHits))
  {
    LossesConserved(ms);
    KindHitsAdditive(FunctionMetric);
    KindHitsAdditive(StatementMetric);
    KindHitsAdditive(BranchMetric);
    AttributionConserved(AllContexts(ms), HitsIf(FunctionMetric));
    AttributionConserved(AllContexts(ms), HitsIf(StatementMetric));
    AttributionConserved(AllContexts(ms), HitsIf(BranchMetric));
    ShardTotals(ms, HitsIf(FunctionMetric), Reported((t: Totals) => t.functionHits));
    ShardTotals(ms, HitsIf(StatementMetric), Reported((t: Totals) => t.statementHits));
    ShardTotals(ms, HitsIf(BranchMetric), Reported((t: Totals) => t.branchHits));
  }

  /** Unattributed hits are neither lost nor invented by the merge. */
  lemma {:induction false} UnattributedConserved(ms: seq<Measurement>)
    requires ms != [] && Accepted(ms)
    ensures TotalsOf(MergedContexts(AllContexts(ms)), ms).unattributedHits ==
            Sum(AllMetrics(AllContexts(ms)), UnattributedIf)
  {
    UnattributedAdditive();
    AttributionConserved(AllContexts(ms), UnattributedIf);
  }

  lemma {:induction false} ShardTotals(ms: seq<Measurement>, w: Rec -> nat, part: Measurement -> nat)
    requires forall m :: m in ms ==> part(m) == Sum(AllMetrics(m.contexts), w)
    ensures Sum(AllMetrics(AllContexts(ms)), w) == Sum(ms, part)
  {
    if ms != [] {
      assert ms[0] in ms;
      ShardTotals(ms[1..], w, part);
      FlatMapAppend(ms[0].contexts, AllContexts(ms[1..]), MetricsOf);
      SumAppend(AllMetrics(ms[0].contexts), AllMetrics(AllContexts(ms[1..])), w);
    }
  }

  // ---------------------------------------------------------------- acceptance

  lemma {:induction false} MergedRow(ms: seq<Measurement>, i: nat)
    requires ms != [] && Accepted(ms) && (forall m :: m in ms ==> MeasurementOk(m))
    requires i < |MergedContexts(AllContexts(ms))|
    ensures var c := MergedContexts(AllContexts(ms))[i];
            c.contextId == SortedNames(Ids(AllContexts(ms)))[i] && ContextOk(c, ms[0].header.detail)
  {
    var cs := AllContexts(ms);
    var id := SortedNames(Ids(cs))[i];
    assert id in SortedNames(Ids(cs));
    SameNonEmpty(cs, id);
    var same := Same(cs, id);
    forall d | d in same
      ensures d.contextId == id && ContextOk(d, ms[0].header.detail)
    {
      SameMember(cs, id, d);
      ShardContext(ms, d);
    }
    var c := MergedContext(cs, id);
    assert same[0] in same;
    MetricsStayOk(same, id);
    MergedKeys(AllMetrics(same), LeafKind);
  }

  lemma {:induction false} ShardContext(ms: seq<Measurement>, d: Context)
    requires ms != [] && Accepted(ms) && (forall m :: m in ms ==> MeasurementOk(m)) && d in AllContexts(ms)
    ensures ContextOk(d, ms[0].header.detail)
  {
    FlatMapMember(ms, ContextsOf, d);
    var m :| m in ms && d in ContextsOf(m);
    assert MeasurementOk(m);
  }

  lemma {:induction false} MetricsStayOk(same: seq<Context>, id: string)
    requires Consistent(AllMetrics(same), LeafKind)
    requires forall d :: d in same ==> forall r :: r in d.metrics ==> MetricOk(r, id)
    ensures forall r :: r in Merged(AllMetrics(same), LeafKind) ==> MetricOk(r, id)
  {
    forall r | r in AllMetrics(same)
      ensures MetricOk(r, id)
    {
      FlatMapMember(same, MetricsOf, r);
      var d :| d in same && r in MetricsOf(d);
    }
    forall m | m in Merged(AllMetrics(same), LeafKind)
      ensures MetricOk(m, id)
    {
      var items := Origin(AllMetrics(same), LeafKind, m);
      assert items[0] in items;
      PositiveTotal(items);
    }
  }

  lemma {:induction false} PositiveTotal(items: seq<Rec>)
    requires items != [] && items[0].hits.Some? && items[0].hits.value >= 1
    ensures TotalHits(items).Some? && TotalHits(items).value >= 1
  {}

  lemma {:induction false} AllOrFewer<T>(s: seq<T>, v: T -> nat)
    requires forall x :: x in s ==> v(x) <= 1
    ensures Sum(s, v) <= |s|
    ensures Sum(s, v) == |s| <==> forall x :: x in s ==> v(x) == 1
  {
    if s != [] {
      assert s[0] in s;
      AllOrFewer(s[1..], v);
      assert s == [s[0]] + s[1..];
    }
  }

  lemma {:induction false} SumIsZero<T>(s: seq<T>, v: T -> nat)
    ensures Sum(s, v) == 0 <==> forall x :: x in s ==> v(x) == 0
  {
    if s != [] {
      SumIsZero(s[1..], v);
      assert s == [s[0]] + s[1..];
    }
  }

  /** Hits booked on the identity "unattributed" are zero exactly when no such context has metrics. */
  lemma {:induction false} UnattributedIdentity(rows: seq<Context>)
    requires forall c :: c in rows ==> forall r :: r in c.metrics ==> MetricOk(r, c.contextId)
    ensures Sum(AllMetrics(rows), UnattributedIf) == 0 <==>
            forall c :: c in rows && c.contextId == "unattributed" ==> c.metrics == []
  {
    SumIsZero(AllMetrics(rows), UnattributedIf);
    if c :| c in rows && c.contextId == "unattributed" && c.metrics != [] {
      var r := c.metrics[0];
      assert r in c.metrics && r in MetricsOf(c);
      FlatMapMember(rows, MetricsOf, r);
      BookedHits(r, c.contextId);
    } else {
      forall r | r in AllMetrics(rows)
        ensures UnattributedIf(r) == 0
      {
        FlatMapMember(rows, MetricsOf, r);
        var c :| c in rows && r in MetricsOf(c);
        BookedHits(r, c.contextId);
      }
    }
  }

  lemma {:induction false} BookedHits(r: Rec, id: string)
    requires MetricOk(r, id)
    ensures UnattributedIf(r) == 0 <==> id != "unattributed"
  {}

  lemma {:induction false} LossCounters(ms: seq<Measurement>)
    requires forall m :: m in ms ==> MeasurementOk(m)
    ensures AnyTruncated(ms) <==> SumOverflow(ms) > 0 || SumDropped(ms) > 0
  {
    if ms != [] {
      assert MeasurementOk(ms[0]);
      LossCounters(ms[1..]);
      assert ms == [ms[0]] + ms[1..];
    }
  }

  /** The (context, metric) pairs that any shard stores. */
  function Entries(cs: seq<Context>): set<(string, Key)> {
    set c, r | c in cs && r in c.metrics :: (c.contextId, KeyOf(r))
  }

  /** What the shards' contexts must satisfy: only test and attempt contexts, nothing booked on the
      identity "unattributed", and all contexts and metrics together within the common limits. */
  ghost predicate Storable(header: Header, cs: seq<Context>) {
    && (forall c :: c in cs ==> Normal(c))
    && (forall c :: c in cs && c.contextId == "unattributed" ==> c.metrics == [])
    && |Ids(cs)| <= header.contextLimit && |Entries(cs)| <= header.entryLimit
  }

  /** A merge of checked measurements passes the checker exactly when the shards' contexts are storable:
      the producer counts every context as stored, the checker only the attributed ones. */
  lemma {:induction false} MergedMeasurementAccepted(ms: seq<Measurement>)
    requires ms != [] && Accepted(ms) && forall m :: m in ms ==> MeasurementOk(m)
    ensures var rows := MergedContexts(AllContexts(ms));
            MeasurementOk(Measurement(ms[0].header, rows, TotalsOf(rows, ms))) <==>
            Storable(ms[0].header, AllContexts(ms))
  {
    MergedRowsAccepted(ms);
    RowsStandForContexts(AllContexts(ms));
    RowEntries(AllContexts(ms));
    RowIdsDistinct(AllContexts(ms));
    EntryCount(MergedContexts(AllContexts(ms)));
  }

  lemma {:induction false} MergedRowsAccepted(ms: seq<Measurement>)
    requires ms != [] && Accepted(ms) && forall m :: m in ms ==> MeasurementOk(m)
    ensures var rows := MergedContexts(AllContexts(ms));
            MeasurementOk(Measurement(ms[0].header, rows, TotalsOf(rows, ms))) <==>
            && (forall c :: c in rows ==> Normal(c))
            && (forall c :: c in rows && c.contextId == "unattributed" ==> c.metrics == [])
            && |rows| <= ms[0].header.contextLimit && |AllMetrics(rows)| <= ms[0].header.entryLimit
  {
    var rows := MergedContexts(AllContexts(ms));
    MergedRowsInOrder(ms);
    DisabledIsEmpty(ms);
    LossCounters(ms);
    RowCounts(rows, ms[0].header.detail);
    assert MeasurementOk(ms[0]);
  }

  lemma {:induction false} MergedRowsInOrder(ms: seq<Measurement>)
    requires ms != [] && Accepted(ms) && forall m :: m in ms ==> MeasurementOk(m)
    ensures var rows := MergedContexts(AllContexts(ms));
            && (forall c :: c in rows ==> ContextOk(c, ms[0].header.detail))
            && SortedBy(ContextIds(rows), StrLe) && Distinct(ContextIds(rows))
  {
    var rows := MergedContexts(AllContexts(ms));
    forall i: nat | i < |rows|
      ensures rows[i].contextId == SortedNames(Ids(AllContexts(ms)))[i] && ContextOk(rows[i], ms[0].header.detail)
    {
      MergedRow(ms, i);
    }
    assert ContextIds(rows) == SortedNames(Ids(AllContexts(ms)));
    SortedNamesSorted(Ids(AllContexts(ms)));
  }

  // ---------------------------------------------------------------- rows and the contexts they merge

  lemma {:induction false} RowAt(cs: seq<Context>, i: nat)
    requires i < |MergedContexts(cs)|
    ensures var id := SortedNames(Ids(cs))[i];
            id in Ids(cs) && Same(cs, id) != [] && MergedContexts(cs)[i] == MergedContext(cs, id)
  {
    var id := SortedNames(Ids(cs))[i];
    assert id in SortedNames(Ids(cs));
    SameNonEmpty(cs, id);
  }

  lemma {:induction false} RowOf(cs: seq<Context>, id: string) returns (row: Context)
    requires id in Ids(cs)
    ensures Same(cs, id) != [] && row in MergedContexts(cs) && row == MergedContext(cs, id)
  {
    SameNonEmpty(cs, id);
    assert id in SortedNames(Ids(cs));
    var i: nat :| i < |SortedNames(Ids(cs))| && SortedNames(Ids(cs))[i] == id;
    RowAt(cs, i);
    row := MergedContexts(cs)[i];
  }

  lemma {:induction false} RowOrigin(cs: seq<Context>, row: Context)
    requires row in MergedContexts(cs)
    ensures Same(cs, row.contextId) != [] && row == MergedContext(cs, row.contextId)
  {
    var i: nat :| i < |MergedContexts(cs)| && MergedContexts(cs)[i] == row;
    RowAt(cs, i);
    var id := SortedNames(Ids(cs))[i];
    SameMember(cs, id, Same(cs, id)[0]);
  }

  /** A merged context has the kind of its copies, and metrics exactly when one of them has. */
  lemma {:induction false} RowStandsFor(cs: seq<Context>, id: string)
    requires Same(cs, id) != [] && ContextAccepted(cs, id)
    ensures forall c :: c in cs && c.contextId == id ==> c.kind == MergedContext(cs, id).kind
    ensures MergedContext(cs, id).contextId == id
    ensures MergedContext(cs, id).metrics == [] <==> forall c :: c in cs && c.contextId == id ==> c.metrics == []
  {
    var same := Same(cs, id);
    forall c
      ensures c in same <==> c in cs && c.contextId == id
    {
      SameMember(cs, id, c);
    }
    assert same[0] in same;
    forall c | c in same
      ensures c.kind == same[0].kind
    {
      assert About(c) == About(same[0]);
    }
    MergedNothing(AllMetrics(same));
    NoMetrics(same);
  }

  lemma {:induction false} MergedNothing(rs: seq<Rec>)
    ensures Merged(rs, LeafKind) == [] <==> rs == []
  {
    MergedKeys(rs, LeafKind);
    if rs != [] { assert KeyOf(rs[0]) in Keys(Merged(rs, LeafKind)); }
    if Merged(rs, LeafKind) != [] { assert KeyOf(Merged(rs, LeafKind)[0]) in Keys(rs); }
  }

  lemma {:induction false} NoMetrics(cs: seq<Context>)
    ensures AllMetrics(cs) == [] <==> forall c :: c in cs ==> c.metrics == []
  {
    if cs != [] {
      NoMetrics(cs[1..]);
      assert cs == [cs[0]] + cs[1..];
    }
  }

  lemma {:induction false} RowsStandForContexts(cs: seq<Context>)
    requires forall id :: id in Ids(cs) ==> ContextAccepted(cs, id)
    ensures var rows := MergedContexts(cs);
            && |rows| == |Ids(cs)|
            && ((forall c :: c in rows ==> Normal(c)) <==> (forall c :: c in cs ==> Normal(c)))
            && ((forall c :: c in rows && c.contextId == "unattributed" ==> c.metrics == []) <==>
                  (forall c :: c in cs && c.contextId == "unattributed" ==> c.metrics == []))
  {
    SortedNamesSorted(Ids(cs));
    NormalRows(cs);
    UnattributedRows(cs, "unattributed");
  }

  lemma {:induction false} NormalRows(cs: seq<Context>)
    requires forall id :: id in Ids(cs) ==> ContextAccepted(cs, id)
    ensures (forall c :: c in MergedContexts(cs) ==> Normal(c)) <==> (forall c :: c in cs ==> Normal(c))
  {
    forall c | c in cs
      ensures exists row :: row in MergedContexts(cs) && row.kind == c.kind
    {
      var row := RowOf(cs, c.contextId);
      RowStandsFor(cs, c.contextId);
    }
    forall row | row in MergedContexts(cs)
      ensures exists c :: c in cs && row.kind == c.kind
    {
      RowOrigin(cs, row);
      var c := Same(cs, row.contextId)[0];
      SameMember(cs, row.contextId, c);
    }
  }

  lemma {:induction false} UnattributedRows(cs: seq<Context>, id: string)
    requires forall id :: id in Ids(cs) ==> ContextAccepted(cs, id)
    ensures (forall c :: c in MergedContexts(cs) && c.contextId == id ==> c.metrics == []) <==>
            (forall c :: c in cs && c.contextId == id ==> c.metrics == [])
  {
    if id in Ids(cs) {
      var row := RowOf(cs, id);
      RowStandsFor(cs, id);
      forall c | c in MergedContexts(cs) && c.contextId == id
        ensures c == row
      {
        RowOrigin(cs, c);
      }
    } else {
      forall c | c in MergedContexts(cs)
        ensures c.contextId in Ids(cs)
      {
        RowOrigin(cs, c);
        SameNonEmpty(cs, c.contextId);
      }
    }
  }

  // ---------------------------------------------------------------- how many metrics are stored

  /** The merged rows store each (context, metric) pair of the shards once. */
  lemma {:induction false} RowEntries(cs: seq<Context>)
    ensures Entries(MergedContexts(cs)) == Entries(cs)
  {
    forall row, r | row in MergedContexts(cs) && r in row.metrics
      ensures (row.contextId, KeyOf(r)) in Entries(cs)
    {
      RowOrigin(cs, row);
      var c, s := StoredMetric(cs, row.contextId, r);
    }
    forall c, r | c in cs && r in c.metrics
      ensures (c.contextId, KeyOf(r)) in Entries(MergedContexts(cs))
    {
      var row := RowOf(cs, c.contextId);
      SameMember(cs, c.contextId, Same(cs, c.contextId)[0]);
      var m := MergedMetric(cs, c, r);
    }
  }

  lemma {:induction false} StoredMetric(cs: seq<Context>, id: string, r: Rec) returns (c: Context, s: Rec)
    requires Same(cs, id) != [] && r in MergedContext(cs, id).metrics
    ensures c in cs && c.contextId == id && s in c.metrics && KeyOf(s) == KeyOf(r)
  {
    var metrics := AllMetrics(Same(cs, id));
    MergedKeys(metrics, LeafKind);
    assert KeyOf(r) in Keys(metrics);
    s :| s in metrics && KeyOf(s) == KeyOf(r);
    FlatMapMember(Same(cs, id), MetricsOf, s);
    c :| c in Same(cs, id) && s in MetricsOf(c);
    SameMember(cs, id, c);
  }

  lemma {:induction false} MergedMetric(cs: seq<Context>, c: Context, r: Rec) returns (m: Rec)
    requires c in cs && r in c.metrics && Same(cs, c.contextId) != []
    ensures m in MergedContext(cs, c.contextId).metrics && KeyOf(m) == KeyOf(r)
  {
    var same := Same(cs, c.contextId);
    SameMember(cs, c.contextId, c);
    FlatMapMember(same, MetricsOf, r);
    assert r in MetricsOf(c);
    MergedKeys(AllMetrics(same), LeafKind);
    assert KeyOf(r) in Keys(Merged(AllMetrics(same), LeafKind));
    m :| m in Merged(AllMetrics(same), LeafKind) && KeyOf(m) == KeyOf(r);
  }

  ghost predicate OneRowEach(rows: seq<Context>) {
    && (forall i, j :: 0 <= i < j < |rows| ==> rows[i].contextId != rows[j].contextId)
    && forall c :: c in rows ==> DistinctKeys(c.metrics)
  }

  lemma {:induction false} RowIdsDistinct(cs: seq<Context>)
    ensures OneRowEach(MergedContexts(cs))
  {
    var rows := MergedContexts(cs);
    SortedNamesSorted(Ids(cs));
    forall i: nat | i < |rows|
      ensures rows[i].contextId == SortedNames(Ids(cs))[i] && DistinctKeys(rows[i].metrics)
    {
      RowAt(cs, i);
      var id := SortedNames(Ids(cs))[i];
      SameMember(cs, id, Same(cs, id)[0]);
      MergedKeys(AllMetrics(Same(cs, id)), LeafKind);
    }
  }

  function Tagged(id: string, rs: seq<Rec>): set<(string, Key)> {
    set r | r in rs :: (id, KeyOf(r))
  }

  lemma {:induction false} TaggedCount(id: string, rs: seq<Rec>)
    requires DistinctKeys(rs)
    ensures |Tagged(id, rs)| == |rs|
  {
    if rs != [] {
      TaggedCount(id, rs[1..]);
      forall r | r in rs[1..]
        ensures KeyOf(r) != KeyOf(rs[0])
      {
        var i :| 0 <= i < |rs[1..]| && rs[1..][i] == r;
        assert rs[i + 1] == r;
      }
      assert rs == [rs[0]] + rs[1..];
      assert Tagged(id, rs) == {(id, KeyOf(rs[0]))} + Tagged(id, rs[1..]);
    } else {
      assert Tagged(id, rs) == {};
    }
  }

  lemma {:induction false} EntryCount(rows: seq<Context>)
    requires OneRowEach(rows)
    ensures |AllMetrics(rows)| == |Entries(rows)|
  {
    if rows != [] {
      var c, rest := rows[0], rows[1..];
      assert rows == [c] + rest;
      EntryCount(rest);
      TaggedCount(c.contextId, c.metrics);
      FirstRowEntries(c, rest);
      assert |Entries(rows)| == |Tagged(c.contextId, c.metrics)| + |Entries(rest)|;
    } else {
      assert Entries(rows) == {};
    }
  }

  lemma {:induction false} FirstRowEntries(c: Context, rest: seq<Context>)
    requires OneRowEach([c] + rest)
    ensures Entries([c] + rest) == Tagged(c.contextId, c.metrics) + Entries(rest)
    ensures Tagged(c.contextId, c.metrics) !! Entries(rest)
  {
    var rows := [c] + rest;
    forall d | d in rest
      ensures d.contextId != c.contextId
    {
      var i :| 0 <= i < |rest| && rest[i] == d;
      assert rows[i + 1] == d && rows[0] == c;
    }
  }

  // ---------------------------------------------------------------- a measurement that is not storable

  /** One checked shard that books a hit outside all tests: its own measurement passes, the merge of
      nothing but this shard does not, because it counts the context as stored. */
  lemma {:induction false} UnattributedContextIsRejected() returns (m: Measurement)
    ensures MeasurementOk(m) && Accepted([m])
    ensures var rows := MergedContexts(AllContexts([m]));
            !MeasurementOk(Measurement(m.header, rows, TotalsOf(rows, [m])))
  {
    var hit := Rec(MetricMeta("unattributed", "metric_0", FunctionMetric, "/src/f.q", ".f", "", -1),
                   Some(1), true, map[], map[]);
    var c := Context("unattributed", Unattributed, 0, "", [hit]);
    m := Measurement(Header(1, true, TestDetail, 10, 10), [c], Totals(0, 1, 1, 0, 0, 1, 0, 0, false));
    OneContext(c);
    SumOne(hit, HitsIf(FunctionMetric));
    SumOne(hit, HitsIf(StatementMetric));
    SumOne(hit, HitsIf(BranchMetric));
    SumOne(hit, Hits);
    SumOne(c, OneIf);
    SumOne(c, UnattributedIn);
    OneMeasurementAccepted(m, c, hit);
    assert c in AllContexts([m]) by { FlatMapOne(m, ContextsOf); }
    MergedMeasurementAccepted([m]);
  }

  lemma {:induction false} OneMeasurementAccepted(m: Measurement, c: Context, r: Rec)
    requires m.contexts == [c] && c.metrics == [r]
    ensures Accepted([m])
  {
    FlatMapOne(m, ContextsOf);
    forall id | id in Ids([c])
      ensures ContextAccepted([c], id)
    {
      FlatMapOne(c, WithId(id));
      OneContext(c);
      forall k | k in Keys([r])
        ensures ConsistentGroup(Group([r], k), LeafKind)
      {
        FlatMapOne(r, Pick(k));
      }
    }
  }

  lemma {:induction false} DisabledIsEmpty(ms: seq<Measurement>)
    requires ms != [] && Accepted(ms) && forall m :: m in ms ==> MeasurementOk(m)
    ensures !ms[0].header.enabled ==> MergedContexts(AllContexts(ms)) == []
  {
    if !ms[0].header.enabled {
      forall m | m in ms
        ensures ContextsOf(m) == []
      {
        assert MeasurementOk(m);
      }
      NothingListed(ms, ContextsOf);
      NothingIn(SortedNames(Ids(AllContexts(ms))));
    }
  }

  lemma {:induction false} NothingListed<T, U>(s: seq<T>, f: T -> seq<U>)
    requires forall x :: x in s ==> f(x) == []
    ensures FlatMap(s, f) == []
  {
    if s != [] {
      assert s[0] in s;
      NothingListed(s[1..], f);
    }
  }

  lemma {:induction false} NothingIn<T>(s: seq<T>)
    requires forall x :: x !in s
    ensures s == []
  {
    assert Elements(s) == {};
    NoElements(s);
  }

  lemma {:induction false} RowCounts(rows: seq<Context>, detail: Detail)
    requires forall c :: c in rows ==> ContextOk(c, detail)
    ensures Sum(rows, OneIf) <= |rows|
    ensures Sum(rows, OneIf) == |rows| <==> forall c :: c in rows ==> Normal(c)
    ensures (forall c :: c in rows ==> Normal(c)) ==> Sum(rows, UnattributedIn) == 0
    ensures Sum(AllMetrics(rows), UnattributedIf) == 0 <==>
            forall c :: c in rows && c.contextId == "unattributed" ==> c.metrics == []
  {
    AllOrFewer(rows, OneIf);
    SumIsZero(rows, UnattributedIn);
    UnattributedIdentity(rows);
  }
}
