/** Context metrics refer to files, functions, sites and edges of the same artifact;
    the merge keeps every reference resolved. */
module CoverageReferences {
  import opened Seqs
  import opened Records
  import opened CoverageContract
  import opened Recompute
  import opened CoverageOrigins
  import opened CoverageShape
  import opened CoverageMerge
  import opened CoverageArtifact
  import opened Contexts
  import opened ContextContract

  predicate IsFile(f: Rec, path: string) { f.meta.FileMeta? && f.meta.path == path }

  predicate IsFunction(g: Rec, name: string) { g.meta.FunctionMeta? && g.meta.name == name }

  predicate HasId(x: Rec, siteId: string) {
    (x.meta.SiteMeta? && x.meta.siteId == siteId) || (x.meta.BranchMeta? && x.meta.siteId == siteId)
  }

  predicate IsEdge(e: Rec, index: int) { e.meta.EdgeMeta? && e.meta.index == index }

  /** `function_catalog` */
  ghost predicate HasFunction(files: seq<Rec>, path: string, name: string) {
    exists f, g :: f in files && IsFile(f, path) && g in Kids(f, Functions) && IsFunction(g, name)
  }

  /** `site_catalog` */
  ghost predicate HasSite(files: seq<Rec>, path: string, siteId: string) {
    exists f, x :: f in files && IsFile(f, path) && x in Kids(f, Sites) + Kids(f, Branches) && HasId(x, siteId)
  }

  /** `edge_catalog` */
  ghost predicate HasEdge(files: seq<Rec>, path: string, siteId: string, index: int) {
    exists f, b, e ::
      f in files && IsFile(f, path) && b in Kids(f, Branches) && HasId(b, siteId) && e in Kids(b, Edges) && IsEdge(e, index)
  }

  ghost predicate HasPath(files: seq<Rec>, path: string) {
    exists f :: f in files && IsFile(f, path)
  }

  /** The reference checks for one metric. */
  ghost predicate Resolves(m: Meta, files: seq<Rec>) {
    m.MetricMeta? ==>
      && HasPath(files, m.file)
      && match m.metricKind {
           case FunctionMetric => HasFunction(files, m.file, m.function_)
           case StatementMetric => HasSite(files, m.file, m.site)
           case BranchMetric => HasEdge(files, m.file, m.site, m.edgeIndex)
         }
  }

  ghost predicate AllResolve(metrics: seq<Rec>, files: seq<Rec>) {
    forall r :: r in metrics ==> Resolves(r.meta, files)
  }

  // ---------------------------------------------------------------- references survive

  lemma {:induction false} PathKept(fs: seq<Rec>, path: string)
    requires Consistent(fs, FileKind) && HasPath(fs, path)
    ensures HasPath(Rebuilt(fs), path)
  {
    var f :| f in fs && IsFile(f, path);
    var m := Kept(fs, FileKind, f);
    RebuiltFile(fs, m);
  }

  lemma {:induction false} FunctionKept(fs: seq<Rec>, path: string, name: string)
    requires Consistent(fs, FileKind) && HasFunction(fs, path, name)
    ensures HasFunction(Rebuilt(fs), path, name)
  {
    var f, g :| f in fs && IsFile(f, path) && g in Kids(f, Functions) && IsFunction(g, name);
    var file, x := ChildKept(fs, f, Functions, g);
    assert IsFile(file, path) && IsFunction(x, name);
  }

  lemma {:induction false} ShowSite(files: seq<Rec>, f: Rec, x: Rec, path: string, siteId: string)
    requires f in files && IsFile(f, path) && x in Kids(f, Sites) + Kids(f, Branches) && HasId(x, siteId)
    ensures HasSite(files, path, siteId)
  {}

  lemma {:induction false} SiteKept(fs: seq<Rec>, path: string, siteId: string)
    requires Consistent(fs, FileKind) && HasSite(fs, path, siteId)
    ensures HasSite(Rebuilt(fs), path, siteId)
  {
    var f, c :| f in fs && IsFile(f, path) && c in Kids(f, Sites) + Kids(f, Branches) && HasId(c, siteId);
    if c in Kids(f, Sites) {
      var file, x := ChildKept(fs, f, Sites, c);
      ShowSite(Rebuilt(fs), file, x, path, siteId);
    } else {
      var file, x := ChildKept(fs, f, Branches, c);
      ShowSite(Rebuilt(fs), file, x, path, siteId);
    }
  }

  lemma {:induction false} EdgeKept(fs: seq<Rec>, path: string, siteId: string, index: int)
    requires Consistent(fs, FileKind) && HasEdge(fs, path, siteId, index)
    ensures HasEdge(Rebuilt(fs), path, siteId, index)
  {
    var f, b, e :| f in fs && IsFile(f, path) && b in Kids(f, Branches) && HasId(b, siteId)
      && e in Kids(b, Edges) && IsEdge(e, index);
    var file, x := ChildKept(fs, f, Branches, b);
    var y := KeptChild(x, Edges, e);
    assert IsFile(file, path) && HasId(x, siteId) && IsEdge(y, index);
  }

  /** What resolves in the shards' files resolves in the merged ones. */
  lemma {:induction false} ReferenceKept(fs: seq<Rec>, m: Meta)
    requires Consistent(fs, FileKind) && Resolves(m, fs)
    ensures Resolves(m, Rebuilt(fs))
  {
    if m.MetricMeta? {
      PathKept(fs, m.file);
      match m.metricKind
      case FunctionMetric => FunctionKept(fs, m.file, m.function_);
      case StatementMetric => SiteKept(fs, m.file, m.site);
      case BranchMetric => EdgeKept(fs, m.file, m.site, m.edgeIndex);
    }
  }

  // ---------------------------------------------------------------- the merged metrics

  /** Every merged metric was a metric of some shard. */
  lemma {:induction false} MetricOrigin(cs: seq<Context>, r: Rec) returns (s: Rec)
    requires (forall id :: id in Ids(cs) ==> ContextAccepted(cs, id)) && r in AllMetrics(MergedContexts(cs))
    ensures s in AllMetrics(cs) && s.meta == r.meta
  {
    FlatMapMember(MergedContexts(cs), MetricsOf, r);
    var c :| c in MergedContexts(cs) && r in MetricsOf(c);
    RowOrigin(cs, c);
    SameNonEmpty(cs, c.contextId);
    var d;
    d, s := MetricCopy(cs, c.contextId, r);
    FlatMapMember(cs, MetricsOf, s);
    assert s in MetricsOf(d);
  }

  lemma {:induction false} MetricCopy(cs: seq<Context>, id: string, r: Rec) returns (d: Context, s: Rec)
    requires Same(cs, id) != [] && ContextAccepted(cs, id) && r in MergedContext(cs, id).metrics
    ensures d in cs && s in d.metrics && s.meta == r.meta
  {
    var items := Origin(AllMetrics(Same(cs, id)), LeafKind, r);
    s := items[0];
    assert s in items;
    FlatMapMember(Same(cs, id), MetricsOf, s);
    d :| d in Same(cs, id) && s in MetricsOf(d);
    SameMember(cs, id, d);
  }

  /** Metrics of all shards, each resolved in its own shard's files, resolve after the merge. */
  lemma {:induction false} MergedReferencesResolve(shards: seq<seq<Rec>>, ms: seq<Measurement>)
    requires |shards| == |ms| && ms != [] && Accepted(ms)
    requires Consistent(FlatMap(shards, Whole), FileKind)
    requires forall i :: 0 <= i < |ms| ==> AllResolve(AllMetrics(ms[i].contexts), shards[i])
    ensures AllResolve(AllMetrics(MergedContexts(AllContexts(ms))), Rebuilt(FlatMap(shards, Whole)))
  {
    var fs, cs := FlatMap(shards, Whole), AllContexts(ms);
    forall r | r in AllMetrics(MergedContexts(cs))
      ensures Resolves(r.meta, Rebuilt(fs))
    {
      var s := MetricOrigin(cs, r);
      ShardReference(shards, ms, s);
      ReferenceKept(fs, s.meta);
    }
  }

  lemma {:induction false} ShardReference(shards: seq<seq<Rec>>, ms: seq<Measurement>, s: Rec)
    requires |shards| == |ms| && s in AllMetrics(AllContexts(ms))
    requires forall i :: 0 <= i < |ms| ==> AllResolve(AllMetrics(ms[i].contexts), shards[i])
    ensures Resolves(s.meta, FlatMap(shards, Whole))
  {
    FlatMapMember(AllContexts(ms), MetricsOf, s);
    var c :| c in AllContexts(ms) && s in MetricsOf(c);
    FlatMapMember(ms, ContextsOf, c);
    var m :| m in ms && c in ContextsOf(m);
    var i :| 0 <= i < |ms| && ms[i] == m;
    FlatMapMember(m.contexts, MetricsOf, s);
    assert AllResolve(AllMetrics(ms[i].contexts), shards[i]);
    forall f | f in shards[i]
      ensures f in FlatMap(shards, Whole)
    {
      FlatMapMember(shards, Whole, f);
      assert f in Whole(shards[i]);
    }
    MoreFiles(s.meta, shards[i], FlatMap(shards, Whole));
  }

  lemma {:induction false} MoreFiles(m: Meta, a: seq<Rec>, b: seq<Rec>)
    requires Resolves(m, a) && forall f :: f in a ==> f in b
    ensures Resolves(m, b)
  {}

  // ---------------------------------------------------------------- the whole artifact

  /** `validate_coverage_artifact`: files, summary, attribution and the references between them. */
  ghost predicate ArtifactOk(files: seq<Rec>, summary: Summary, m: Measurement) {
    && FilesOk(files) && SummaryOk(summary, files)
    && MeasurementOk(m)
    && AllResolve(AllMetrics(m.contexts), files)
  }

  /** A coverage artifact merged from checked, coherent shards passes the checker if and only if the
      shards' files pass path by path and meet the summary condition, and their contexts are storable. */
  lemma {:induction false} WholeArtifactAccepted(
      shards: seq<seq<Rec>>, summaries: seq<Summary>, ms: seq<Measurement>)
    requires |shards| == |summaries| == |ms| && ms != []
    requires forall i :: 0 <= i < |ms| ==> ArtifactOk(shards[i], summaries[i], ms[i])
    requires Consistent(FlatMap(shards, Whole), FileKind) && Coherent(FlatMap(shards, Whole)) && Accepted(ms)
    ensures var fs := FlatMap(shards, Whole);
            var rows := MergedContexts(AllContexts(ms));
            var summary := RecomputeSummary(Rebuilt(fs), summaries[0]);
            ArtifactOk(Rebuilt(fs), summary, Measurement(ms[0].header, rows, TotalsOf(rows, ms))) <==>
            && (forall p :: p in Keys(fs) ==> PathAccepted(Copies(fs, p)))
            && SummaryCondition(fs, summaries[0])
            && Storable(ms[0].header, AllContexts(ms))
  {
    ShardParts(shards, summaries, ms);
    MergedArtifactAccepted(shards, summaries[0]);
    MergedMeasurementAccepted(ms);
    MergedReferencesResolve(shards, ms);
  }

  lemma {:induction false} ShardParts(shards: seq<seq<Rec>>, summaries: seq<Summary>, ms: seq<Measurement>)
    requires |shards| == |summaries| == |ms| && ms != []
    requires forall i :: 0 <= i < |ms| ==> ArtifactOk(shards[i], summaries[i], ms[i])
    ensures forall shard :: shard in shards ==> FilesOk(shard)
    ensures forall m :: m in ms ==> MeasurementOk(m)
    ensures forall i :: 0 <= i < |ms| ==> AllResolve(AllMetrics(ms[i].contexts), shards[i])
    ensures forall reason :: reason in summaries[0].fallbackCounts ==> reason in FALLBACKS
  {
    forall i | 0 <= i < |ms|
      ensures FilesOk(shards[i]) && MeasurementOk(ms[i]) && AllResolve(AllMetrics(ms[i].contexts), shards[i])
    {
      assert ArtifactOk(shards[i], summaries[i], ms[i]);
    }
    assert ArtifactOk(shards[0], summaries[0], ms[0]);
  }
}
