/** What each table of a report holds, row by row, with the keys spelled out. */
module TableContents {
  import opened Seqs
  import opened Text
  import opened Tables

  function IdentityOf(t: Test): string { if t.caseId == "" then t.testId else t.caseId }

  predicate IsAttemptRow(run: string, t: Test, k: nat, x: Row) {
    x == Row(run, [run + "/" + IdentityOf(t) + "/" + Decimal(k)], [run, IdentityOf(t)], "")
  }

  predicate IsFunctionRow(run: string, path: string, g: Function, x: Row) {
    x == Row(run, [run + "/" + path + "/" + g.name + "/" + Decimal(g.line)], [run + "/" + path], "")
  }

  predicate IsEdgeRow(run: string, path: string, s: Site, edge: string, x: Row) {
    x == Row(run, [run + "/" + path + "/" + s.siteId + "/" + edge], [run + "/" + path + "/" + s.siteId], "")
  }

  predicate IsMetricRow(run: string, k: Context, id: string, x: Row) {
    x == Row(run, [run, run + "/" + k.contextId, id], [run + "/" + k.contextId], "")
  }

  // ---------------------------------------------------------------- tests, attempts, benchmarks, diagnostics

  /** One row per test, and one per attempt that refers to it. */
  lemma {:induction false} TestRowsMean(r: Report, coverage: Option<Coverage>, x: Row)
    ensures var n := Normalised(r, coverage);
      Runs in n && Tests in n && Attempts in n && n[Runs] == [Row(r.runId, [r.runId], [], "")]
      && (x in n[Tests] <==> exists t :: t in r.tests && x == Row(r.runId, [r.runId, IdentityOf(t)], [r.runId], ""))
      && (x in n[Attempts] <==> exists t, k :: t in r.tests && k in t.attempts && IsAttemptRow(r.runId, t, k, x))
  {
    EveryTable(r, coverage);
    TestListed(r.runId, r.tests, x);
    AttemptListed(r.runId, r.tests, x);
  }

  lemma {:induction false} TestListed(run: string, tests: seq<Test>, x: Row)
    ensures x in FlatMap(tests, TestRow(run)) <==>
            exists t :: t in tests && x == Row(run, [run, IdentityOf(t)], [run], "")
  {
    FlatMapMember(tests, TestRow(run), x);
    forall t: Test
      ensures x in TestRow(run)(t) <==> x == Row(run, [run, IdentityOf(t)], [run], "")
    {
    }
  }

  lemma {:induction false} AttemptListed(run: string, tests: seq<Test>, x: Row)
    ensures x in FlatMap(tests, AttemptRows(run)) <==>
            exists t, k :: t in tests && k in t.attempts && IsAttemptRow(run, t, k, x)
  {
    FlatMapMember(tests, AttemptRows(run), x);
    forall t: Test
      ensures x in AttemptRows(run)(t) <==> exists k :: k in t.attempts && IsAttemptRow(run, t, k, x)
    {
      AttemptOf(run, t, x);
    }
  }

  lemma {:induction false} AttemptOf(run: string, t: Test, x: Row)
    ensures x in AttemptRows(run)(t) <==> exists k :: k in t.attempts && IsAttemptRow(run, t, k, x)
  {
    FlatMapMember(t.attempts, AttemptRow1(run, t), x);
    forall k: nat
      ensures x in AttemptRow1(run, t)(k) <==> IsAttemptRow(run, t, k, x)
    {
    }
  }

  /** One row per benchmark with an identity, and one per diagnostic, numbered from zero. */
  lemma {:induction false} EvidenceRowsMean(r: Report, coverage: Option<Coverage>, x: Row)
    ensures var n := Normalised(r, coverage);
      Benchmarks in n && Diagnostics in n
      && (x in n[Benchmarks] <==> exists id :: id in r.benchmarks && id != "" && x == Row(r.runId, [r.runId, id], [r.runId], ""))
      && |n[Diagnostics]| == r.diagnostics
      && forall k: nat :: k < r.diagnostics ==>
           n[Diagnostics][k] == Row(r.runId, [r.runId + "/diagnostic/" + Decimal(k)], [r.runId], "")
  {
    EveryTable(r, coverage);
    BenchmarkListed(r.runId, r.benchmarks, x);
    DiagnosticsListed(r.runId, r.diagnostics);
  }

  lemma {:induction false} BenchmarkListed(run: string, ids: seq<string>, x: Row)
    ensures x in FlatMap(ids, BenchmarkRow(run)) <==>
            exists id :: id in ids && id != "" && x == Row(run, [run, id], [run], "")
  {
    FlatMapMember(ids, BenchmarkRow(run), x);
    forall id: string
      ensures x in BenchmarkRow(run)(id) <==> id != "" && x == Row(run, [run, id], [run], "")
    {
    }
  }

  lemma {:induction false} DiagnosticsListed(run: string, n: nat)
    ensures |DiagnosticRows(run, n)| == n
    ensures forall k: nat :: k < n ==> DiagnosticRows(run, n)[k] == Row(run, [run + "/diagnostic/" + Decimal(k)], [run], "")
  {
    if n > 0 {
      DiagnosticsListed(run, n - 1);
      assert run + "/diagnostic/" == Slash(run, "diagnostic") + "/";
    }
  }

  // ---------------------------------------------------------------- coverage

  /** A row for the run if there is coverage, and one per file. */
  lemma {:induction false} FileRowsMean(r: Report, c: Coverage, x: Row)
    ensures var run, n := r.runId, Normalised(r, Some(c));
      CoverageRuns in n && CoverageFiles in n && n[CoverageRuns] == [Row(run, [run], [run], "")]
      && (x in n[CoverageFiles] <==> exists f :: f in c.files && x == Row(run, [run + "/" + f.path], [run], ""))
  {
    EveryTable(r, Some(c));
    FileListed(r.runId, c.files, x);
  }

  /** One row per function, which refers to its file. */
  lemma {:induction false} FunctionRowsMean(r: Report, c: Coverage, x: Row)
    ensures var n := Normalised(r, Some(c));
      CoverageFunctions in n
      && (x in n[CoverageFunctions] <==>
            exists f, g :: f in c.files && g in f.functions && IsFunctionRow(r.runId, f.path, g, x))
  {
    EveryTable(r, Some(c));
    FunctionListed(r.runId, c.files, x);
  }

  lemma {:induction false} FileListed(run: string, files: seq<File>, x: Row)
    ensures x in FlatMap(files, FileRow(run)) <==> exists f :: f in files && x == Row(run, [run + "/" + f.path], [run], "")
  {
    FlatMapMember(files, FileRow(run), x);
    forall f: File
      ensures x in FileRow(run)(f) <==> x == Row(run, [run + "/" + f.path], [run], "")
    {
    }
  }

  lemma {:induction false} FunctionListed(run: string, files: seq<File>, x: Row)
    ensures x in FlatMap(files, FunctionRows(run)) <==>
            exists f, g :: f in files && g in f.functions && IsFunctionRow(run, f.path, g, x)
  {
    FlatMapMember(files, FunctionRows(run), x);
    forall f: File
      ensures x in FunctionRows(run)(f) <==> exists g :: g in f.functions && IsFunctionRow(run, f.path, g, x)
    {
      FunctionOf(run, f, x);
    }
  }

  lemma {:induction false} FunctionOf(run: string, f: File, x: Row)
    ensures x in FunctionRows(run)(f) <==> exists g :: g in f.functions && IsFunctionRow(run, f.path, g, x)
  {
    FlatMapMember(f.functions, FunctionRow(run, f.path), x);
    forall g: Function
      ensures x in FunctionRow(run, f.path)(g) <==> IsFunctionRow(run, f.path, g, x)
    {
    }
  }

  /** The link of a site: the key of the first function of that name, empty if there is none. */
  ghost predicate LinkTo(run: string, f: File, name: string, link: string) {
    if forall g :: g in f.functions ==> g.name != name then link == ""
    else exists i: nat :: i < |f.functions| && f.functions[i].name == name
           && (forall j :: 0 <= j < i ==> f.functions[j].name != name)
           && link == run + "/" + f.path + "/" + name + "/" + Decimal(f.functions[i].line)
  }

  lemma {:induction false} NamedLinks(run: string, f: File, n: nat, name: string)
    requires n <= |f.functions|
    ensures (forall j :: 0 <= j < n ==> f.functions[j].name != name) ==> Named(run, f, n, name) == ""
    ensures forall i: nat :: i < n && f.functions[i].name == name && (forall j :: 0 <= j < i ==> f.functions[j].name != name) ==>
              Named(run, f, n, name) == run + "/" + f.path + "/" + name + "/" + Decimal(f.functions[i].line)
  {
    if n > 0 { NamedLinks(run, f, n - 1, name); }
  }

  lemma {:induction false} FirstNamed(fs: seq<Function>, name: string) returns (i: nat)
    requires exists g :: g in fs && g.name == name
    ensures i < |fs| && fs[i].name == name && forall j :: 0 <= j < i ==> fs[j].name != name
  {
    i := 0;
    while fs[i].name != name
      invariant i < |fs| && forall j :: 0 <= j < i ==> fs[j].name != name
      invariant exists g :: g in fs[i..] && g.name == name
      decreases |fs| - i
    {
      i := i + 1;
    }
  }

  lemma {:induction false} NamedMeans(run: string, f: File, name: string)
    ensures LinkTo(run, f, name, Named(run, f, |f.functions|, name))
  {
    NamedLinks(run, f, |f.functions|, name);
    if exists g :: g in f.functions && g.name == name {
      var i := FirstNamed(f.functions, name);
    }
  }

  ghost predicate IsSite(f: File, s: Site) { s in f.statementSites || s in f.branches }

  /** One row per statement site and branch that refers to its file and links to its function, and one
      per edge that refers to its site. */
  lemma {:induction false} SiteRowsMean(r: Report, c: Coverage, x: Row)
    ensures var run, n := r.runId, Normalised(r, Some(c));
      CoverageSites in n && CoverageEdges in n
      && (x in n[CoverageSites] <==> exists f, s :: f in c.files && IsSite(f, s) && IsSiteRow(run, f, s, x))
      && (x in n[CoverageEdges] <==> exists f, s, edge :: f in c.files && IsSite(f, s) && edge in s.edges && IsEdgeRow(run, f.path, s, edge, x))
  {
    EveryTable(r, Some(c));
    SiteListed(r.runId, c.files, x);
    EdgeListed(r.runId, c.files, x);
  }

  ghost predicate IsSiteRow(run: string, f: File, s: Site, x: Row) {
    && x.runId == run && x.primary == [run + "/" + f.path + "/" + s.siteId] && x.foreign == [run + "/" + f.path]
    && LinkTo(run, f, s.function_, x.link)
  }

  lemma {:induction false} OneLink(run: string, f: File, name: string, a: string, b: string)
    requires LinkTo(run, f, name, a) && LinkTo(run, f, name, b)
    ensures a == b
  {}

  lemma {:induction false} SiteListed(run: string, files: seq<File>, x: Row)
    ensures x in FlatMap(files, SiteRows(run)) <==> exists f, s :: f in files && IsSite(f, s) && IsSiteRow(run, f, s, x)
  {
    FlatMapMember(files, SiteRows(run), x);
    forall f: File
      ensures x in SiteRows(run)(f) <==> exists s :: IsSite(f, s) && IsSiteRow(run, f, s, x)
    {
      SiteOf(run, f, x);
    }
  }

  lemma {:induction false} SiteOf(run: string, f: File, x: Row)
    ensures x in SiteRows(run)(f) <==> exists s :: IsSite(f, s) && IsSiteRow(run, f, s, x)
  {
    FlatMapMember(Sites(f), SiteRow(run, f), x);
    forall s: Site
      ensures x in SiteRow(run, f)(s) <==> IsSiteRow(run, f, s, x)
      ensures s in Sites(f) <==> IsSite(f, s)
    {
      NamedMeans(run, f, s.function_);
      if IsSiteRow(run, f, s, x) { OneLink(run, f, s.function_, x.link, Named(run, f, |f.functions|, s.function_)); }
    }
  }

  lemma {:induction false} EdgeListed(run: string, files: seq<File>, x: Row)
    ensures x in FlatMap(files, EdgeRows(run)) <==> exists f, s, edge :: f in files && IsSite(f, s) && edge in s.edges && IsEdgeRow(run, f.path, s, edge, x)
  {
    FlatMapMember(files, EdgeRows(run), x);
    forall f: File
      ensures x in EdgeRows(run)(f) <==> exists s, edge :: IsSite(f, s) && edge in s.edges && IsEdgeRow(run, f.path, s, edge, x)
    {
      EdgesInFile(run, f, x);
    }
  }

  lemma {:induction false} EdgesInFile(run: string, f: File, x: Row)
    ensures x in EdgeRows(run)(f) <==> exists s, edge :: IsSite(f, s) && edge in s.edges && IsEdgeRow(run, f.path, s, edge, x)
  {
    FlatMapMember(Sites(f), EdgesOfSite(run, f.path), x);
    forall s: Site
      ensures x in EdgesOfSite(run, f.path)(s) <==> exists edge :: edge in s.edges && IsEdgeRow(run, f.path, s, edge, x)
      ensures s in Sites(f) <==> IsSite(f, s)
    {
      EdgesAt(run, f.path, s, x);
    }
  }

  lemma {:induction false} EdgesAt(run: string, path: string, s: Site, x: Row)
    ensures x in EdgesOfSite(run, path)(s) <==> exists edge :: edge in s.edges && IsEdgeRow(run, path, s, edge, x)
  {
    FlatMapMember(s.edges, EdgeRow(run, path, s), x);
    forall edge: string
      ensures x in EdgeRow(run, path, s)(edge) <==> IsEdgeRow(run, path, s, edge, x)
    {
    }
  }

  /** One row per context, and one per metric that refers to it. */
  lemma {:induction false} ContextRowsMean(r: Report, c: Coverage, x: Row)
    ensures var run, n := r.runId, Normalised(r, Some(c));
      CoverageContexts in n && CoverageContextMetrics in n
      && (x in n[CoverageContexts] <==> exists k :: k in c.contexts && x == Row(run, [run + "/" + k.contextId], [run], ""))
      && (x in n[CoverageContextMetrics] <==> exists k, id :: k in c.contexts && id in k.metrics && IsMetricRow(run, k, id, x))
  {
    EveryTable(r, Some(c));
    ContextListed(r.runId, c.contexts, x);
    MetricListed(r.runId, c.contexts, x);
  }

  lemma {:induction false} ContextListed(run: string, contexts: seq<Context>, x: Row)
    ensures x in FlatMap(contexts, ContextRow(run)) <==>
            exists k :: k in contexts && x == Row(run, [run + "/" + k.contextId], [run], "")
  {
    FlatMapMember(contexts, ContextRow(run), x);
    forall k: Context
      ensures x in ContextRow(run)(k) <==> x == Row(run, [run + "/" + k.contextId], [run], "")
    {
    }
  }

  lemma {:induction false} MetricListed(run: string, contexts: seq<Context>, x: Row)
    ensures x in FlatMap(contexts, MetricRows(run)) <==>
            exists k, id :: k in contexts && id in k.metrics && IsMetricRow(run, k, id, x)
  {
    FlatMapMember(contexts, MetricRows(run), x);
    forall k: Context
      ensures x in MetricRows(run)(k) <==> exists id :: id in k.metrics && IsMetricRow(run, k, id, x)
    {
      MetricOf(run, k, x);
    }
  }

  lemma {:induction false} MetricOf(run: string, k: Context, x: Row)
    ensures x in MetricRows(run)(k) <==> exists id :: id in k.metrics && IsMetricRow(run, k, id, x)
  {
    FlatMapMember(k.metrics, MetricRow(run, k), x);
    forall id: string
      ensures x in MetricRow(run, k)(id) <==> IsMetricRow(run, k, id, x)
    {
    }
  }

  /** Without coverage its seven tables are empty. */
  lemma {:induction false} NothingWithoutCoverage(r: Report, t: Table)
    requires t in TABLES[5..]
    ensures t in Normalised(r, None) && Normalised(r, None)[t] == []
  {
    EveryTable(r, None);
  }
}
