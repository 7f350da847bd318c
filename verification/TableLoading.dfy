/** Which normalised reports load, and what any run of loads keeps. */
module TableLoading {
  import opened Orders
  import opened Seqs
  import opened Text
  import opened Tables
  import opened Loading
  import opened KeyIntegrity

  // ---------------------------------------------------------------- keys across tables

  lemma {:induction false} TaggedItem(rows: seq<Row>, t: Table, i: Item)
    ensures i in FlatMap(rows, Tagged(t)) <==> i.table == t && i.row in rows
  {
    FlatMapMember(rows, Tagged(t), i);
    if i.table == t && i.row in rows { assert i in Tagged(t)(i.row); }
  }

  lemma {:induction false} TaggedAt(rows: seq<Row>, t: Table)
    ensures |FlatMap(rows, Tagged(t))| == |rows|
    ensures forall i :: 0 <= i < |rows| ==> FlatMap(rows, Tagged(t))[i] == Item(t, rows[i])
  {
    if rows != [] { TaggedAt(rows[1..], t); }
  }

  lemma {:induction false} TableUnique(rows: seq<Row>, t: Table)
    ensures DistinctKeys(FlatMap(rows, Tagged(t))) <==> Unique(rows)
  {
    TaggedAt(rows, t);
    var items := FlatMap(rows, Tagged(t));
    if DistinctKeys(items) {
      forall i, j | 0 <= i < j < |rows|
        ensures rows[i].primary != rows[j].primary
      {
        assert KeyOf(items[i]) != KeyOf(items[j]);
      }
    }
    if Unique(rows) {
      forall i, j | 0 <= i < j < |items|
        ensures KeyOf(items[i]) != KeyOf(items[j])
      {
        assert rows[i].primary != rows[j].primary;
      }
    }
  }

  lemma {:induction false} DistinctAppend(a: seq<Item>, b: seq<Item>)
    requires forall i, j :: i in a && j in b ==> KeyOf(i) != KeyOf(j)
    ensures DistinctKeys(a + b) <==> DistinctKeys(a) && DistinctKeys(b)
  {
    var all := a + b;
    if DistinctKeys(all) {
      forall i, j | 0 <= i < j < |a|
        ensures KeyOf(a[i]) != KeyOf(a[j])
      {
        assert KeyOf(all[i]) != KeyOf(all[j]);
      }
      forall i, j | 0 <= i < j < |b|
        ensures KeyOf(b[i]) != KeyOf(b[j])
      {
        assert KeyOf(all[|a| + i]) != KeyOf(all[|a| + j]);
      }
    }
    if DistinctKeys(a) && DistinctKeys(b) {
      forall i, j | 0 <= i < j < |all|
        ensures KeyOf(all[i]) != KeyOf(all[j])
      {
        if i < |a| <= j { assert a[i] in a && b[j - |a|] in b; }
      }
    }
  }

  lemma {:induction false} ItemIn(tables: seq<Table>, p: Payload, i: Item)
    requires forall t :: t in tables ==> t in p
    ensures i in FlatMap(tables, ItemsOf(p)) <==> i.table in tables && i.table in p && i.row in p[i.table]
  {
    FlatMapMember(tables, ItemsOf(p), i);
    if t :| t in tables && i in ItemsOf(p)(t) { TaggedItem(p[t], t, i); }
    if i.table in tables && i.table in p && i.row in p[i.table] {
      TaggedItem(p[i.table], i.table, i);
      assert i in ItemsOf(p)(i.table);
    }
  }

  /** Keys are compared within a table. */
  lemma {:induction false} KeysByTable(tables: seq<Table>, p: Payload)
    requires Distinct(tables) && forall t :: t in tables ==> t in p
    ensures DistinctKeys(FlatMap(tables, ItemsOf(p))) <==> forall t :: t in tables ==> Unique(p[t])
  {
    if tables != [] {
      var t, rest := tables[0], tables[1..];
      assert tables == [t] + rest;
      KeysByTable(rest, p);
      assert t !in rest by { TailElements(tables); }
      forall i, j | i in ItemsOf(p)(t) && j in FlatMap(rest, ItemsOf(p))
        ensures KeyOf(i) != KeyOf(j)
      {
        TaggedItem(p[t], t, i);
        ItemIn(rest, p, j);
      }
      DistinctAppend(ItemsOf(p)(t), FlatMap(rest, ItemsOf(p)));
      TableUnique(p[t], t);
    }
  }

  // ---------------------------------------------------------------- references

  /** Every table is listed after the table it refers to. */
  lemma {:induction false} ParentsFirst(n: nat)
    requires n < |TABLES|
    ensures Parent(TABLES[n]).Some? ==> Parent(TABLES[n]).value in TABLES[..n]
  {
    var before := TABLES[..n];
    if n > 0 { assert before[0] == Runs; }
    if n > 1 { assert before[1] == Tests; }
    if n > 6 { assert before[6] == CoverageFiles; }
    if n > 8 { assert before[8] == CoverageSites; }
    if n > 10 { assert before[10] == CoverageContexts; }
  }

  /** Every row of a payload refers to a row of the payload. */
  ghost predicate References(p: Payload) {
    forall t, r :: t in p && r in p[t] && Parent(t).Some? ==> Refers(p, Parent(t).value, r.foreign)
  }

  ghost predicate Refers(p: Payload, t: Table, key: seq<string>) {
    t in p && exists q :: q in p[t] && q.primary == key
  }

  lemma {:induction false} ParentsAppend(db: Rows, a: seq<Item>, b: seq<Item>)
    requires ParentsBefore(db, a) && forall i :: i in b && Target(i).Some? ==> Target(i).value in KeysOf(a)
    ensures ParentsBefore(db, a + b)
  {
    var all := a + b;
    forall i | 0 <= i < |all| && Target(all[i]).Some?
      ensures Target(all[i]).value in db.Keys + KeysOf(all[..i])
    {
      if i < |a| {
        assert all[i] == a[i] && all[..i] == a[..i];
      } else {
        assert all[i] == b[i - |a|] && all[i] in b;
        assert forall x :: x in a ==> x in all[..i] by {
          forall x | x in a
            ensures x in all[..i]
          {
            var k :| 0 <= k < |a| && a[k] == x;
            assert all[..i][k] == x;
          }
        }
      }
    }
  }

  /** The table order keeps references satisfied at every prefix of the insertion. */
  lemma {:induction false} ReferencesInOrder(db: Rows, p: Payload, n: nat)
    requires WellFormed(p) && References(p) && n <= |TABLES|
    ensures ParentsBefore(db, FlatMap(TABLES[..n], ItemsOf(p)))
  {
    if n > 0 {
      var before := TABLES[..n - 1];
      var t := TABLES[n - 1];
      ReferencesInOrder(db, p, n - 1);
      FlatMapNext(TABLES, ItemsOf(p), n - 1);
      ParentsFirst(n - 1);
      assert t in TABLES && t in p;
      forall i | i in ItemsOf(p)(t) && Target(i).Some?
        ensures Target(i).value in KeysOf(FlatMap(before, ItemsOf(p)))
      {
        TaggedItem(p[t], t, i);
        ParentListed(p, before, t, i.row);
      }
      ParentsAppend(db, FlatMap(before, ItemsOf(p)), ItemsOf(p)(t));
    }
  }

  lemma {:induction false} ParentListed(p: Payload, before: seq<Table>, t: Table, r: Row)
    requires WellFormed(p) && References(p) && t in p && r in p[t]
    requires Parent(t).Some? && Parent(t).value in before && forall u :: u in before ==> u in p
    ensures (Parent(t).value, r.foreign) in KeysOf(FlatMap(before, ItemsOf(p)))
  {
    var u := Parent(t).value;
    assert Refers(p, u, r.foreign);
    var q :| q in p[u] && q.primary == r.foreign;
    ItemIn(before, p, Item(u, q));
    assert KeyOf(Item(u, q)) == (u, r.foreign);
  }

  // ---------------------------------------------------------------- the run of a row

  /** The row's key carries its run. */
  ghost predicate OfRun(r: Row, run: string) {
    r.runId == run && '/' !in run && r.primary != [] && Head(r.primary[0]) == run
  }

  ghost predicate AllOfRun(rows: seq<Row>, run: string) {
    forall r :: r in rows ==> OfRun(r, run)
  }

  lemma {:induction false} GroupsOfRun<T>(s: seq<T>, f: T -> seq<Row>, run: string)
    requires forall x :: x in s ==> AllOfRun(f(x), run)
    ensures AllOfRun(FlatMap(s, f), run)
  {
    forall r | r in FlatMap(s, f)
      ensures OfRun(r, run)
    {
      FlatMapMember(s, f, r);
    }
  }

  lemma {:induction false} Headed(run: string, rest: string)
    requires '/' !in run
    ensures Head(run) == run && Head(Slash(run, rest)) == run
  {
    HeadAlone(run);
    HeadBeforeSlash(run, rest);
  }

  lemma {:induction false} HeadedTwice(run: string, a: string, b: string)
    requires '/' !in run
    ensures Head(Slash(Slash(run, a), b)) == run
  {
    assert Slash(Slash(run, a), b) == Slash(run, Slash(a, b));
    Headed(run, Slash(a, b));
  }

  lemma {:induction false} HeadedThrice(run: string, a: string, b: string, d: string)
    requires '/' !in run
    ensures Head(Slash(Slash(Slash(run, a), b), d)) == run
  {
    assert Slash(Slash(Slash(run, a), b), d) == Slash(Slash(run, Slash(a, b)), d);
    HeadedTwice(run, Slash(a, b), d);
  }

  lemma {:induction false} ReportRowsOfRun(r: Report)
    requires '/' !in r.runId
    ensures AllOfRun(FlatMap(r.tests, TestRow(r.runId)), r.runId)
    ensures AllOfRun(FlatMap(r.tests, AttemptRows(r.runId)), r.runId)
    ensures AllOfRun(FlatMap(r.benchmarks, BenchmarkRow(r.runId)), r.runId)
    ensures AllOfRun(DiagnosticRows(r.runId, r.diagnostics), r.runId)
  {
    var run := r.runId;
    Headed(run, "");
    GroupsOfRun(r.tests, TestRow(run), run);
    GroupsOfRun(r.benchmarks, BenchmarkRow(run), run);
    forall t | t in r.tests
      ensures AllOfRun(AttemptRows(run)(t), run)
    {
      forall n | n in t.attempts
        ensures AllOfRun(AttemptRow1(run, t)(n), run)
      {
        HeadedTwice(run, ExecutionId(t), Decimal(n));
      }
      GroupsOfRun(t.attempts, AttemptRow1(run, t), run);
    }
    GroupsOfRun(r.tests, AttemptRows(run), run);
    forall d | d in DiagnosticRows(run, r.diagnostics)
      ensures OfRun(d, run)
    {
      DiagnosticAt(run, r.diagnostics, d);
      var i :| 0 <= i < r.diagnostics && d == Row(run, [Slash(Slash(run, "diagnostic"), Decimal(i))], [run], "");
      HeadedTwice(run, "diagnostic", Decimal(i));
    }
  }

  lemma {:induction false} FileRowsOfRun(run: string, f: File)
    requires '/' !in run
    ensures AllOfRun(FileRow(run)(f), run) && AllOfRun(FunctionRows(run)(f), run)
    ensures AllOfRun(SiteRows(run)(f), run) && AllOfRun(EdgeRows(run)(f), run)
  {
    Headed(run, f.path);
    forall g | g in f.functions
      ensures AllOfRun(FunctionRow(run, f.path)(g), run)
    {
      HeadedThrice(run, f.path, g.name, Decimal(g.line));
    }
    GroupsOfRun(f.functions, FunctionRow(run, f.path), run);
    forall s | s in Sites(f)
      ensures AllOfRun(SiteRow(run, f)(s), run) && AllOfRun(EdgesOfSite(run, f.path)(s), run)
    {
      HeadedTwice(run, f.path, s.siteId);
      forall e | e in s.edges
        ensures AllOfRun(EdgeRow(run, f.path, s)(e), run)
      {
        HeadedThrice(run, f.path, s.siteId, e);
      }
      GroupsOfRun(s.edges, EdgeRow(run, f.path, s), run);
    }
    GroupsOfRun(Sites(f), SiteRow(run, f), run);
    GroupsOfRun(Sites(f), EdgesOfSite(run, f.path), run);
  }

  lemma {:induction false} ContextRowsOfRun(run: string, c: Context)
    requires '/' !in run
    ensures AllOfRun(ContextRow(run)(c), run) && AllOfRun(MetricRows(run)(c), run)
  {
    Headed(run, c.contextId);
    GroupsOfRun(c.metrics, MetricRow(run, c), run);
  }

  lemma {:induction false} PayloadOfRun(r: Report, coverage: Option<Coverage>, t: Table)
    requires '/' !in r.runId
    ensures AllOfRun(RowsFor(r, coverage, t), r.runId)
  {
    var run := r.runId;
    Headed(run, "");
    ReportRowsOfRun(r);
    forall f | f in FilesOf(coverage)
      ensures AllOfRun(FileRow(run)(f), run) && AllOfRun(FunctionRows(run)(f), run)
      ensures AllOfRun(SiteRows(run)(f), run) && AllOfRun(EdgeRows(run)(f), run)
    {
      FileRowsOfRun(run, f);
    }
    GroupsOfRun(FilesOf(coverage), FileRow(run), run);
    GroupsOfRun(FilesOf(coverage), FunctionRows(run), run);
    GroupsOfRun(FilesOf(coverage), SiteRows(run), run);
    GroupsOfRun(FilesOf(coverage), EdgeRows(run), run);
    forall c | c in ContextsOf(coverage)
      ensures AllOfRun(ContextRow(run)(c), run) && AllOfRun(MetricRows(run)(c), run)
    {
      ContextRowsOfRun(run, c);
    }
    GroupsOfRun(ContextsOf(coverage), ContextRow(run), run);
    GroupsOfRun(ContextsOf(coverage), MetricRows(run), run);
  }

  // ---------------------------------------------------------------- references of a payload

  ghost predicate AllRefer(rows: seq<Row>, parents: seq<Row>) {
    forall r :: r in rows ==> Has(parents, r.foreign)
  }

  ghost predicate Has(rows: seq<Row>, key: seq<string>) {
    exists q :: q in rows && q.primary == key
  }

  lemma {:induction false} GroupsRefer<T>(s: seq<T>, f: T -> seq<Row>, parents: seq<Row>)
    requires forall x :: x in s ==> AllRefer(f(x), parents)
    ensures AllRefer(FlatMap(s, f), parents)
  {
    forall r | r in FlatMap(s, f)
      ensures Has(parents, r.foreign)
    {
      FlatMapMember(s, f, r);
    }
  }

  lemma {:induction false} GroupHas<T>(s: seq<T>, f: T -> seq<Row>, x: T, q: Row)
    requires x in s && q in f(x)
    ensures Has(FlatMap(s, f), q.primary)
  {
    FlatMapMember(s, f, q);
  }

  lemma {:induction false} ReportRowsRefer(r: Report)
    ensures var runs := [Row(r.runId, [r.runId], [], "")];
            && AllRefer(FlatMap(r.tests, TestRow(r.runId)), runs)
            && AllRefer(FlatMap(r.benchmarks, BenchmarkRow(r.runId)), runs)
            && AllRefer(DiagnosticRows(r.runId, r.diagnostics), runs)
            && AllRefer(FlatMap(r.tests, AttemptRows(r.runId)), FlatMap(r.tests, TestRow(r.runId)))
  {
    var run := r.runId;
    var runs := [Row(run, [run], [], "")];
    assert runs[0] in runs;
    GroupsRefer(r.tests, TestRow(run), runs);
    GroupsRefer(r.benchmarks, BenchmarkRow(run), runs);
    forall d | d in DiagnosticRows(run, r.diagnostics)
      ensures Has(runs, d.foreign)
    {
      DiagnosticAt(run, r.diagnostics, d);
    }
    forall t | t in r.tests
      ensures AllRefer(AttemptRows(run)(t), FlatMap(r.tests, TestRow(run)))
    {
      GroupHas(r.tests, TestRow(run), t, TestRow(run)(t)[0]);
      forall a | a in AttemptRows(run)(t)
        ensures Has(FlatMap(r.tests, TestRow(run)), a.foreign)
      {
        AttemptMember(run, t, a);
      }
    }
    GroupsRefer(r.tests, AttemptRows(run), FlatMap(r.tests, TestRow(run)));
  }

  lemma {:induction false} FileRowsRefer(run: string, files: seq<File>, f: File)
    requires f in files
    ensures AllRefer(FunctionRows(run)(f), FlatMap(files, FileRow(run)))
    ensures AllRefer(SiteRows(run)(f), FlatMap(files, FileRow(run)))
    ensures AllRefer(EdgeRows(run)(f), FlatMap(files, SiteRows(run)))
  {
    var fileRows, siteRows := FlatMap(files, FileRow(run)), FlatMap(files, SiteRows(run));
    GroupHas(files, FileRow(run), f, FileRow(run)(f)[0]);
    GroupsRefer(f.functions, FunctionRow(run, f.path), fileRows);
    GroupsRefer(Sites(f), SiteRow(run, f), fileRows);
    forall s | s in Sites(f)
      ensures AllRefer(EdgesOfSite(run, f.path)(s), siteRows)
    {
      var q := SiteRow(run, f)(s)[0];
      FlatMapMember(Sites(f), SiteRow(run, f), q);
      assert q in SiteRow(run, f)(s);
      GroupHas(files, SiteRows(run), f, q);
      GroupsRefer(s.edges, EdgeRow(run, f.path, s), siteRows);
    }
    GroupsRefer(Sites(f), EdgesOfSite(run, f.path), siteRows);
  }

  lemma {:induction false} RunRefers(run: string)
    ensures Has([Row(run, [run], [], "")], [run])
  {
    var runs := [Row(run, [run], [], "")];
    assert runs[0] in runs;
  }

  lemma {:induction false} FilesRefer(run: string, files: seq<File>)
    ensures AllRefer(FlatMap(files, FileRow(run)), [Row(run, [run], [], "")])
  {
    RunRefers(run);
    GroupsRefer(files, FileRow(run), [Row(run, [run], [], "")]);
  }

  lemma {:induction false} FunctionsRefer(run: string, files: seq<File>)
    ensures AllRefer(FlatMap(files, FunctionRows(run)), FlatMap(files, FileRow(run)))
  {
    forall f | f in files
      ensures AllRefer(FunctionRows(run)(f), FlatMap(files, FileRow(run)))
    {
      FileRowsRefer(run, files, f);
    }
    GroupsRefer(files, FunctionRows(run), FlatMap(files, FileRow(run)));
  }

  lemma {:induction false} SitesRefer(run: string, files: seq<File>)
    ensures AllRefer(FlatMap(files, SiteRows(run)), FlatMap(files, FileRow(run)))
  {
    forall f | f in files
      ensures AllRefer(SiteRows(run)(f), FlatMap(files, FileRow(run)))
    {
      FileRowsRefer(run, files, f);
    }
    GroupsRefer(files, SiteRows(run), FlatMap(files, FileRow(run)));
  }

  lemma {:induction false} EdgesRefer(run: string, files: seq<File>)
    ensures AllRefer(FlatMap(files, EdgeRows(run)), FlatMap(files, SiteRows(run)))
  {
    forall f | f in files
      ensures AllRefer(EdgeRows(run)(f), FlatMap(files, SiteRows(run)))
    {
      FileRowsRefer(run, files, f);
    }
    GroupsRefer(files, EdgeRows(run), FlatMap(files, SiteRows(run)));
  }

  lemma {:induction false} ContextsRefer(run: string, contexts: seq<Context>)
    ensures AllRefer(FlatMap(contexts, ContextRow(run)), [Row(run, [run], [], "")])
  {
    RunRefers(run);
    GroupsRefer(contexts, ContextRow(run), [Row(run, [run], [], "")]);
  }

  lemma {:induction false} MetricsRefer(run: string, contexts: seq<Context>)
    ensures AllRefer(FlatMap(contexts, MetricRows(run)), FlatMap(contexts, ContextRow(run)))
  {
    forall c | c in contexts
      ensures AllRefer(MetricRows(run)(c), FlatMap(contexts, ContextRow(run)))
    {
      GroupHas(contexts, ContextRow(run), c, ContextRow(run)(c)[0]);
      GroupsRefer(c.metrics, MetricRow(run, c), FlatMap(contexts, ContextRow(run)));
    }
    GroupsRefer(contexts, MetricRows(run), FlatMap(contexts, ContextRow(run)));
  }

  lemma {:induction false} ReportTableRefers(r: Report, coverage: Option<Coverage>, t: Table)
    requires t == Tests || t == Attempts || t == Benchmarks || t == Diagnostics || t == CoverageRuns
    ensures AllRefer(RowsFor(r, coverage, t), RowsFor(r, coverage, Parent(t).value))
  {
    ReportRowsRefer(r);
    RunRefers(r.runId);
  }

  lemma {:induction false} FileTableRefers(r: Report, coverage: Option<Coverage>, t: Table)
    requires t == CoverageFiles || t == CoverageFunctions || t == CoverageSites || t == CoverageEdges
    ensures AllRefer(RowsFor(r, coverage, t), RowsFor(r, coverage, Parent(t).value))
  {
    match t
    case CoverageFiles => FilesTableRefers(r, coverage);
    case CoverageFunctions => FunctionsTableRefers(r, coverage);
    case CoverageSites => SitesTableRefers(r, coverage);
    case CoverageEdges => EdgesTableRefers(r, coverage);
  }

  lemma {:induction false} FilesTableRefers(r: Report, coverage: Option<Coverage>)
    ensures AllRefer(RowsFor(r, coverage, CoverageFiles), RowsFor(r, coverage, Parent(CoverageFiles).value))
  {
    FilesRefer(r.runId, FilesOf(coverage));
  }

  lemma {:induction false} FunctionsTableRefers(r: Report, coverage: Option<Coverage>)
    ensures AllRefer(RowsFor(r, coverage, CoverageFunctions), RowsFor(r, coverage, Parent(CoverageFunctions).value))
  {
    FunctionsRefer(r.runId, FilesOf(coverage));
  }

  lemma {:induction false} SitesTableRefers(r: Report, coverage: Option<Coverage>)
    ensures AllRefer(RowsFor(r, coverage, CoverageSites), RowsFor(r, coverage, Parent(CoverageSites).value))
  {
    SitesRefer(r.runId, FilesOf(coverage));
  }

  lemma {:induction false} EdgesTableRefers(r: Report, coverage: Option<Coverage>)
    ensures AllRefer(RowsFor(r, coverage, CoverageEdges), RowsFor(r, coverage, Parent(CoverageEdges).value))
  {
    EdgesRefer(r.runId, FilesOf(coverage));
  }

  lemma {:induction false} ContextTableRefers(r: Report, coverage: Option<Coverage>, t: Table)
    requires t == CoverageContexts || t == CoverageContextMetrics
    ensures AllRefer(RowsFor(r, coverage, t), RowsFor(r, coverage, Parent(t).value))
  {
    match t
    case CoverageContexts => ContextsRefer(r.runId, ContextsOf(coverage));
    case CoverageContextMetrics => MetricsRefer(r.runId, ContextsOf(coverage));
  }

  /** Every row of a table refers to a row of the table its foreign key names. */
  lemma {:induction false} PayloadRefers(r: Report, coverage: Option<Coverage>, t: Table)
    requires Parent(t).Some?
    ensures AllRefer(RowsFor(r, coverage, t), RowsFor(r, coverage, Parent(t).value))
  {
    if t == CoverageFiles || t == CoverageFunctions || t == CoverageSites || t == CoverageEdges {
      FileTableRefers(r, coverage, t);
    } else if t == CoverageContexts || t == CoverageContextMetrics {
      ContextTableRefers(r, coverage, t);
    } else {
      ReportTableRefers(r, coverage, t);
    }
  }

  lemma {:induction false} PayloadReferences(r: Report, coverage: Option<Coverage>)
    ensures References(Normalised(r, coverage))
  {
    var p := Normalised(r, coverage);
    EveryTable(r, coverage);
    forall t: Table, x: Row | t in p && x in p[t] && Parent(t).Some?
      ensures Refers(p, Parent(t).value, x.foreign)
    {
      PayloadRefers(r, coverage, t);
      assert Has(p[Parent(t).value], x.foreign);
    }
  }

  // ---------------------------------------------------------------- loading

  ghost predicate FunctionKeysUnique(r: Report, coverage: Option<Coverage>) {
    Unique(RowsFor(r, coverage, CoverageFunctions))
  }

  lemma {:induction false} TableKeysUnique(r: Report, coverage: Option<Coverage>, t: Table)
    requires InputOk(r, coverage) && t != CoverageFunctions
    ensures Unique(RowsFor(r, coverage, t))
  {
    var run := r.runId;
    match t
    case Runs =>
    case Tests => TestsUnique(run, r.tests);
    case Attempts => AttemptsUnique(run, r.tests);
    case Benchmarks => BenchmarksUnique(run, r.benchmarks);
    case Diagnostics => DiagnosticsUnique(run, r.diagnostics);
    case CoverageRuns =>
    case CoverageFiles => FilesUnique(run, FilesOf(coverage));
    case CoverageSites => if coverage.Some? { SitesUnique(run, FilesOf(coverage)); }
    case CoverageEdges => if coverage.Some? { EdgesUnique(run, FilesOf(coverage)); }
    case CoverageContexts => ContextsUnique(run, ContextsOf(coverage));
    case CoverageContextMetrics => MetricsUnique(run, ContextsOf(coverage));
  }

  /** All keys of a payload are unique exactly when the function keys are. */
  lemma {:induction false} PayloadKeysUnique(r: Report, coverage: Option<Coverage>)
    requires InputOk(r, coverage)
    ensures DistinctKeys(Items(Normalised(r, coverage))) <==> FunctionKeysUnique(r, coverage)
  {
    var p := Normalised(r, coverage);
    TablesDistinct();
    EveryTable(r, coverage);
    forall t: Table | t != CoverageFunctions
      ensures Unique(p[t])
    {
      TableKeysUnique(r, coverage, t);
    }
    KeysByTable(TABLES, p);
  }

  /** Every row belongs to a loaded run, and its key says so. */
  ghost predicate Tracked(db: Rows) {
    forall k: Key :: TrackedAt(db, k)
  }

  ghost predicate Loaded(db: Rows, run: string) { (Runs, [run]) in db }

  lemma {:induction false} PayloadItem(r: Report, coverage: Option<Coverage>, i: Item)
    requires '/' !in r.runId && i in Items(Normalised(r, coverage))
    ensures OfRun(i.row, r.runId)
  {
    EveryTable(r, coverage);
    PayloadOfRun(r, coverage, i.table);
    ItemIn(TABLES, Normalised(r, coverage), i);
  }

  lemma {:induction false} NoKeyClash(db: Rows, r: Report, coverage: Option<Coverage>, i: Item)
    requires Tracked(db) && !Loaded(db, r.runId) && '/' !in r.runId && i in Items(Normalised(r, coverage))
    ensures KeyOf(i) !in db
  {
    PayloadItem(r, coverage, i);
    assert TrackedAt(db, KeyOf(i));
  }

  lemma {:induction false} PayloadWellFormed(r: Report, coverage: Option<Coverage>)
    ensures WellFormed(Normalised(r, coverage))
  {
    EveryTable(r, coverage);
    TablesDistinct();
  }

  lemma {:induction false} PayloadParents(db: Rows, r: Report, coverage: Option<Coverage>)
    ensures ParentsBefore(db, Items(Normalised(r, coverage)))
  {
    PayloadWellFormed(r, coverage);
    PayloadReferences(r, coverage);
    assert TABLES[..|TABLES|] == TABLES;
    ReferencesInOrder(db, Normalised(r, coverage), |TABLES|);
  }

  /** The function keys are unique exactly when the functions read apart. */
  lemma {:induction false} FunctionsReadApart(r: Report, coverage: Option<Coverage>)
    requires InputOk(r, coverage)
    ensures FunctionKeysUnique(r, coverage) <==> ReadApart(FilesOf(coverage))
  {
    CheckedFiles(r, coverage);
    FunctionsUnique(r.runId, FilesOf(coverage));
  }

  lemma {:induction false} CheckedFiles(r: Report, coverage: Option<Coverage>)
    requires InputOk(r, coverage)
    ensures DistinctBy(FilesOf(coverage), PathOf) && forall f :: f in FilesOf(coverage) ==> Distinct(f.functions)
  {}

  /** A validated report of a new run loads if and only if no function of one file reads, path and name
      together, like a function on the same line number of another file. */
  lemma {:induction false} LoadsExactlyWhen(db: Rows, r: Report, coverage: Option<Coverage>)
    requires InputOk(r, coverage) && Tracked(db) && !Loaded(db, r.runId)
    ensures WellFormed(Normalised(r, coverage))
    ensures Loadable(db, Items(Normalised(r, coverage))) <==> ReadApart(FilesOf(coverage))
  {
    FunctionsReadApart(r, coverage);
    var items := Items(Normalised(r, coverage));
    PayloadWellFormed(r, coverage);
    PayloadKeysUnique(r, coverage);
    PayloadParents(db, r, coverage);
    forall i | i in items
      ensures KeyOf(i) !in db
    {
      NoKeyClash(db, r, coverage, i);
    }
  }

  /** In particular whenever no function name contains a slash. */
  lemma {:induction false} SlashFreeNamesLoad(db: Rows, r: Report, coverage: Option<Coverage>)
    requires InputOk(r, coverage) && Tracked(db) && !Loaded(db, r.runId)
    requires forall n :: n in NamesIn(FilesOf(coverage)) ==> '/' !in n
    ensures Loadable(db, Items(Normalised(r, coverage)))
  {
    SlashFreeIsSafe(NamesIn(FilesOf(coverage)));
    SafeKeys(r, coverage);
    LoadsExactlyWhen(db, r, coverage);
  }

  lemma {:induction false} NoSlashInRun()
    ensures '/' !in HexId("run", '1')
  {
    var id := HexId("run", '1');
    forall i | 0 <= i < |id|
      ensures id[i] != '/'
    {
      if i < 4 { assert id[i] == id[..4][i]; }
    }
  }

  lemma {:induction false} TwoFilesOk(run: string, f: File, g: File)
    requires |f.functions| == 1 && |g.functions| == 1 && f.path != g.path
    requires Sites(f) == [] && Sites(g) == []
    ensures CoverageOk(Coverage(Some(run), [f, g], []))
  {
    FlatMapTwo(f, g, SiteIds);
    FlatMapTwo(f, g, EdgeIds);
  }

  /** A validated report that is refused: function `b/c` of file `a` and function `c` of file `a/b`. */
  lemma {:induction false} SlashedNameIsRefused() returns (r: Report, coverage: Option<Coverage>)
    ensures InputOk(r, coverage) && !ReadApart(FilesOf(coverage))
    ensures forall db: Rows :: Tracked(db) && !Loaded(db, r.runId) ==> !Loadable(db, Items(Normalised(r, coverage)))
  {
    r := Report(HexId("run", '1'), [], [], 0);
    var f, g := File("a", [Function("b/c", 1)], [], []), File("a/b", [Function("c", 1)], [], []);
    coverage := Some(Coverage(Some(r.runId), [f, g], []));
    NoSlashInRun();
    TwoFilesOk(r.runId, f, g);
    var files := FilesOf(coverage);
    assert f in files && g in files && f.functions[0] in f.functions && g.functions[0] in g.functions;
    assert Slash(f.path, f.functions[0].name) == Slash(g.path, g.functions[0].name);
    forall db: Rows | Tracked(db) && !Loaded(db, r.runId)
      ensures !Loadable(db, Items(Normalised(r, coverage)))
    {
      LoadsExactlyWhen(db, r, coverage);
    }
  }

  /** Items of one run, its run row among them. */
  ghost predicate ItemsOfRun(items: seq<Item>, run: string) {
    && (forall i :: i in items ==> OfRun(i.row, run))
    && (exists i :: i in items && KeyOf(i) == (Runs, [run]))
    && (forall i :: i in items && i.table == Runs ==> i.row.primary == [run])
  }

  lemma {:induction false} RunKey(i: Item, run: string, other: string)
    requires KeyOf(i) == (Runs, [other]) && (i.table == Runs ==> i.row.primary == [run])
    ensures other == run
  {
    assert [run][0] == run && [other][0] == other;
  }

  /** A key of a database names its row's run, which is loaded. */
  ghost predicate TrackedAt(db: Rows, k: Key) {
    k in db ==> k.1 == db[k].primary && OfRun(db[k], db[k].runId) && (Runs, [db[k].runId]) in db
  }

  lemma {:induction false} ItemTracked(db: Rows, items: seq<Item>, run: string, next: Rows, k: Key)
    requires ItemsOfRun(items, run) && TrackedAt(db, k) && Extended(db, items, next)
    ensures TrackedAt(next, k) && Loaded(next, run)
  {
    if k in KeysOf(items) {
      var i :| i in items && KeyOf(i) == k;
    }
  }

  lemma {:induction false} ItemsTracked(db: Rows, items: seq<Item>, run: string, next: Rows)
    requires ItemsOfRun(items, run) && Tracked(db) && Extended(db, items, next)
    ensures Tracked(next) && Loaded(next, run)
  {
    forall k: Key
      ensures TrackedAt(next, k) && Loaded(next, run)
    {
      ItemTracked(db, items, run, next, k);
    }
  }

  lemma {:induction false} OnlyNewRun(db: Rows, items: seq<Item>, run: string, next: Rows, other: string)
    requires ItemsOfRun(items, run) && Extended(db, items, next)
    ensures Loaded(next, other) <==> other == run || Loaded(db, other)
  {
    if (Runs, [other]) in KeysOf(items) {
      var i :| i in items && KeyOf(i) == (Runs, [other]);
      RunKey(i, run, other);
    }
  }

  lemma {:induction false} PayloadItems(r: Report, coverage: Option<Coverage>)
    requires '/' !in r.runId
    ensures ItemsOfRun(Items(Normalised(r, coverage)), r.runId)
  {
    var items := Items(Normalised(r, coverage));
    RunRowListed(r, coverage);
    assert KeyOf(Item(Runs, Row(r.runId, [r.runId], [], ""))) == (Runs, [r.runId]);
    forall i | i in items
      ensures OfRun(i.row, r.runId) && (i.table == Runs ==> i.row.primary == [r.runId])
    {
      PayloadItem(r, coverage, i);
      if i.table == Runs { RunItem(r, coverage, i); }
    }
  }

  lemma {:induction false} StaysTracked(db: Rows, r: Report, coverage: Option<Coverage>, next: Rows)
    requires InputOk(r, coverage) && Tracked(db) && Extended(db, Items(Normalised(r, coverage)), next)
    ensures Tracked(next) && Loaded(next, r.runId)
    ensures forall other: string :: Loaded(next, other) ==> other == r.runId || Loaded(db, other)
    ensures forall other: string :: Loaded(db, other) ==> Loaded(next, other)
  {
    PayloadItems(r, coverage);
    var items := Items(Normalised(r, coverage));
    ItemsTracked(db, items, r.runId, next);
    forall other: string
      ensures Loaded(next, other) <==> other == r.runId || Loaded(db, other)
    {
      OnlyNewRun(db, items, r.runId, next, other);
    }
  }

  lemma {:induction false} RunRowListed(r: Report, coverage: Option<Coverage>)
    requires '/' !in r.runId
    ensures Item(Runs, Row(r.runId, [r.runId], [], "")) in Items(Normalised(r, coverage))
  {
    TablesDistinct();
    EveryTable(r, coverage);
    ItemIn(TABLES, Normalised(r, coverage), Item(Runs, Row(r.runId, [r.runId], [], "")));
  }

  lemma {:induction false} RunItem(r: Report, coverage: Option<Coverage>, i: Item)
    requires '/' !in r.runId && i in Items(Normalised(r, coverage)) && i.table == Runs
    ensures i.row.primary == [r.runId]
  {
    EveryTable(r, coverage);
    ItemIn(TABLES, Normalised(r, coverage), i);
    OnlyRunRow(r, coverage, i.row);
  }

  lemma {:induction false} OnlyRunRow(r: Report, coverage: Option<Coverage>, x: Row)
    requires x in RowsFor(r, coverage, Runs)
    ensures x.primary == [r.runId]
  {}

  /** One report of a run that is not loaded yet. */
  method LoadReport(db: Database, r: Report, coverage: Option<Coverage>) returns (ok: bool)
    requires db.Valid() && Tracked(db.rows) && InputOk(r, coverage) && !Loaded(db.rows, r.runId)
    modifies db
    ensures db.Valid() && Tracked(db.rows)
    ensures ok <==> ReadApart(FilesOf(coverage))
    ensures ok ==> Extended(old(db.rows), Items(Normalised(r, coverage)), db.rows)
    ensures ok ==> Loaded(db.rows, r.runId)
    ensures forall other: string :: Loaded(db.rows, other) ==> other == r.runId || Loaded(old(db.rows), other)
    ensures forall other: string :: Loaded(old(db.rows), other) ==> Loaded(db.rows, other)
    ensures !ok ==> db.rows == old(db.rows)
  {
    LoadsExactlyWhen(db.rows, r, coverage);
    ok := db.LoadPayload(Normalised(r, coverage));
    if ok { StaysTracked(old(db.rows), r, coverage, db.rows); }
  }

  /** A report whose function names are safe. */
  ghost predicate Safe(x: (Report, Option<Coverage>)) {
    InputOk(x.0, x.1) && SuffixFree(NamesIn(FilesOf(x.1)))
  }

  lemma {:induction false} SafeKeys(r: Report, coverage: Option<Coverage>)
    requires Safe((r, coverage))
    ensures ReadApart(FilesOf(coverage))
  {
    SuffixFreeReadsApart(r.runId, FilesOf(coverage));
  }

  /** ... and it stays loaded, as does everything loaded before. */
  method LoadSafe(db: Database, x: (Report, Option<Coverage>)) returns (ok: bool)
    requires db.Valid() && Tracked(db.rows) && Safe(x) && !Loaded(db.rows, x.0.runId)
    modifies db
    ensures db.Valid() && Tracked(db.rows) && ok
    ensures forall other: string :: Loaded(db.rows, other) <==> other == x.0.runId || Loaded(old(db.rows), other)
  {
    SafeKeys(x.0, x.1);
    ok := LoadReport(db, x.0, x.1);
  }

  /** Any sequence of reports with distinct runs loads completely, one transaction each. */
  method LoadReports(db: Database, reports: seq<(Report, Option<Coverage>)>) returns (loaded: nat)
    requires db.Valid() && Tracked(db.rows)
    requires forall i :: 0 <= i < |reports| ==> Safe(reports[i]) && !Loaded(db.rows, reports[i].0.runId)
    requires forall i, j :: 0 <= i < j < |reports| ==> reports[i].0.runId != reports[j].0.runId
    modifies db
    ensures db.Valid() && Tracked(db.rows)
    ensures loaded == |reports| && forall i :: 0 <= i < |reports| ==> Loaded(db.rows, reports[i].0.runId)
  {
    loaded := 0;
    for i := 0 to |reports|
      invariant db.Valid() && Tracked(db.rows) && loaded == i
      invariant forall k :: 0 <= k < i ==> Loaded(db.rows, reports[k].0.runId)
      invariant forall k :: i <= k < |reports| ==> !Loaded(db.rows, reports[k].0.runId)
    {
      ghost var before := db.rows;
      var ok := LoadSafe(db, reports[i]);
      forall k | 0 <= k < |reports|
        ensures Loaded(db.rows, reports[k].0.runId) <==> k == i || Loaded(before, reports[k].0.runId)
      {
        assert k != i ==> reports[k].0.runId != reports[i].0.runId;
      }
      if ok { loaded := loaded + 1; }
    }
  }
}
