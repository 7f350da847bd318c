/** Normalisation of a report and its coverage into joinable tables with string-built keys. */
module Tables {
  import opened Orders
  import opened Seqs
  import opened Text

  // ---------------------------------------------------------------- what is normalised

  datatype Test = Test(testId: string, caseId: string, attempts: seq<nat>)

  datatype Report = Report(runId: string, tests: seq<Test>, benchmarks: seq<string>, diagnostics: nat)

  datatype Function = Function(name: string, line: nat)

  datatype Site = Site(siteId: string, function_: string, edges: seq<string>)

  datatype File = File(path: string, functions: seq<Function>, statementSites: seq<Site>, branches: seq<Site>)

  datatype Context = Context(contextId: string, metrics: seq<string>)

  /** `declaredRun` is the run the coverage summary names, if it names one. */
  datatype Coverage = Coverage(declaredRun: Option<string>, files: seq<File>, contexts: seq<Context>)

  // ---------------------------------------------------------------- tables

  datatype Table =
    | Runs | Tests | Attempts | Benchmarks | Diagnostics | CoverageRuns | CoverageFiles | CoverageFunctions
    | CoverageSites | CoverageEdges | CoverageContexts | CoverageContextMetrics

  /** The order of insertion. */
  const TABLES: seq<Table> := [
    Runs, Tests, Attempts, Benchmarks, Diagnostics, CoverageRuns, CoverageFiles, CoverageFunctions,
    CoverageSites, CoverageEdges, CoverageContexts, CoverageContextMetrics
  ]

  /** The table that a table's foreign key refers to. */
  function Parent(t: Table): Option<Table> {
    match t
    case Runs => None
    case Tests => Some(Runs)
    case Attempts => Some(Tests)
    case Benchmarks => Some(Runs)
    case Diagnostics => Some(Runs)
    case CoverageRuns => Some(Runs)
    case CoverageFiles => Some(Runs)
    case CoverageFunctions => Some(CoverageFiles)
    case CoverageSites => Some(CoverageFiles)
    case CoverageEdges => Some(CoverageSites)
    case CoverageContexts => Some(Runs)
    case CoverageContextMetrics => Some(CoverageContexts)
  }

  /** A row: its run, its primary key, the key it refers to, and a reference outside the foreign keys. */
  datatype Row = Row(runId: string, primary: seq<string>, foreign: seq<string>, link: string)

  type Payload = map<Table, seq<Row>>

  // ---------------------------------------------------------------- keys

  function Slash(a: string, b: string): string { a + "/" + b }

  function ExecutionId(t: Test): string { if t.caseId != "" then t.caseId else t.testId }

  function FileKey(run: string, path: string): string { Slash(run, path) }

  function FunctionKey(run: string, path: string, f: Function): string {
    Slash(Slash(FileKey(run, path), f.name), Decimal(f.line))
  }

  function SiteKey(run: string, path: string, s: Site): string { Slash(FileKey(run, path), s.siteId) }

  /** `functions_by_name.get(name, "")`: the first function of that name. */
  function Named(run: string, f: File, n: nat, name: string): string
    requires n <= |f.functions|
  {
    if n == 0 then ""
    else
      var before := Named(run, f, n - 1, name);
      if before == "" && f.functions[n - 1].name == name then FunctionKey(run, f.path, f.functions[n - 1]) else before
  }

  // ---------------------------------------------------------------- rows

  function TestRow(run: string): Test -> seq<Row> {
    (t: Test) => [Row(run, [run, ExecutionId(t)], [run], "")]
  }

  function AttemptRow(run: string, t: Test, n: nat): Row {
    Row(run, [Slash(Slash(run, ExecutionId(t)), Decimal(n))], [run, ExecutionId(t)], "")
  }

  function AttemptRow1(run: string, t: Test): nat -> seq<Row> { (n: nat) => [AttemptRow(run, t, n)] }

  function AttemptRows(run: string): Test -> seq<Row> { (t: Test) => FlatMap(t.attempts, AttemptRow1(run, t)) }

  function BenchmarkRow(run: string): string -> seq<Row> {
    (id: string) => if id == "" then [] else [Row(run, [run, id], [run], "")]
  }

  function DiagnosticRows(run: string, n: nat): seq<Row> {
    if n == 0 then []
    else DiagnosticRows(run, n - 1) + [Row(run, [Slash(Slash(run, "diagnostic"), Decimal(n - 1))], [run], "")]
  }

  function FileRow(run: string): File -> seq<Row> { (f: File) => [Row(run, [FileKey(run, f.path)], [run], "")] }

  function FunctionRow(run: string, path: string): Function -> seq<Row> {
    (f: Function) => [Row(run, [FunctionKey(run, path, f)], [FileKey(run, path)], "")]
  }

  function FunctionRows(run: string): File -> seq<Row> { (f: File) => FlatMap(f.functions, FunctionRow(run, f.path)) }

  function SiteRow(run: string, f: File): Site -> seq<Row> {
    (s: Site) => [Row(run, [SiteKey(run, f.path, s)], [FileKey(run, f.path)], Named(run, f, |f.functions|, s.function_))]
  }

  function Sites(f: File): seq<Site> { f.statementSites + f.branches }

  function SiteRows(run: string): File -> seq<Row> { (f: File) => FlatMap(Sites(f), SiteRow(run, f)) }

  function EdgeRow(run: string, path: string, s: Site): string -> seq<Row> {
    (edge: string) => [Row(run, [Slash(SiteKey(run, path, s), edge)], [SiteKey(run, path, s)], "")]
  }

  function EdgesOfSite(run: string, path: string): Site -> seq<Row> {
    (s: Site) => FlatMap(s.edges, EdgeRow(run, path, s))
  }

  function EdgeRows(run: string): File -> seq<Row> { (f: File) => FlatMap(Sites(f), EdgesOfSite(run, f.path)) }

  function ContextRow(run: string): Context -> seq<Row> {
    (c: Context) => [Row(run, [Slash(run, c.contextId)], [run], "")]
  }

  function MetricRow(run: string, c: Context): string -> seq<Row> {
    (id: string) => [Row(run, [run, Slash(run, c.contextId), id], [Slash(run, c.contextId)], "")]
  }

  function MetricRows(run: string): Context -> seq<Row> { (c: Context) => FlatMap(c.metrics, MetricRow(run, c)) }

  function FilesOf(coverage: Option<Coverage>): seq<File> { if coverage.Some? then coverage.value.files else [] }

  function ContextsOf(coverage: Option<Coverage>): seq<Context> { if coverage.Some? then coverage.value.contexts else [] }

  /** The rows of one table. */
  function RowsFor(r: Report, coverage: Option<Coverage>, t: Table): seq<Row> {
    var run := r.runId;
    match t
    case Runs => [Row(run, [run], [], "")]
    case Tests => FlatMap(r.tests, TestRow(run))
    case Attempts => FlatMap(r.tests, AttemptRows(run))
    case Benchmarks => FlatMap(r.benchmarks, BenchmarkRow(run))
    case Diagnostics => DiagnosticRows(run, r.diagnostics)
    case CoverageRuns => if coverage.Some? then [Row(run, [run], [run], "")] else []
    case CoverageFiles => FlatMap(FilesOf(coverage), FileRow(run))
    case CoverageFunctions => FlatMap(FilesOf(coverage), FunctionRows(run))
    case CoverageSites => FlatMap(FilesOf(coverage), SiteRows(run))
    case CoverageEdges => FlatMap(FilesOf(coverage), EdgeRows(run))
    case CoverageContexts => FlatMap(ContextsOf(coverage), ContextRow(run))
    case CoverageContextMetrics => FlatMap(ContextsOf(coverage), MetricRows(run))
  }

  /** The twelve tables of a report. */
  function Normalised(r: Report, coverage: Option<Coverage>): Payload {
    map t | t in TABLES :: RowsFor(r, coverage, t)
  }

  lemma {:induction false} TablesDistinct()
    ensures Distinct(TABLES) && forall t: Table :: t in TABLES
  {
    forall t: Table
      ensures t in TABLES
    {
      match t
      case Runs => assert TABLES[0] == t;
      case Tests => assert TABLES[1] == t;
      case Attempts => assert TABLES[2] == t;
      case Benchmarks => assert TABLES[3] == t;
      case Diagnostics => assert TABLES[4] == t;
      case CoverageRuns => assert TABLES[5] == t;
      case CoverageFiles => assert TABLES[6] == t;
      case CoverageFunctions => assert TABLES[7] == t;
      case CoverageSites => assert TABLES[8] == t;
      case CoverageEdges => assert TABLES[9] == t;
      case CoverageContexts => assert TABLES[10] == t;
      case CoverageContextMetrics => assert TABLES[11] == t;
    }
  }

  lemma {:induction false} EveryTable(r: Report, coverage: Option<Coverage>)
    ensures forall t: Table :: t in Normalised(r, coverage) && Normalised(r, coverage)[t] == RowsFor(r, coverage, t)
  {
    TablesDistinct();
  }

  // ---------------------------------------------------------------- the procedure

  method TestTables(run: string, tests: seq<Test>) returns (rows: seq<Row>, attempts: seq<Row>)
    ensures rows == FlatMap(tests, TestRow(run)) && attempts == FlatMap(tests, AttemptRows(run))
  {
    rows, attempts := [], [];
    for i := 0 to |tests|
      invariant rows == FlatMap(tests[..i], TestRow(run)) && attempts == FlatMap(tests[..i], AttemptRows(run))
    {
      var t := tests[i];
      FlatMapNext(tests, TestRow(run), i);
      FlatMapNext(tests, AttemptRows(run), i);
      var identity := if t.caseId != "" then t.caseId else t.testId;
      rows := rows + [Row(run, [run, identity], [run], "")];
      ghost var before := attempts;
      for j := 0 to |t.attempts|
        invariant attempts == before + FlatMap(t.attempts[..j], AttemptRow1(run, t))
      {
        FlatMapNext(t.attempts, AttemptRow1(run, t), j);
        attempts := attempts + [Row(run, [run + "/" + identity + "/" + Decimal(t.attempts[j])], [run, identity], "")];
      }
      assert t.attempts[..|t.attempts|] == t.attempts;
    }
    assert tests[..|tests|] == tests;
  }

  method FunctionTable(run: string, f: File) returns (rows: seq<Row>, byName: map<string, string>)
    ensures rows == FunctionRows(run)(f)
    ensures forall name :: Named(run, f, |f.functions|, name) == if name in byName then byName[name] else ""
  {
    rows, byName := [], map[];
    for i := 0 to |f.functions|
      invariant rows == FlatMap(f.functions[..i], FunctionRow(run, f.path))
      invariant forall name :: Named(run, f, i, name) == if name in byName then byName[name] else ""
      invariant forall name :: name in byName ==> byName[name] != ""
    {
      var g := f.functions[i];
      FlatMapNext(f.functions, FunctionRow(run, f.path), i);
      var fileKey := run + "/" + f.path;
      var key := fileKey + "/" + g.name + "/" + Decimal(g.line);
      if g.name !in byName {
        byName := byName[g.name := key];
      }
      rows := rows + [Row(run, [key], [fileKey], "")];
    }
    assert f.functions[..|f.functions|] == f.functions;
  }

  method EdgeTable(run: string, path: string, s: Site) returns (edges: seq<Row>)
    ensures edges == EdgesOfSite(run, path)(s)
  {
    edges := [];
    var key := run + "/" + path + "/" + s.siteId;
    for j := 0 to |s.edges|
      invariant edges == FlatMap(s.edges[..j], EdgeRow(run, path, s))
    {
      FlatMapNext(s.edges, EdgeRow(run, path, s), j);
      edges := edges + [Row(run, [key + "/" + s.edges[j]], [key], "")];
    }
    assert s.edges[..|s.edges|] == s.edges;
  }

  method SiteTables(run: string, f: File, byName: map<string, string>, sites: seq<Site>)
    returns (rows: seq<Row>, edges: seq<Row>)
    requires forall name :: Named(run, f, |f.functions|, name) == if name in byName then byName[name] else ""
    ensures rows == FlatMap(sites, SiteRow(run, f)) && edges == FlatMap(sites, EdgesOfSite(run, f.path))
  {
    rows, edges := [], [];
    for i := 0 to |sites|
      invariant rows == FlatMap(sites[..i], SiteRow(run, f))
      invariant edges == FlatMap(sites[..i], EdgesOfSite(run, f.path))
    {
      var s := sites[i];
      FlatMapNext(sites, SiteRow(run, f), i);
      FlatMapNext(sites, EdgesOfSite(run, f.path), i);
      var fileKey := run + "/" + f.path;
      var function_ := if s.function_ in byName then byName[s.function_] else "";
      rows := rows + [Row(run, [fileKey + "/" + s.siteId], [fileKey], function_)];
      var mine := EdgeTable(run, f.path, s);
      edges := edges + mine;
    }
    assert sites[..|sites|] == sites;
  }

  method FileTables(run: string, files: seq<File>)
    returns (rows: seq<Row>, functions: seq<Row>, sites: seq<Row>, edges: seq<Row>)
    ensures rows == FlatMap(files, FileRow(run)) && functions == FlatMap(files, FunctionRows(run))
    ensures sites == FlatMap(files, SiteRows(run)) && edges == FlatMap(files, EdgeRows(run))
  {
    rows, functions, sites, edges := [], [], [], [];
    for i := 0 to |files|
      invariant rows == FlatMap(files[..i], FileRow(run)) && functions == FlatMap(files[..i], FunctionRows(run))
      invariant sites == FlatMap(files[..i], SiteRows(run)) && edges == FlatMap(files[..i], EdgeRows(run))
    {
      var f := files[i];
      FlatMapNext(files, FileRow(run), i);
      FlatMapNext(files, FunctionRows(run), i);
      FlatMapNext(files, SiteRows(run), i);
      FlatMapNext(files, EdgeRows(run), i);
      rows := rows + [Row(run, [run + "/" + f.path], [run], "")];
      var mine, byName := FunctionTable(run, f);
      functions := functions + mine;
      var statements, none := SiteTables(run, f, byName, f.statementSites);
      var branches, both := SiteTables(run, f, byName, f.branches);
      FlatMapAppend(f.statementSites, f.branches, SiteRow(run, f));
      FlatMapAppend(f.statementSites, f.branches, EdgesOfSite(run, f.path));
      sites := sites + (statements + branches);
      edges := edges + (none + both);
    }
    assert files[..|files|] == files;
  }

  method ContextTables(run: string, contexts: seq<Context>) returns (rows: seq<Row>, metrics: seq<Row>)
    ensures rows == FlatMap(contexts, ContextRow(run)) && metrics == FlatMap(contexts, MetricRows(run))
  {
    rows, metrics := [], [];
    for i := 0 to |contexts|
      invariant rows == FlatMap(contexts[..i], ContextRow(run)) && metrics == FlatMap(contexts[..i], MetricRows(run))
    {
      var c := contexts[i];
      FlatMapNext(contexts, ContextRow(run), i);
      FlatMapNext(contexts, MetricRows(run), i);
      var key := run + "/" + c.contextId;
      rows := rows + [Row(run, [key], [run], "")];
      ghost var before := metrics;
      for j := 0 to |c.metrics|
        invariant metrics == before + FlatMap(c.metrics[..j], MetricRow(run, c))
      {
        FlatMapNext(c.metrics, MetricRow(run, c), j);
        metrics := metrics + [Row(run, [run, key, c.metrics[j]], [key], "")];
      }
      assert c.metrics[..|c.metrics|] == c.metrics;
    }
    assert contexts[..|contexts|] == contexts;
  }

  method PlainTables(run: string, ids: seq<string>, n: nat) returns (benchmarks: seq<Row>, diagnostics: seq<Row>)
    ensures benchmarks == FlatMap(ids, BenchmarkRow(run)) && diagnostics == DiagnosticRows(run, n)
  {
    benchmarks, diagnostics := [], [];
    for i := 0 to |ids|
      invariant benchmarks == FlatMap(ids[..i], BenchmarkRow(run))
    {
      FlatMapNext(ids, BenchmarkRow(run), i);
      if ids[i] != "" {
        benchmarks := benchmarks + [Row(run, [run, ids[i]], [run], "")];
      }
    }
    assert ids[..|ids|] == ids;
    for i := 0 to n
      invariant diagnostics == DiagnosticRows(run, i)
    {
      assert run + "/diagnostic/" == Slash(run, "diagnostic") + "/";
      diagnostics := diagnostics + [Row(run, [run + "/diagnostic/" + Decimal(i)], [run], "")];
    }
  }

  method FillLists(r: Report, coverage: Option<Coverage>) returns (lists: Lists)
    ensures Filled(r, coverage, lists)
  {
    var tests, attempts := TestTables(r.runId, r.tests);
    var benchmarks, diagnostics := PlainTables(r.runId, r.benchmarks, r.diagnostics);
    var files, functions, sites, edges := FileTables(r.runId, FilesOf(coverage));
    var contexts, metrics := ContextTables(r.runId, ContextsOf(coverage));
    lists := Lists(tests, attempts, benchmarks, diagnostics, files, functions, sites, edges, contexts, metrics);
  }

  /** `table_contract`, after validation: refused only when coverage belongs to another run. */
  method TableContract(r: Report, coverage: Option<Coverage>) returns (payload: Result<Payload>)
    ensures payload.Ok? <==> (coverage.Some? && coverage.value.declaredRun.Some? ==> coverage.value.declaredRun.value == r.runId)
    ensures payload.Ok? ==> payload.value == Normalised(r, coverage)
  {
    if coverage.Some? && coverage.value.declaredRun.Some? && coverage.value.declaredRun.value != r.runId {
      return Err("coverage summary runId contradicts report run");
    }
    var lists := FillLists(r, coverage);
    AllPicked(r, coverage, lists);
    payload := Ok(Assembled(r.runId, coverage.Some?, lists));
  }

  function Assembled(run: string, covered: bool, lists: Lists): Payload {
    map t | t in TABLES :: Pick(run, covered, lists, t)
  }

  /** The lists that `table_contract` fills, one per table. */
  datatype Lists = Lists(
    tests: seq<Row>, attempts: seq<Row>, benchmarks: seq<Row>, diagnostics: seq<Row>,
    files: seq<Row>, functions: seq<Row>, sites: seq<Row>, edges: seq<Row>, contexts: seq<Row>, metrics: seq<Row>)

  function Pick(run: string, covered: bool, lists: Lists, t: Table): seq<Row> {
    match t
    case Runs => [Row(run, [run], [], "")]
    case Tests => lists.tests
    case Attempts => lists.attempts
    case Benchmarks => lists.benchmarks
    case Diagnostics => lists.diagnostics
    case CoverageRuns => if covered then [Row(run, [run], [run], "")] else []
    case CoverageFiles => lists.files
    case CoverageFunctions => lists.functions
    case CoverageSites => lists.sites
    case CoverageEdges => lists.edges
    case CoverageContexts => lists.contexts
    case CoverageContextMetrics => lists.metrics
  }

  /** Every list holds the rows of its table. */
  ghost predicate Filled(r: Report, coverage: Option<Coverage>, lists: Lists) {
    var run, files, contexts := r.runId, FilesOf(coverage), ContextsOf(coverage);
    && lists.tests == FlatMap(r.tests, TestRow(run)) && lists.attempts == FlatMap(r.tests, AttemptRows(run))
    && lists.benchmarks == FlatMap(r.benchmarks, BenchmarkRow(run))
    && lists.diagnostics == DiagnosticRows(run, r.diagnostics)
    && lists.files == FlatMap(files, FileRow(run)) && lists.functions == FlatMap(files, FunctionRows(run))
    && lists.sites == FlatMap(files, SiteRows(run)) && lists.edges == FlatMap(files, EdgeRows(run))
    && lists.contexts == FlatMap(contexts, ContextRow(run)) && lists.metrics == FlatMap(contexts, MetricRows(run))
  }

  lemma {:induction false} AllPicked(r: Report, coverage: Option<Coverage>, lists: Lists)
    requires Filled(r, coverage, lists)
    ensures Assembled(r.runId, coverage.Some?, lists) == Normalised(r, coverage)
  {
    forall t: Table
      ensures Pick(r.runId, coverage.Some?, lists, t) == RowsFor(r, coverage, t)
    {
      PickedAt(r, coverage, lists, t);
    }
  }

  lemma {:induction false} PickedAt(r: Report, coverage: Option<Coverage>, lists: Lists, t: Table)
    requires Filled(r, coverage, lists)
    ensures Pick(r.runId, coverage.Some?, lists, t) == RowsFor(r, coverage, t)
  {
    match t
    case Runs =>
    case Tests =>
    case Attempts =>
    case Benchmarks =>
    case Diagnostics =>
    case CoverageRuns =>
    case _ => CoveragePicked(r, coverage, lists, t);
  }

  lemma {:induction false} CoveragePicked(r: Report, coverage: Option<Coverage>, lists: Lists, t: Table)
    requires Filled(r, coverage, lists)
    requires t.CoverageFiles? || t.CoverageFunctions? || t.CoverageSites? || t.CoverageEdges?
             || t.CoverageContexts? || t.CoverageContextMetrics?
    ensures Pick(r.runId, coverage.Some?, lists, t) == RowsFor(r, coverage, t)
  {
    match t
    case CoverageFiles =>
    case CoverageFunctions =>
    case CoverageSites =>
    case CoverageEdges =>
    case CoverageContexts =>
    case CoverageContextMetrics =>
  }
}
