/** Normalised tables always load: their string-built keys are unique and their references resolve. */
module KeyIntegrity {
  import opened Orders
  import opened Seqs
  import opened Text
  import opened Tables

  // ---------------------------------------------------------------- what validation guarantees

  ghost predicate DistinctBy<T>(s: seq<T>, key: T -> string) {
    forall i, j :: 0 <= i < j < |s| ==> key(s[i]) != key(s[j])
  }

  function PathOf(f: File): string { f.path }

  function ContextIdOf(c: Context): string { c.contextId }

  function SiteIds(f: File): seq<string> { seq(|Sites(f)|, (i: nat) requires i < |Sites(f)| => Sites(f)[i].siteId) }

  function EdgeIdsOf(s: Site): seq<string> { s.edges }

  function EdgeIds(f: File): seq<string> { FlatMap(Sites(f), EdgeIdsOf) }

  function ExecutionOf(t: Test): string { ExecutionId(t) }

  ghost predicate ReportOk(r: Report) {
    && '/' !in r.runId
    && DistinctBy(r.tests, ExecutionOf)
    && (forall t :: t in r.tests ==> Distinct(t.attempts))
    && Distinct(r.benchmarks)
  }

  /** The identity checks of a coverage artifact; site and edge identities have no slash by their format. */
  ghost predicate CoverageOk(c: Coverage) {
    && DistinctBy(c.files, PathOf)
    && (forall f :: f in c.files ==> Distinct(f.functions))
    && Distinct(FlatMap(c.files, SiteIds)) && (forall x :: x in FlatMap(c.files, SiteIds) ==> '/' !in x)
    && Distinct(FlatMap(c.files, EdgeIds)) && (forall x :: x in FlatMap(c.files, EdgeIds) ==> '/' !in x)
    && DistinctBy(c.contexts, ContextIdOf)
    && (forall x :: x in c.contexts ==> Distinct(x.metrics))
  }

  ghost predicate InputOk(r: Report, coverage: Option<Coverage>) {
    ReportOk(r) && (coverage.Some? ==> CoverageOk(coverage.value))
  }

  // ---------------------------------------------------------------- unique primary keys

  ghost predicate Unique(rows: seq<Row>) {
    forall i, j :: 0 <= i < j < |rows| ==> rows[i].primary != rows[j].primary
  }

  ghost predicate Apart(a: seq<Row>, b: seq<Row>) {
    forall r, s :: r in a && s in b ==> r.primary != s.primary
  }

  lemma {:induction false} UniqueAppend(a: seq<Row>, b: seq<Row>)
    ensures Unique(a + b) <==> Unique(a) && Unique(b) && Apart(a, b)
  {
    var all := a + b;
    if Unique(all) {
      forall i, j | 0 <= i < j < |a|
        ensures a[i].primary != a[j].primary
      {
        assert all[i].primary != all[j].primary;
      }
      forall i, j | 0 <= i < j < |b|
        ensures b[i].primary != b[j].primary
      {
        assert all[|a| + i].primary != all[|a| + j].primary;
      }
      forall r, s | r in a && s in b
        ensures r.primary != s.primary
      {
        var i :| 0 <= i < |a| && a[i] == r;
        var j :| 0 <= j < |b| && b[j] == s;
        assert all[i].primary != all[|a| + j].primary;
      }
    }
    if Unique(a) && Unique(b) && Apart(a, b) {
      forall i, j | 0 <= i < j < |all|
        ensures all[i].primary != all[j].primary
      {
        if i < |a| <= j {
          assert a[i] in a && b[j - |a|] in b;
        }
      }
    }
  }

  /** One group of rows per element: unique within groups and apart between them. */
  lemma {:induction false} UniqueGroups<T>(s: seq<T>, f: T -> seq<Row>)
    requires forall x :: x in s ==> Unique(f(x))
    requires forall i, j :: 0 <= i < j < |s| ==> Apart(f(s[i]), f(s[j]))
    ensures Unique(FlatMap(s, f))
  {
    if s != [] {
      var tail := s[1..];
      assert s == [s[0]] + tail;
      forall i, j | 0 <= i < j < |tail|
        ensures Apart(f(tail[i]), f(tail[j]))
      {
        assert Apart(f(s[i + 1]), f(s[j + 1]));
      }
      UniqueGroups(tail, f);
      forall r, q | r in f(s[0]) && q in FlatMap(tail, f)
        ensures r.primary != q.primary
      {
        FlatMapMember(tail, f, q);
        var x :| x in tail && q in f(x);
        var j :| 0 <= j < |tail| && tail[j] == x;
        assert Apart(f(s[0]), f(s[j + 1]));
      }
      UniqueAppend(f(s[0]), FlatMap(tail, f));
    }
  }

  // ---------------------------------------------------------------- the tables of one run

  lemma {:induction false} SlashInjective(run: string, a: string, b: string)
    requires Slash(run, a) == Slash(run, b)
    ensures a == b
  {
    assert Slash(run, a)[|run| + 1..] == a && Slash(run, b)[|run| + 1..] == b;
  }

  lemma {:induction false} LastPart(a: string, x: string, b: string, y: string)
    requires Slash(a, x) == Slash(b, y) && '/' !in x && '/' !in y
    ensures a == b && x == y
  {
    TailAfterSlash(Slash(a, x), a, x, b, y);
  }

  lemma {:induction false} NumberedPart(a: string, m: nat, b: string, n: nat)
    requires Slash(a, Decimal(m)) == Slash(b, Decimal(n))
    ensures a == b && m == n
  {
    NoSlash(m);
    NoSlash(n);
    LastPart(a, Decimal(m), b, Decimal(n));
    DecimalInjective(m, n);
  }

  lemma {:induction false} TestsUnique(run: string, tests: seq<Test>)
    requires DistinctBy(tests, ExecutionOf)
    ensures Unique(FlatMap(tests, TestRow(run)))
  {
    forall i, j | 0 <= i < j < |tests|
      ensures Apart(TestRow(run)(tests[i]), TestRow(run)(tests[j]))
    {
      assert ExecutionOf(tests[i]) != ExecutionOf(tests[j]);
      assert TestRow(run)(tests[i])[0].primary[1] == ExecutionId(tests[i]);
      assert TestRow(run)(tests[j])[0].primary[1] == ExecutionId(tests[j]);
    }
    UniqueGroups(tests, TestRow(run));
  }

  lemma {:induction false} AttemptKeyInjective(run: string, t: Test, m: nat, u: Test, n: nat)
    requires AttemptRow(run, t, m).primary == AttemptRow(run, u, n).primary
    ensures ExecutionId(t) == ExecutionId(u) && m == n
  {
    assert AttemptRow(run, t, m).primary[0] == AttemptRow(run, u, n).primary[0];
    NumberedPart(Slash(run, ExecutionId(t)), m, Slash(run, ExecutionId(u)), n);
    SlashInjective(run, ExecutionId(t), ExecutionId(u));
  }

  lemma {:induction false} AttemptsOfUnique(run: string, t: Test)
    requires Distinct(t.attempts)
    ensures Unique(AttemptRows(run)(t))
  {
    forall i, j | 0 <= i < j < |t.attempts|
      ensures Apart(AttemptRow1(run, t)(t.attempts[i]), AttemptRow1(run, t)(t.attempts[j]))
    {
      var m, n := t.attempts[i], t.attempts[j];
      assert m != n;
      if AttemptRow(run, t, m).primary == AttemptRow(run, t, n).primary { AttemptKeyInjective(run, t, m, t, n); }
    }
    UniqueGroups(t.attempts, AttemptRow1(run, t));
  }

  lemma {:induction false} AttemptMember(run: string, t: Test, r: Row)
    requires r in AttemptRows(run)(t)
    ensures exists n :: n in t.attempts && r == AttemptRow(run, t, n)
  {
    FlatMapMember(t.attempts, AttemptRow1(run, t), r);
    var n :| n in t.attempts && r in AttemptRow1(run, t)(n);
    assert r == AttemptRow(run, t, n);
  }

  lemma {:induction false} AttemptsUnique(run: string, tests: seq<Test>)
    requires DistinctBy(tests, ExecutionOf) && forall t :: t in tests ==> Distinct(t.attempts)
    ensures Unique(FlatMap(tests, AttemptRows(run)))
  {
    forall t | t in tests
      ensures Unique(AttemptRows(run)(t))
    {
      AttemptsOfUnique(run, t);
    }
    forall i, j | 0 <= i < j < |tests|
      ensures Apart(AttemptRows(run)(tests[i]), AttemptRows(run)(tests[j]))
    {
      var t, u := tests[i], tests[j];
      assert ExecutionOf(t) != ExecutionOf(u);
      forall r, s | r in AttemptRows(run)(t) && s in AttemptRows(run)(u)
        ensures r.primary != s.primary
      {
        AttemptMember(run, t, r);
        AttemptMember(run, u, s);
        var m :| m in t.attempts && r == AttemptRow(run, t, m);
        var n :| n in u.attempts && s == AttemptRow(run, u, n);
        if r.primary == s.primary { AttemptKeyInjective(run, t, m, u, n); }
      }
    }
    UniqueGroups(tests, AttemptRows(run));
  }

  lemma {:induction false} BenchmarksUnique(run: string, ids: seq<string>)
    requires Distinct(ids)
    ensures Unique(FlatMap(ids, BenchmarkRow(run)))
  {
    forall i, j | 0 <= i < j < |ids|
      ensures Apart(BenchmarkRow(run)(ids[i]), BenchmarkRow(run)(ids[j]))
    {
      forall r, s | r in BenchmarkRow(run)(ids[i]) && s in BenchmarkRow(run)(ids[j])
        ensures r.primary != s.primary
      {
        assert r.primary[1] == ids[i] && s.primary[1] == ids[j];
      }
    }
    UniqueGroups(ids, BenchmarkRow(run));
  }

  lemma {:induction false} DiagnosticAt(run: string, n: nat, r: Row)
    requires r in DiagnosticRows(run, n)
    ensures exists i :: 0 <= i < n && r == Row(run, [Slash(Slash(run, "diagnostic"), Decimal(i))], [run], "")
  {
    if r in DiagnosticRows(run, n - 1) { DiagnosticAt(run, n - 1, r); }
  }

  lemma {:induction false} DiagnosticsUnique(run: string, n: nat)
    ensures Unique(DiagnosticRows(run, n))
  {
    if n > 0 {
      DiagnosticsUnique(run, n - 1);
      var last := Row(run, [Slash(Slash(run, "diagnostic"), Decimal(n - 1))], [run], "");
      forall r | r in DiagnosticRows(run, n - 1)
        ensures r.primary != last.primary
      {
        DiagnosticAt(run, n - 1, r);
        var i :| 0 <= i < n - 1 && r == Row(run, [Slash(Slash(run, "diagnostic"), Decimal(i))], [run], "");
        if r.primary == last.primary {
          assert r.primary[0] == last.primary[0];
          NumberedPart(Slash(run, "diagnostic"), i, Slash(run, "diagnostic"), n - 1);
        }
      }
      UniqueAppend(DiagnosticRows(run, n - 1), [last]);
    }
  }

  lemma {:induction false} FilesUnique(run: string, files: seq<File>)
    requires DistinctBy(files, PathOf)
    ensures Unique(FlatMap(files, FileRow(run)))
  {
    forall i, j | 0 <= i < j < |files|
      ensures Apart(FileRow(run)(files[i]), FileRow(run)(files[j]))
    {
      assert PathOf(files[i]) != PathOf(files[j]);
      var r, s := FileRow(run)(files[i])[0], FileRow(run)(files[j])[0];
      if r.primary == s.primary {
        assert r.primary[0] == s.primary[0];
        SlashInjective(run, files[i].path, files[j].path);
      }
    }
    UniqueGroups(files, FileRow(run));
  }

  /** Row by row, the key ends in the given identity. */
  ghost predicate Aligned(rows: seq<Row>, ids: seq<string>) {
    |rows| == |ids| && forall i :: 0 <= i < |rows| ==> EndsIn(rows[i], ids[i])
  }

  ghost predicate EndsIn(r: Row, id: string) {
    exists a :: r.primary == [Slash(a, id)]
  }

  lemma {:induction false} AlignedGroups<T>(s: seq<T>, f: T -> seq<Row>, g: T -> seq<string>)
    requires forall x :: x in s ==> Aligned(f(x), g(x))
    ensures Aligned(FlatMap(s, f), FlatMap(s, g))
  {
    if s != [] {
      assert s[0] in s;
      AlignedGroups(s[1..], f, g);
    }
  }

  lemma {:induction false} AlignedUnique(rows: seq<Row>, ids: seq<string>)
    requires Aligned(rows, ids) && Distinct(ids) && forall x :: x in ids ==> '/' !in x
    ensures Unique(rows)
  {
    forall i, j | 0 <= i < j < |rows|
      ensures rows[i].primary != rows[j].primary
    {
      assert EndsIn(rows[i], ids[i]) && EndsIn(rows[j], ids[j]);
      var a :| rows[i].primary == [Slash(a, ids[i])];
      var b :| rows[j].primary == [Slash(b, ids[j])];
      assert ids[i] in ids && ids[j] in ids && ids[i] != ids[j];
      if rows[i].primary == rows[j].primary {
        assert rows[i].primary[0] == rows[j].primary[0];
        LastPart(a, ids[i], b, ids[j]);
      }
    }
  }

  function OneSiteId(s: Site): seq<string> { [s.siteId] }

  lemma {:induction false} SiteIdsFlat(sites: seq<Site>, ids: seq<string>)
    requires |ids| == |sites| && forall i :: 0 <= i < |ids| ==> ids[i] == sites[i].siteId
    ensures ids == FlatMap(sites, OneSiteId)
  {
    if sites != [] { SiteIdsFlat(sites[1..], ids[1..]); }
  }

  lemma {:induction false} SitesUnique(run: string, files: seq<File>)
    requires Distinct(FlatMap(files, SiteIds)) && forall x :: x in FlatMap(files, SiteIds) ==> '/' !in x
    ensures Unique(FlatMap(files, SiteRows(run)))
  {
    forall f | f in files
      ensures Aligned(SiteRows(run)(f), SiteIds(f))
    {
      forall s | s in Sites(f)
        ensures Aligned(SiteRow(run, f)(s), OneSiteId(s))
      {
        assert SiteRow(run, f)(s)[0].primary == [Slash(FileKey(run, f.path), s.siteId)];
      }
      AlignedGroups(Sites(f), SiteRow(run, f), OneSiteId);
      SiteIdsFlat(Sites(f), SiteIds(f));
    }
    AlignedGroups(files, SiteRows(run), SiteIds);
    AlignedUnique(FlatMap(files, SiteRows(run)), FlatMap(files, SiteIds));
  }

  function Itself(x: string): seq<string> { [x] }

  lemma {:induction false} FlatItself(s: seq<string>)
    ensures FlatMap(s, Itself) == s
  {
    if s != [] { FlatItself(s[1..]); }
  }

  lemma {:induction false} EdgesUnique(run: string, files: seq<File>)
    requires Distinct(FlatMap(files, EdgeIds)) && forall x :: x in FlatMap(files, EdgeIds) ==> '/' !in x
    ensures Unique(FlatMap(files, EdgeRows(run)))
  {
    forall f | f in files
      ensures Aligned(EdgeRows(run)(f), EdgeIds(f))
    {
      forall s | s in Sites(f)
        ensures Aligned(EdgesOfSite(run, f.path)(s), EdgeIdsOf(s))
      {
        forall e | e in s.edges
          ensures Aligned(EdgeRow(run, f.path, s)(e), Itself(e))
        {
          assert EdgeRow(run, f.path, s)(e)[0].primary == [Slash(SiteKey(run, f.path, s), e)];
        }
        AlignedGroups(s.edges, EdgeRow(run, f.path, s), Itself);
        FlatItself(s.edges);
      }
      AlignedGroups(Sites(f), EdgesOfSite(run, f.path), EdgeIdsOf);
    }
    AlignedGroups(files, EdgeRows(run), EdgeIds);
    AlignedUnique(FlatMap(files, EdgeRows(run)), FlatMap(files, EdgeIds));
  }

  lemma {:induction false} ContextsUnique(run: string, contexts: seq<Context>)
    requires DistinctBy(contexts, ContextIdOf)
    ensures Unique(FlatMap(contexts, ContextRow(run)))
  {
    forall i, j | 0 <= i < j < |contexts|
      ensures Apart(ContextRow(run)(contexts[i]), ContextRow(run)(contexts[j]))
    {
      assert ContextIdOf(contexts[i]) != ContextIdOf(contexts[j]);
      var r, s := ContextRow(run)(contexts[i])[0], ContextRow(run)(contexts[j])[0];
      if r.primary == s.primary {
        assert r.primary[0] == s.primary[0];
        SlashInjective(run, contexts[i].contextId, contexts[j].contextId);
      }
    }
    UniqueGroups(contexts, ContextRow(run));
  }

  lemma {:induction false} MetricMember(run: string, c: Context, r: Row)
    requires r in MetricRows(run)(c)
    ensures exists m :: m in c.metrics && r.primary == [run, Slash(run, c.contextId), m]
  {
    FlatMapMember(c.metrics, MetricRow(run, c), r);
    var m :| m in c.metrics && r in MetricRow(run, c)(m);
  }

  lemma {:induction false} MetricsUnique(run: string, contexts: seq<Context>)
    requires DistinctBy(contexts, ContextIdOf) && forall c :: c in contexts ==> Distinct(c.metrics)
    ensures Unique(FlatMap(contexts, MetricRows(run)))
  {
    forall c | c in contexts
      ensures Unique(MetricRows(run)(c))
    {
      forall i, j | 0 <= i < j < |c.metrics|
        ensures Apart(MetricRow(run, c)(c.metrics[i]), MetricRow(run, c)(c.metrics[j]))
      {
        assert MetricRow(run, c)(c.metrics[i])[0].primary[2] == c.metrics[i];
        assert MetricRow(run, c)(c.metrics[j])[0].primary[2] == c.metrics[j];
      }
      UniqueGroups(c.metrics, MetricRow(run, c));
    }
    forall i, j | 0 <= i < j < |contexts|
      ensures Apart(MetricRows(run)(contexts[i]), MetricRows(run)(contexts[j]))
    {
      var c, d := contexts[i], contexts[j];
      assert ContextIdOf(c) != ContextIdOf(d);
      forall r, s | r in MetricRows(run)(c) && s in MetricRows(run)(d)
        ensures r.primary != s.primary
      {
        MetricMember(run, c, r);
        MetricMember(run, d, s);
        assert r.primary[1] == Slash(run, c.contextId) && s.primary[1] == Slash(run, d.contextId);
        if r.primary == s.primary { SlashInjective(run, c.contextId, d.contextId); }
      }
    }
    UniqueGroups(contexts, MetricRows(run));
  }

  // ---------------------------------------------------------------- function keys

  lemma {:induction false} FunctionMember(run: string, f: File, r: Row)
    requires r in FunctionRows(run)(f)
    ensures exists g :: g in f.functions && r.primary == [FunctionKey(run, f.path, g)]
  {
    FlatMapMember(f.functions, FunctionRow(run, f.path), r);
    var g :| g in f.functions && r in FunctionRow(run, f.path)(g);
  }

  /** No name ends in a slash and another name of the set. */
  ghost predicate SuffixFree(names: set<string>) {
    forall m, n, y :: m in names && n in names ==> m != Slash(y, n)
  }

  /** Function keys over these names never collide, whatever the paths and lines. */
  ghost predicate KeysInjective(run: string, names: set<string>) {
    forall p, q, f: Function, g: Function ::
      f.name in names && g.name in names && FunctionKey(run, p, f) == FunctionKey(run, q, g) ==> p == q && f == g
  }

  lemma {:induction false} SuffixFreeKeys(run: string, names: set<string>, p: string, f: Function, q: string, g: Function)
    requires SuffixFree(names) && f.name in names && g.name in names
    requires FunctionKey(run, p, f) == FunctionKey(run, q, g)
    ensures p == q && f == g
  {
    NumberedPart(Slash(FileKey(run, p), f.name), f.line, Slash(FileKey(run, q), g.name), g.line);
    var s := Slash(FileKey(run, p), f.name);
    assert s == FileKey(run, p) + "/" + f.name == FileKey(run, q) + "/" + g.name;
    if |f.name| < |g.name| {
      LongerEndsInShorter(s, FileKey(run, q), g.name, FileKey(run, p), f.name);
    } else if |g.name| < |f.name| {
      LongerEndsInShorter(s, FileKey(run, p), f.name, FileKey(run, q), g.name);
    }
    assert s[|s| - |f.name|..] == f.name && s[|s| - |g.name|..] == g.name;
    assert s[..|s| - |f.name| - 1] == FileKey(run, p) && s[..|s| - |g.name| - 1] == FileKey(run, q);
    SlashInjective(run, p, q);
  }

  lemma {:induction false} LongerEndsInShorter(s: string, a: string, x: string, b: string, y: string)
    requires s == a + "/" + x == b + "/" + y && |y| < |x|
    ensures exists z :: x == Slash(z, y)
  {
    var z := x[..|x| - |y| - 1];
    assert s[|a| + 1..] == x && s[|b| + 1..] == y && s[|b|] == '/';
    assert x[|x| - |y| - 1] == s[|b|];
    assert x[|x| - |y|..] == y;
    assert x == Slash(z, y);
  }

  /** Exactly the sets of names for which string-built function keys are safe. */
  lemma {:induction false} FunctionKeysSafe(run: string, names: set<string>)
    ensures KeysInjective(run, names) <==> SuffixFree(names)
  {
    if SuffixFree(names) {
      forall p, q, f: Function, g: Function
        | f.name in names && g.name in names && FunctionKey(run, p, f) == FunctionKey(run, q, g)
        ensures p == q && f == g
      {
        SuffixFreeKeys(run, names, p, f, q, g);
      }
    }
    if KeysInjective(run, names) {
      forall m, n, y | m in names && n in names
        ensures m != Slash(y, n)
      {
        CollidingNames(run, n, y);
      }
    }
  }

  /** A name that ends in a slash and another name has the other's key for some paths. */
  lemma {:induction false} CollidingNames(run: string, n: string, y: string)
    ensures FunctionKey(run, "a", Function(Slash(y, n), 0)) == FunctionKey(run, Slash("a", y), Function(n, 0))
    ensures Slash(y, n) != n
  {
    assert Slash(FileKey(run, "a"), Slash(y, n)) == Slash(FileKey(run, Slash("a", y)), n);
  }

  lemma {:induction false} SlashFreeIsSafe(names: set<string>)
    requires forall n :: n in names ==> '/' !in n
    ensures SuffixFree(names)
  {
    forall m, n, y | m in names && n in names
      ensures m != Slash(y, n)
    {
      assert Slash(y, n)[|y|] == '/';
    }
  }

  function NamesIn(files: seq<File>): set<string> { set f, g | f in files && g in f.functions :: g.name }

  /** No function of one file reads, path and name together, like a function on the same line number of
      another file. */
  ghost predicate ReadApart(files: seq<File>) {
    forall f, h, g, k ::
      f in files && h in files && f.path != h.path && g in f.functions && k in h.functions && g.line == k.line
      ==> Slash(f.path, g.name) != Slash(h.path, k.name)
  }

  lemma {:induction false} SameFunctionKey(run: string, p: string, f: Function, q: string, g: Function)
    ensures FunctionKey(run, p, f) == FunctionKey(run, q, g) <==> f.line == g.line && Slash(p, f.name) == Slash(q, g.name)
  {
    var x, y := Slash(FileKey(run, p), f.name), Slash(FileKey(run, q), g.name);
    assert x == Slash(run, Slash(p, f.name)) && y == Slash(run, Slash(q, g.name));
    if x == y { SlashInjective(run, Slash(p, f.name), Slash(q, g.name)); }
    if FunctionKey(run, p, f) == FunctionKey(run, q, g) { NumberedPart(x, f.line, y, g.line); }
  }

  /** The functions of a validated artifact have distinct keys exactly when they read apart. */
  lemma {:induction false} FunctionsUnique(run: string, files: seq<File>)
    requires DistinctBy(files, PathOf) && (forall f :: f in files ==> Distinct(f.functions))
    ensures Unique(FlatMap(files, FunctionRows(run))) <==> ReadApart(files)
  {
    if ReadApart(files) {
      forall f | f in files
        ensures Unique(FunctionRows(run)(f))
      {
        OneFileUnique(run, f);
      }
      forall i, j | 0 <= i < j < |files|
        ensures Apart(FunctionRows(run)(files[i]), FunctionRows(run)(files[j]))
      {
        OtherFilesApart(run, files, i, j);
      }
      UniqueGroups(files, FunctionRows(run));
    }
    if Unique(FlatMap(files, FunctionRows(run))) {
      forall f, h, g, k | f in files && h in files && f.path != h.path && g in f.functions && k in h.functions && g.line == k.line
        ensures Slash(f.path, g.name) != Slash(h.path, k.name)
      {
        UniqueReadsApart(run, files, f, g, h, k);
      }
    }
  }

  lemma {:induction false} OneFileUnique(run: string, f: File)
    requires Distinct(f.functions)
    ensures Unique(FunctionRows(run)(f))
  {
    forall i, j | 0 <= i < j < |f.functions|
      ensures Apart(FunctionRow(run, f.path)(f.functions[i]), FunctionRow(run, f.path)(f.functions[j]))
    {
      var g, h := f.functions[i], f.functions[j];
      SameFunctionKey(run, f.path, g, f.path, h);
      if Slash(f.path, g.name) == Slash(f.path, h.name) { SlashInjective(f.path, g.name, h.name); }
      assert FunctionRow(run, f.path)(g)[0].primary[0] == FunctionKey(run, f.path, g);
      assert FunctionRow(run, f.path)(h)[0].primary[0] == FunctionKey(run, f.path, h);
    }
    UniqueGroups(f.functions, FunctionRow(run, f.path));
  }

  lemma {:induction false} OtherFilesApart(run: string, files: seq<File>, i: nat, j: nat)
    requires i < j < |files| && DistinctBy(files, PathOf) && ReadApart(files)
    ensures Apart(FunctionRows(run)(files[i]), FunctionRows(run)(files[j]))
  {
    var f, h := files[i], files[j];
    assert PathOf(f) != PathOf(h) && f in files && h in files;
    forall r, s | r in FunctionRows(run)(f) && s in FunctionRows(run)(h)
      ensures r.primary != s.primary
    {
      FunctionMember(run, f, r);
      FunctionMember(run, h, s);
      var g :| g in f.functions && r.primary == [FunctionKey(run, f.path, g)];
      var k :| k in h.functions && s.primary == [FunctionKey(run, h.path, k)];
      SameFunctionKey(run, f.path, g, h.path, k);
      assert r.primary[0] == FunctionKey(run, f.path, g) && s.primary[0] == FunctionKey(run, h.path, k);
    }
  }

  lemma {:induction false} UniqueReadsApart(run: string, files: seq<File>, f: File, g: Function, h: File, k: Function)
    requires Unique(FlatMap(files, FunctionRows(run)))
    requires f in files && h in files && f.path != h.path && g in f.functions && k in h.functions && g.line == k.line
    ensures Slash(f.path, g.name) != Slash(h.path, k.name)
  {
    var i: nat :| i < |files| && files[i] == f;
    var j: nat :| j < |files| && files[j] == h;
    FunctionRowListed(run, f, g);
    FunctionRowListed(run, h, k);
    if i < j { UniqueApart(files, FunctionRows(run), i, j); } else { UniqueApart(files, FunctionRows(run), j, i); }
    SameFunctionKey(run, f.path, g, h.path, k);
  }

  lemma {:induction false} FunctionRowListed(run: string, f: File, g: Function)
    requires g in f.functions
    ensures Row(run, [FunctionKey(run, f.path, g)], [FileKey(run, f.path)], "") in FunctionRows(run)(f)
  {
    var r := Row(run, [FunctionKey(run, f.path, g)], [FileKey(run, f.path)], "");
    FlatMapMember(f.functions, FunctionRow(run, f.path), r);
    assert r in FunctionRow(run, f.path)(g);
  }

  /** Rows unique over all groups are unique between two of them. */
  lemma {:induction false} UniqueApart<T>(s: seq<T>, rows: T -> seq<Row>, i: nat, j: nat)
    requires i < j < |s| && Unique(FlatMap(s, rows))
    ensures Apart(rows(s[i]), rows(s[j]))
  {
    UniqueAppend(rows(s[0]), FlatMap(s[1..], rows));
    if i > 0 {
      UniqueApart(s[1..], rows, i - 1, j - 1);
    } else {
      forall y | y in rows(s[j])
        ensures y in FlatMap(s[1..], rows)
      {
        assert s[1..][j - 1] == s[j];
        FlatMapMember(s[1..], rows, y);
      }
    }
  }

  /** Names of which none ends in a slash and another name read apart, whatever the paths. */
  lemma {:induction false} SuffixFreeReadsApart(run: string, files: seq<File>)
    requires SuffixFree(NamesIn(files))
    ensures ReadApart(files)
  {
    forall f, h, g, k | f in files && h in files && f.path != h.path && g in f.functions && k in h.functions && g.line == k.line
      ensures Slash(f.path, g.name) != Slash(h.path, k.name)
    {
      SameFunctionKey(run, f.path, g, h.path, k);
      if Slash(f.path, g.name) == Slash(h.path, k.name) {
        SuffixFreeKeys(run, NamesIn(files), f.path, g, h.path, k);
      }
    }
  }
}
