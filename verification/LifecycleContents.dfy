/** What the finished events of suites, files and benchmarks report, said of the report's rows. */
module LifecycleContents {
  import opened Seqs
  import opened Grouping
  import opened Lifecycle
  import opened EventAccept

  /** A row of the file, of the suite if one is given, with one of the statuses if they are given. */
  function In(path: string, suite: Option<string>, statuses: Option<set<string>>): TestRow -> bool {
    (r: TestRow) =>
      r.file == path && (suite.Some? ==> r.suite == suite.value) && (statuses.Some? ==> r.status in statuses.value)
  }

  /** The tally counts the report's rows of that file and suite, by the status they have. */
  ghost predicate Reports(d: Draft, rows: seq<TestRow>, path: string, suite: Option<string>) {
    && d.payload.Tally?
    && d.payload.statuses.tests == Count(rows, In(path, suite, None))
    && d.payload.statuses.passed == Count(rows, In(path, suite, Some({"pass"})))
    && d.payload.statuses.failed == Count(rows, In(path, suite, Some({"fail"})))
    && d.payload.statuses.errors == Count(rows, In(path, suite, Some({"error"})))
    && d.payload.statuses.skipped == Count(rows, In(path, suite, Some({"skip", "pending"})))
  }

  ghost predicate SuiteClosed(rows: seq<TestRow>, d: Draft) {
    exists r :: r in rows && Reports(d, rows, r.file, Some(r.suite))
  }

  ghost predicate FileClosed(rows: seq<TestRow>, d: Draft) {
    exists r :: r in rows && Reports(d, rows, r.file, None)
  }

  /** A benchmark event carries the identity and the evidence of a row's benchmark. */
  ghost predicate Measured(rows: seq<TestRow>, d: Draft) {
    exists r :: r in rows && r.benchmark.Some? && BenchmarkOf(r, d)
  }

  predicate BenchmarkOf(r: TestRow, d: Draft)
    requires r.benchmark.Some?
  {
    d.entity == r.benchmark.value.0 && d.payload == Plain(r.benchmark.value.1) && d.parent == r.testId
  }

  ghost predicate Says(rows: seq<TestRow>, d: Draft) {
    && (d.kind == Finished(SuiteLevel) ==> SuiteClosed(rows, d))
    && (d.kind == Finished(FileLevel) ==> FileClosed(rows, d))
    && (d.kind == BenchmarkFinished ==> Measured(rows, d))
  }

  ghost predicate AllSay(rows: seq<TestRow>, w: seq<Draft>) {
    forall d :: d in w ==> Says(rows, d)
  }

  // ---------------------------------------------------------------- counting a group

  lemma {:induction false} CountSnoc(init: seq<TestRow>, last: TestRow, p: TestRow -> bool)
    ensures Count(init + [last], p) == Count(init, p) + if p(last) then 1 else 0
  {
    CountAppend(init, [last], p);
    CountOne(last, p);
  }

  lemma {:induction false} StatusSnoc(init: seq<TestRow>, last: TestRow, wanted: set<string>)
    ensures CountStatus(init + [last], wanted) == CountStatus(init, wanted) + if last.status in wanted then 1 else 0
  {
    assert (init + [last])[..|init|] == init;
    CountStatusNext(init + [last], |init|, wanted);
    assert (init + [last])[..|init| + 1] == init + [last];
  }

  lemma {:induction false} GroupSnoc(init: seq<TestRow>, last: TestRow, key: TestRow -> string, k: string)
    ensures WithKey(init + [last], key, k) == if key(last) == k then WithKey(init, key, k) + [last] else WithKey(init, key, k)
  {
    assert (init + [last])[..|init|] == init;
  }

  /** The rows of a file. */
  lemma {:induction false} FileGroup(rows: seq<TestRow>, path: string, wanted: set<string>)
    ensures |WithKey(rows, FileOf, path)| == Count(rows, In(path, None, None))
    ensures CountStatus(WithKey(rows, FileOf, path), wanted) == Count(rows, In(path, None, Some(wanted)))
  {
    if rows != [] {
      var init, last := rows[..|rows| - 1], rows[|rows| - 1];
      assert rows == init + [last];
      FileGroup(init, path, wanted);
      GroupSnoc(init, last, FileOf, path);
      CountSnoc(init, last, In(path, None, None));
      CountSnoc(init, last, In(path, None, Some(wanted)));
      StatusSnoc(WithKey(init, FileOf, path), last, wanted);
    }
  }

  /** The rows of a suite in a file. */
  lemma {:induction false} SuiteGroup(rows: seq<TestRow>, path: string, suite: string, wanted: set<string>)
    ensures var mine := WithKey(WithKey(rows, FileOf, path), SuiteOf, suite);
            && |mine| == Count(rows, In(path, Some(suite), None))
            && CountStatus(mine, wanted) == Count(rows, In(path, Some(suite), Some(wanted)))
  {
    if rows != [] {
      var init, last := rows[..|rows| - 1], rows[|rows| - 1];
      assert rows == init + [last];
      SuiteGroup(init, path, suite, wanted);
      GroupSnoc(init, last, FileOf, path);
      GroupSnoc(WithKey(init, FileOf, path), last, SuiteOf, suite);
      CountSnoc(init, last, In(path, Some(suite), None));
      CountSnoc(init, last, In(path, Some(suite), Some(wanted)));
      StatusSnoc(WithKey(WithKey(init, FileOf, path), SuiteOf, suite), last, wanted);
    }
  }

  lemma {:induction false} SuiteTally(rows: seq<TestRow>, path: string, suite: string, d: Draft)
    requires d.payload == Tally(StatusSummary(WithKey(WithKey(rows, FileOf, path), SuiteOf, suite)))
    ensures Reports(d, rows, path, Some(suite))
  {
    SuiteGroup(rows, path, suite, {"pass"});
    SuiteGroup(rows, path, suite, {"fail"});
    SuiteGroup(rows, path, suite, {"error"});
    SuiteGroup(rows, path, suite, {"skip", "pending"});
  }

  lemma {:induction false} FileTally(rows: seq<TestRow>, path: string, d: Draft)
    requires d.payload == Tally(StatusSummary(WithKey(rows, FileOf, path)))
    ensures Reports(d, rows, path, None)
  {
    FileGroup(rows, path, {"pass"});
    FileGroup(rows, path, {"fail"});
    FileGroup(rows, path, {"error"});
    FileGroup(rows, path, {"skip", "pending"});
  }

  // ---------------------------------------------------------------- the events of one test

  predicate AboutEvidence(d: Draft) {
    d.kind in {Started(AttemptLevel), Finished(AttemptLevel), Started(CaseLevel), Finished(CaseLevel), DiagnosticRecorded}
  }

  lemma {:induction false} AttemptsAbout(r: TestRow, n: nat, test: Interval)
    requires n <= |History(r)|
    ensures forall d :: d in AttemptWord(r, n, test) ==> AboutEvidence(d)
  {
    if n > 0 { AttemptsAbout(r, n - 1, test); }
  }

  lemma {:induction false} CasesAbout(r: TestRow, n: nat, test: Interval)
    requires n <= |r.cases| && CaseWord(r, n, test).Some?
    ensures forall d :: d in CaseWord(r, n, test).value ==> AboutEvidence(d)
  {
    if n > 0 { CasesAbout(r, n - 1, test); }
  }

  lemma {:induction false} DiagnosticsAbout(c: Context, r: TestRow, n: nat, at: int, q: Queues)
    requires n <= |r.diagnostics| && DiagnosticWord(c, r, n, at, q).Some?
    ensures forall d :: d in DiagnosticWord(c, r, n, at, q).value.word ==> AboutEvidence(d)
  {
    if n > 0 { DiagnosticsAbout(c, r, n - 1, at, q); }
  }

  /** Neither suites nor files end inside a test, and a benchmark event in it is about its benchmark. */
  ghost predicate Inner(rows: seq<TestRow>, d: Draft) {
    && d.kind != Finished(SuiteLevel) && d.kind != Finished(FileLevel)
    && (d.kind == BenchmarkFinished ==> Measured(rows, d))
  }

  lemma {:induction false} TestInner(c: Context, rows: seq<TestRow>, r: TestRow, suiteId: string, suite: Interval, q: Queues)
    requires r in rows && TestWord(c, r, suiteId, suite, q).Some?
    ensures forall d :: d in TestWord(c, r, suiteId, suite, q).value.word ==> Inner(rows, d)
  {
    var test := TestInterval(r, suite);
    AttemptsAbout(r, |History(r)|, test);
    CasesAbout(r, |r.cases|, test);
    DiagnosticsAbout(c, r, |r.diagnostics|, test.finish, q);
    forall d | d in EvidenceWord(c, r, test, q).value.word
      ensures Inner(rows, d)
    {
      if d in BenchmarkWord(r, test) { assert BenchmarkOf(r, d); }
    }
  }

  lemma {:induction false} TestsInner(c: Context, rows: seq<TestRow>, mine: seq<TestRow>, suiteId: string, suite: Interval, q: Queues)
    requires (forall r :: r in mine ==> r in rows) && TestsWord(c, mine, suiteId, suite, q).Some?
    ensures forall d :: d in TestsWord(c, mine, suiteId, suite, q).value.word ==> Inner(rows, d)
  {
    if mine != [] {
      var init, r := mine[..|mine| - 1], mine[|mine| - 1];
      TestsInner(c, rows, init, suiteId, suite, q);
      TestInner(c, rows, r, suiteId, suite, TestsWord(c, init, suiteId, suite, q).value.queues);
    }
  }

  // ---------------------------------------------------------------- suites and files

  lemma {:induction false} SuiteSays(
      c: Context, rows: seq<TestRow>, path: string, suite: string, fileId: string, file: Interval, q: Queues)
    requires SuiteWord(c, WithKey(rows, FileOf, path), suite, fileId, file, q).Some?
    ensures AllSay(rows, SuiteWord(c, WithKey(rows, FileOf, path), suite, fileId, file, q).value.word)
  {
    var group := WithKey(rows, FileOf, path);
    var mine := WithKey(group, SuiteOf, suite);
    forall r | r in mine
      ensures r in rows && r.file == path && r.suite == suite
    {
      WithKeyMember(group, SuiteOf, suite, r);
      WithKeyMember(rows, FileOf, path, r);
      assert SuiteOf(r) == r.suite && FileOf(r) == r.file;
    }
    var suiteId, time := c.suiteIds[IdOf(mine[0])], IntervalOf(mine, file);
    TestsInner(c, rows, mine, suiteId, time, q);
    var closing := Draft(Finished(SuiteLevel), suiteId, fileId, time.finish, Tally(StatusSummary(mine)));
    SuiteTally(rows, path, suite, closing);
    assert mine[0] in mine;
    assert SuiteClosed(rows, closing);
    InnerSays(rows, TestsWord(c, mine, suiteId, time, q).value.word);
  }

  lemma {:induction false} InnerSays(rows: seq<TestRow>, w: seq<Draft>)
    requires forall d :: d in w ==> Inner(rows, d)
    ensures AllSay(rows, w)
  {}

  lemma {:induction false} SayAppend(rows: seq<TestRow>, a: seq<Draft>, b: seq<Draft>)
    requires AllSay(rows, a) && AllSay(rows, b)
    ensures AllSay(rows, a + b)
  {}

  lemma {:induction false} SuitesSay(
      c: Context, rows: seq<TestRow>, path: string, suites: seq<string>, fileId: string, file: Interval, q: Queues)
    requires SuitesWord(c, WithKey(rows, FileOf, path), suites, fileId, file, q).Some?
    ensures AllSay(rows, SuitesWord(c, WithKey(rows, FileOf, path), suites, fileId, file, q).value.word)
  {
    if suites != [] {
      var init, last := suites[..|suites| - 1], suites[|suites| - 1];
      SuitesSay(c, rows, path, init, fileId, file, q);
      var before := SuitesWord(c, WithKey(rows, FileOf, path), init, fileId, file, q).value;
      SuiteSays(c, rows, path, last, fileId, file, before.queues);
      SayAppend(rows, before.word, SuiteWord(c, WithKey(rows, FileOf, path), last, fileId, file, before.queues).value.word);
    }
  }

  lemma {:induction false} FileSays(c: Context, rows: seq<TestRow>, path: string, q: Queues)
    requires FileWord(c, rows, path, q).Some? && path in KeysSeen(rows, FileOf)
    ensures AllSay(rows, FileWord(c, rows, path, q).value.word)
  {
    var mine := WithKey(rows, FileOf, path);
    var fileId, time := FileId(c, path), IntervalOf(mine, c.time);
    var suites := KeysSeen(mine, SuiteOf);
    SuitesSay(c, rows, path, suites, fileId, time, q);
    var closing := Draft(Finished(FileLevel), fileId, c.runId, time.finish, Tally(StatusSummary(mine)));
    FileTally(rows, path, closing);
    KeysSeenMember(rows, FileOf, path);
    var r :| r in rows && FileOf(r) == path;
    assert FileClosed(rows, closing);
    SayAppend(rows, [Draft(Started(FileLevel), fileId, c.runId, time.start, Plain(path))],
              SuitesWord(c, mine, suites, fileId, time, q).value.word);
  }

  lemma {:induction false} FilesSay(c: Context, rows: seq<TestRow>, paths: seq<string>, q: Queues)
    requires FilesWord(c, rows, paths, q).Some? && forall p :: p in paths ==> p in KeysSeen(rows, FileOf)
    ensures AllSay(rows, FilesWord(c, rows, paths, q).value.word)
  {
    if paths != [] {
      var init, last := paths[..|paths| - 1], paths[|paths| - 1];
      FilesSay(c, rows, init, q);
      var before := FilesWord(c, rows, init, q).value;
      FileSays(c, rows, last, before.queues);
      SayAppend(rows, before.word, FileWord(c, rows, last, before.queues).value.word);
    }
  }

  lemma {:induction false} RunDiagnosticsSay(c: Context, rows: seq<TestRow>, ds: seq<string>, n: nat)
    requires n <= |ds|
    ensures AllSay(rows, RunDiagnostics(c, ds, n))
  {
    if n > 0 { RunDiagnosticsSay(c, rows, ds, n - 1); }
  }

  /** Every suite.finished and file.finished event of a stream counts the rows of its suite or file by
      status, and every benchmark.finished event carries a row's benchmark. */
  lemma {:induction false} StreamSays(c: Context, rows: seq<TestRow>, e: Closing, q: Queues)
    requires RunWord(c, rows, e, q).Some?
    ensures forall d :: d in RunWord(c, rows, e, q).value ==> Says(rows, d)
  {
    var files := FilesWord(c, rows, KeysSeen(rows, FileOf), q).value.word;
    FilesSay(c, rows, KeysSeen(rows, FileOf), q);
    RunDiagnosticsSay(c, rows, e.diagnostics, |e.diagnostics|);
    ClosingSays(c, rows, e);
    SayAppend(rows, Opening(c), files);
    SayAppend(rows, Opening(c) + files, ClosingWord(c, e));
  }

  lemma {:induction false} ClosingSays(c: Context, rows: seq<TestRow>, e: Closing)
    ensures AllSay(rows, ClosingWord(c, e))
  {
    RunDiagnosticsSay(c, rows, e.diagnostics, |e.diagnostics|);
  }

  // ---------------------------------------------------------------- and nothing is unreported

  ghost predicate SuiteShown(w: seq<Draft>, rows: seq<TestRow>, path: string, suite: string) {
    exists d :: d in w && d.kind == Finished(SuiteLevel) && Reports(d, rows, path, Some(suite))
  }

  ghost predicate FileShown(w: seq<Draft>, rows: seq<TestRow>, path: string) {
    exists d :: d in w && d.kind == Finished(FileLevel) && Reports(d, rows, path, None)
  }

  ghost predicate BenchmarkShown(w: seq<Draft>, r: TestRow) {
    r.benchmark.Some? ==> exists d :: d in w && d.kind == BenchmarkFinished && BenchmarkOf(r, d)
  }

  lemma {:induction false} SuitesShow(
      c: Context, rows: seq<TestRow>, path: string, suites: seq<string>, suite: string, fileId: string, file: Interval, q: Queues)
    requires SuitesWord(c, WithKey(rows, FileOf, path), suites, fileId, file, q).Some? && suite in suites
    ensures SuiteShown(SuitesWord(c, WithKey(rows, FileOf, path), suites, fileId, file, q).value.word, rows, path, suite)
  {
    var group := WithKey(rows, FileOf, path);
    var init, last := suites[..|suites| - 1], suites[|suites| - 1];
    var before := SuitesWord(c, group, init, fileId, file, q).value;
    if suite == last {
      var mine := WithKey(group, SuiteOf, suite);
      var suiteId, time := c.suiteIds[IdOf(mine[0])], IntervalOf(mine, file);
      var closing := Draft(Finished(SuiteLevel), suiteId, fileId, time.finish, Tally(StatusSummary(mine)));
      SuiteTally(rows, path, suite, closing);
      assert closing in SuiteWord(c, group, suite, fileId, file, before.queues).value.word;
    } else {
      SuitesShow(c, rows, path, init, suite, fileId, file, q);
      var d :| d in before.word && d.kind == Finished(SuiteLevel) && Reports(d, rows, path, Some(suite));
      assert d in SuitesWord(c, group, suites, fileId, file, q).value.word;
    }
  }

  lemma {:induction false} FileShows(c: Context, rows: seq<TestRow>, q: Queues, r: TestRow)
    requires r in rows && FileWord(c, rows, r.file, q).Some?
    ensures FileShown(FileWord(c, rows, r.file, q).value.word, rows, r.file)
    ensures SuiteShown(FileWord(c, rows, r.file, q).value.word, rows, r.file, r.suite)
  {
    var path := r.file;
    var mine := WithKey(rows, FileOf, path);
    var fileId, time := FileId(c, path), IntervalOf(mine, c.time);
    var suites := KeysSeen(mine, SuiteOf);
    var w := FileWord(c, rows, path, q).value.word;
    assert FileOf(r) == r.file && SuiteOf(r) == r.suite;
    WithKeyMember(rows, FileOf, path, r);
    KeysSeenMember(mine, SuiteOf, r.suite);
    SuitesShow(c, rows, path, suites, r.suite, fileId, time, q);
    var inside := SuitesWord(c, mine, suites, fileId, time, q).value.word;
    var d :| d in inside && d.kind == Finished(SuiteLevel) && Reports(d, rows, path, Some(r.suite));
    assert d in w;
    var closing := Draft(Finished(FileLevel), fileId, c.runId, time.finish, Tally(StatusSummary(mine)));
    FileTally(rows, path, closing);
    assert closing in w;
  }

  lemma {:induction false} FilesShow(c: Context, rows: seq<TestRow>, paths: seq<string>, q: Queues, r: TestRow)
    requires r in rows && FilesWord(c, rows, paths, q).Some? && r.file in paths
    ensures FileShown(FilesWord(c, rows, paths, q).value.word, rows, r.file)
    ensures SuiteShown(FilesWord(c, rows, paths, q).value.word, rows, r.file, r.suite)
  {
    var init, last := paths[..|paths| - 1], paths[|paths| - 1];
    var before := FilesWord(c, rows, init, q).value;
    var w := FilesWord(c, rows, paths, q).value.word;
    if r.file == last {
      FileShows(c, rows, before.queues, r);
      ShownMore(FileWord(c, rows, last, before.queues).value.word, w, rows, r);
    } else {
      FilesShow(c, rows, init, q, r);
      ShownMore(before.word, w, rows, r);
    }
  }

  lemma {:induction false} ShownMore(w: seq<Draft>, v: seq<Draft>, rows: seq<TestRow>, r: TestRow)
    requires FileShown(w, rows, r.file) && SuiteShown(w, rows, r.file, r.suite) && forall d :: d in w ==> d in v
    ensures FileShown(v, rows, r.file) && SuiteShown(v, rows, r.file, r.suite)
  {}

  /** Every row's suite and file end with such a tally, and every row's benchmark has its event. */
  lemma {:induction false} StreamShows(c: Context, rows: seq<TestRow>, e: Closing, q: Queues, r: TestRow)
    requires r in rows && RunWord(c, rows, e, q).Some?
    ensures var w := RunWord(c, rows, e, q).value;
            FileShown(w, rows, r.file) && SuiteShown(w, rows, r.file, r.suite) && BenchmarkShown(w, r)
  {
    var w := RunWord(c, rows, e, q).value;
    assert FileOf(r) == r.file;
    KeysSeenMember(rows, FileOf, r.file);
    FilesShow(c, rows, KeysSeen(rows, FileOf), q, r);
    ShownMore(FilesWord(c, rows, KeysSeen(rows, FileOf), q).value.word, w, rows, r);
    if r.benchmark.Some? { BenchmarkShows(c, rows, e, q, r); }
  }

  lemma {:induction false} BenchmarkShows(c: Context, rows: seq<TestRow>, e: Closing, q: Queues, r: TestRow)
    requires r in rows && RunWord(c, rows, e, q).Some? && r.benchmark.Some?
    ensures BenchmarkShown(RunWord(c, rows, e, q).value, r)
  {
    StreamHolds(c, rows, e, q, r);
    var w := RunWord(c, rows, e, q).value;
    var suiteId, suite, q' :|
      TestWord(c, r, suiteId, suite, q').Some? && Contains(w, TestWord(c, r, suiteId, suite, q').value.word);
    var d := BenchmarkWord(r, TestInterval(r, suite))[0];
    assert d in TestWord(c, r, suiteId, suite, q').value.word;
    assert BenchmarkOf(r, d);
  }
}
