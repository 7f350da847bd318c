/** Every stream built from sound rows passes the event checker. */
module EventAccept {
  import opened Seqs
  import opened Text
  import opened Grouping
  import opened Lifecycle
  import opened EventCheck

  ghost predicate All(w: seq<Draft>, p: Draft -> bool) {
    forall d :: d in w ==> p(d)
  }

  /** The test's word satisfies `p` in every surrounding inside the run. */
  ghost predicate TestAll(c: Context, r: TestRow, p: Draft -> bool) {
    forall suiteId, suite, q ::
      Within(suite, c.time) && suite.start <= suite.finish && TestWord(c, r, suiteId, suite, q).Some? ==>
        All(TestWord(c, r, suiteId, suite, q).value.word, p)
  }

  predicate IsBracket(d: Draft) {
    d.kind in {Started(FileLevel), Finished(FileLevel), Started(SuiteLevel), Finished(SuiteLevel)}
  }

  ghost predicate BracketsAll(c: Context, p: Draft -> bool) {
    forall d: Draft :: IsBracket(d) && InTime(d.at, c.time) ==> p(d)
  }

  lemma {:induction false} AllAppend(a: seq<Draft>, b: seq<Draft>, p: Draft -> bool)
    requires All(a, p) && All(b, p)
    ensures All(a + b, p)
  {}

  lemma {:induction false} AllBracket(a: Draft, w: seq<Draft>, b: Draft, p: Draft -> bool)
    requires p(a) && All(w, p) && p(b)
    ensures All([a] + w + [b], p)
  {}

  lemma {:induction false} TestsAll(c: Context, rows: seq<TestRow>, suiteId: string, suite: Interval, q: Queues, p: Draft -> bool)
    requires (forall r :: r in rows ==> TestAll(c, r, p)) && Within(suite, c.time) && suite.start <= suite.finish
    requires TestsWord(c, rows, suiteId, suite, q).Some?
    ensures All(TestsWord(c, rows, suiteId, suite, q).value.word, p)
  {
    if rows != [] {
      var init, r := rows[..|rows| - 1], rows[|rows| - 1];
      TestsAll(c, init, suiteId, suite, q, p);
      var before := TestsWord(c, init, suiteId, suite, q).value;
      assert TestAll(c, r, p);
      AllAppend(before.word, TestWord(c, r, suiteId, suite, before.queues).value.word, p);
    }
  }

  lemma {:induction false} SuiteAll(
      c: Context, rows: seq<TestRow>, suite: string, fileId: string, file: Interval, q: Queues, p: Draft -> bool)
    requires (forall r :: r in rows ==> TestAll(c, r, p)) && BracketsAll(c, p)
    requires Covered(rows, file) && Within(file, c.time) && file.start <= file.finish
    requires SuiteWord(c, rows, suite, fileId, file, q).Some?
    ensures All(SuiteWord(c, rows, suite, fileId, file, q).value.word, p)
  {
    var mine := WithKey(rows, SuiteOf, suite);
    var suiteId, time := c.suiteIds[IdOf(mine[0])], IntervalOf(mine, file);
    forall r | r in mine
      ensures TestAll(c, r, p)
    {
      WithKeyMember(rows, SuiteOf, suite, r);
    }
    CoveredGroup(rows, SuiteOf, suite, file);
    Nested(mine, file);
    TestsAll(c, mine, suiteId, time, q, p);
    AllBracket(Draft(Started(SuiteLevel), suiteId, fileId, time.start, Plain(suite)),
               TestsWord(c, mine, suiteId, time, q).value.word,
               Draft(Finished(SuiteLevel), suiteId, fileId, time.finish, Tally(StatusSummary(mine))), p);
  }

  lemma {:induction false} SuitesAll(
      c: Context, rows: seq<TestRow>, suites: seq<string>, fileId: string, file: Interval, q: Queues, p: Draft -> bool)
    requires (forall r :: r in rows ==> TestAll(c, r, p)) && BracketsAll(c, p)
    requires Covered(rows, file) && Within(file, c.time) && file.start <= file.finish
    requires SuitesWord(c, rows, suites, fileId, file, q).Some?
    ensures All(SuitesWord(c, rows, suites, fileId, file, q).value.word, p)
  {
    if suites != [] {
      var init, last := suites[..|suites| - 1], suites[|suites| - 1];
      SuitesAll(c, rows, init, fileId, file, q, p);
      var before := SuitesWord(c, rows, init, fileId, file, q).value;
      SuiteAll(c, rows, last, fileId, file, before.queues, p);
      AllAppend(before.word, SuiteWord(c, rows, last, fileId, file, before.queues).value.word, p);
    }
  }

  lemma {:induction false} FileAll(c: Context, rows: seq<TestRow>, path: string, q: Queues, p: Draft -> bool)
    requires (forall r :: r in rows ==> TestAll(c, r, p)) && BracketsAll(c, p)
    requires Covered(rows, c.time) && c.time.start <= c.time.finish
    requires FileWord(c, rows, path, q).Some?
    ensures All(FileWord(c, rows, path, q).value.word, p)
  {
    var mine := WithKey(rows, FileOf, path);
    var fileId, time := FileId(c, path), IntervalOf(mine, c.time);
    var suites := KeysSeen(mine, SuiteOf);
    forall r | r in mine
      ensures TestAll(c, r, p)
    {
      WithKeyMember(rows, FileOf, path, r);
    }
    CoveredGroup(rows, FileOf, path, c.time);
    Nested(mine, c.time);
    SuitesAll(c, mine, suites, fileId, time, q, p);
    AllBracket(Draft(Started(FileLevel), fileId, c.runId, time.start, Plain(path)),
               SuitesWord(c, mine, suites, fileId, time, q).value.word,
               Draft(Finished(FileLevel), fileId, c.runId, time.finish, Tally(StatusSummary(mine))), p);
  }

  /** What holds of every test's events and of every bracket holds of all events about rows. */
  lemma {:induction false} FilesAll(c: Context, rows: seq<TestRow>, paths: seq<string>, q: Queues, p: Draft -> bool)
    requires (forall r :: r in rows ==> TestAll(c, r, p)) && BracketsAll(c, p)
    requires Covered(rows, c.time) && c.time.start <= c.time.finish
    requires FilesWord(c, rows, paths, q).Some?
    ensures All(FilesWord(c, rows, paths, q).value.word, p)
  {
    if paths != [] {
      var init, last := paths[..|paths| - 1], paths[|paths| - 1];
      FilesAll(c, rows, init, q, p);
      var before := FilesWord(c, rows, init, q).value;
      FileAll(c, rows, last, before.queues, p);
      AllAppend(before.word, FileWord(c, rows, last, before.queues).value.word, p);
    }
  }

  // ---------------------------------------------------------------- all times inside the run

  function InRun(time: Interval): Draft -> bool { (d: Draft) => InTime(d.at, time) }

  lemma {:induction false} AttemptsInTime(r: TestRow, n: nat, test: Interval, time: Interval)
    requires n <= |History(r)| && RowOk(r, time) && Within(test, time) && test.start <= test.finish
    ensures All(AttemptWord(r, n, test), InRun(time))
  {
    if n > 0 {
      AttemptsInTime(r, n - 1, test, time);
      if r.attempts != [] { assert History(r)[n - 1] in r.attempts; }
      AllAppend(AttemptWord(r, n - 1, test), AttemptPair(r, n - 1, test), InRun(time));
    }
  }

  lemma {:induction false} CasesInTime(r: TestRow, n: nat, test: Interval, time: Interval)
    requires n <= |r.cases| && RowOk(r, time) && Within(test, time) && test.start <= test.finish
    requires CaseWord(r, n, test).Some?
    ensures All(CaseWord(r, n, test).value, InRun(time))
  {
    if n > 0 {
      CasesInTime(r, n - 1, test, time);
      assert r.cases[n - 1] in r.cases;
      AllAppend(CaseWord(r, n - 1, test).value, CasePair(r, n - 1, test), InRun(time));
    }
  }

  lemma {:induction false} DiagnosticsInTime(c: Context, r: TestRow, n: nat, at: int, q: Queues, time: Interval)
    requires n <= |r.diagnostics| && InTime(at, time) && DiagnosticWord(c, r, n, at, q).Some?
    ensures All(DiagnosticWord(c, r, n, at, q).value.word, InRun(time))
  {
    if n > 0 { DiagnosticsInTime(c, r, n - 1, at, q, time); }
  }

  lemma {:induction false} TestInTime(c: Context, r: TestRow)
    requires RowOk(r, c.time)
    ensures TestAll(c, r, InRun(c.time))
  {
    forall suiteId, suite, q | Within(suite, c.time) && suite.start <= suite.finish && TestWord(c, r, suiteId, suite, q).Some?
      ensures All(TestWord(c, r, suiteId, suite, q).value.word, InRun(c.time))
    {
      var test := TestInterval(r, suite);
      var p := InRun(c.time);
      AttemptsInTime(r, |History(r)|, test, c.time);
      CasesInTime(r, |r.cases|, test, c.time);
      DiagnosticsInTime(c, r, |r.diagnostics|, test.finish, q, c.time);
      var attempts, cases := AttemptWord(r, |History(r)|, test), CaseWord(r, |r.cases|, test).value;
      AllAppend(attempts, cases, p);
      AllAppend(attempts + cases, BenchmarkWord(r, test), p);
      AllAppend(attempts + cases + BenchmarkWord(r, test),
                DiagnosticWord(c, r, |r.diagnostics|, test.finish, q).value.word, p);
      AllBracket(TestOpen(r, suiteId, test), EvidenceWord(c, r, test, q).value.word, TestClose(r, suiteId, test), p);
    }
  }

  lemma {:induction false} RunDiagnosticsAll(c: Context, ds: seq<string>, n: nat, p: Draft -> bool)
    requires n <= |ds|
    requires forall d: Draft :: d.kind == DiagnosticRecorded && d.at == c.time.finish ==> p(d)
    ensures All(RunDiagnostics(c, ds, n), p)
  {
    if n > 0 { RunDiagnosticsAll(c, ds, n - 1, p); }
  }

  lemma {:induction false} StreamInTime(c: Context, rows: seq<TestRow>, e: Closing, q: Queues)
    requires RowsOk(rows, c.time) && RunWord(c, rows, e, q).Some?
    ensures forall d :: d in RunWord(c, rows, e, q).value ==> InTime(d.at, c.time)
  {
    var p := InRun(c.time);
    forall r | r in rows
      ensures TestAll(c, r, p)
    {
      TestInTime(c, r);
    }
    FilesAll(c, rows, KeysSeen(rows, FileOf), q, p);
    ClosingInTime(c, e);
    var opening, files, closing := Opening(c), FilesWord(c, rows, KeysSeen(rows, FileOf), q).value.word, ClosingWord(c, e);
    assert All(opening, p);
    AllAppend(opening, files, p);
    AllAppend(opening + files, closing, p);
    assert All(RunWord(c, rows, e, q).value, p);
  }

  lemma {:induction false} ClosingInTime(c: Context, e: Closing)
    requires c.time.start <= c.time.finish
    ensures All(ClosingWord(c, e), InRun(c.time))
  {
    var p := InRun(c.time);
    var a, b := Optional(CoverageFinished, "coverage", c, e.coverage), Optional(SnapshotsAudited, "snapshots", c, e.snapshots);
    var d := Optional(BenchmarksCompared, "benchmarks", c, e.benchmarks);
    var diagnostics := RunDiagnostics(c, e.diagnostics, |e.diagnostics|);
    RunDiagnosticsAll(c, e.diagnostics, |e.diagnostics|, p);
    AllAppend(a, b, p);
    AllAppend(a + b, d, p);
    AllAppend(a + b + d, diagnostics, p);
    AllAppend(a + b + d + diagnostics, [Draft(Finished(RunLevel), c.runId, "", c.time.finish, Plain(e.stats))], p);
  }

  // ---------------------------------------------------------------- where an event comes from

  predicate Times(observed: Option<int>, at: int) { observed.Some? ==> at == observed.value }

  ghost predicate FromAttempt(r: TestRow, d: Draft, start: bool) {
    exists i :: 0 <= i < |History(r)| && d.entity == AttemptId(IdOf(r), AttemptNumber(r, i))
      && Times(if start then History(r)[i].started else History(r)[i].finished, d.at)
  }

  ghost predicate FromCase(r: TestRow, d: Draft, start: bool) {
    exists i :: 0 <= i < |r.cases| && d.entity == r.cases[i].caseId
      && Times(if start then r.cases[i].started else r.cases[i].finished, d.at)
  }

  /** An event of the test that row `r` reports. */
  ghost predicate FromTest(r: TestRow, d: Draft) {
    match d.kind
    case Started(l) =>
      if l == TestLevel then d.entity == IdOf(r) && Times(r.started, d.at)
      else if l == AttemptLevel then FromAttempt(r, d, true)
      else l == CaseLevel && FromCase(r, d, true)
    case Finished(l) =>
      if l == TestLevel then d.entity == IdOf(r) && Times(r.finished, d.at) && NoEmptyQuarantine(d, r)
      else if l == AttemptLevel then FromAttempt(r, d, false)
      else l == CaseLevel && FromCase(r, d, false)
    case _ => true
  }

  ghost predicate FromRows(rows: seq<TestRow>, d: Draft) {
    IsBracket(d) || exists r :: r in rows && FromTest(r, d)
  }

  ghost function Origin(rows: seq<TestRow>): Draft -> bool { (d: Draft) => FromRows(rows, d) }

  lemma {:induction false} AttemptsOrigin(r: TestRow, n: nat, test: Interval)
    requires n <= |History(r)|
    ensures forall d :: d in AttemptWord(r, n, test) ==> FromTest(r, d)
  {
    if n > 0 {
      AttemptsOrigin(r, n - 1, test);
      var pair := AttemptPair(r, n - 1, test);
      assert FromAttempt(r, pair[0], true) && FromAttempt(r, pair[1], false);
    }
  }

  lemma {:induction false} CasesOrigin(r: TestRow, n: nat, test: Interval)
    requires n <= |r.cases| && CaseWord(r, n, test).Some?
    ensures forall d :: d in CaseWord(r, n, test).value ==> FromTest(r, d)
  {
    if n > 0 {
      CasesOrigin(r, n - 1, test);
      var pair := CasePair(r, n - 1, test);
      assert FromCase(r, pair[0], true) && FromCase(r, pair[1], false);
    }
  }

  lemma {:induction false} DiagnosticsOrigin(c: Context, r: TestRow, n: nat, at: int, q: Queues)
    requires n <= |r.diagnostics| && DiagnosticWord(c, r, n, at, q).Some?
    ensures forall d :: d in DiagnosticWord(c, r, n, at, q).value.word ==> d.kind == DiagnosticRecorded
  {
    if n > 0 { DiagnosticsOrigin(c, r, n - 1, at, q); }
  }

  lemma {:induction false} TestOrigin(c: Context, r: TestRow, suiteId: string, suite: Interval, q: Queues)
    requires TestWord(c, r, suiteId, suite, q).Some?
    ensures forall d :: d in TestWord(c, r, suiteId, suite, q).value.word ==> FromTest(r, d)
  {
    var test := TestInterval(r, suite);
    AttemptsOrigin(r, |History(r)|, test);
    CasesOrigin(r, |r.cases|, test);
    DiagnosticsOrigin(c, r, |r.diagnostics|, test.finish, q);
    var evidence := EvidenceWord(c, r, test, q).value.word;
    forall d | d in evidence
      ensures FromTest(r, d)
    {
    }
    assert FromTest(r, TestOpen(r, suiteId, test)) && FromTest(r, TestClose(r, suiteId, test));
  }

  lemma {:induction false} TestFromRows(c: Context, rows: seq<TestRow>, r: TestRow)
    requires r in rows
    ensures TestAll(c, r, Origin(rows))
  {
    forall suiteId, suite, q | TestWord(c, r, suiteId, suite, q).Some?
      ensures All(TestWord(c, r, suiteId, suite, q).value.word, Origin(rows))
    {
      TestOrigin(c, r, suiteId, suite, q);
    }
  }

  /** Every test, attempt and case event of a stream is about one of its rows. */
  lemma {:induction false} StreamOrigin(c: Context, rows: seq<TestRow>, e: Closing, q: Queues, d: Draft)
    requires RowsOk(rows, c.time) && RunWord(c, rows, e, q).Some?
    requires d in RunWord(c, rows, e, q).value && (d.kind.Started? || d.kind.Finished?) && d.kind.level != RunLevel
    ensures FromRows(rows, d)
  {
    FilesOrigin(c, rows, q);
    BracketsInside(c, rows, e, q, d);
  }

  lemma {:induction false} FilesOrigin(c: Context, rows: seq<TestRow>, q: Queues)
    requires RowsOk(rows, c.time) && FilesWord(c, rows, KeysSeen(rows, FileOf), q).Some?
    ensures All(FilesWord(c, rows, KeysSeen(rows, FileOf), q).value.word, Origin(rows))
  {
    forall r | r in rows
      ensures TestAll(c, r, Origin(rows))
    {
      TestFromRows(c, rows, r);
    }
    FilesAll(c, rows, KeysSeen(rows, FileOf), q, Origin(rows));
  }

  /** All brackets but those of the run are in the files' part of the stream. */
  lemma {:induction false} BracketsInside(c: Context, rows: seq<TestRow>, e: Closing, q: Queues, d: Draft)
    requires RunWord(c, rows, e, q).Some? && d in RunWord(c, rows, e, q).value
    requires (d.kind.Started? || d.kind.Finished?) && d.kind.level != RunLevel
    ensures d in FilesWord(c, rows, KeysSeen(rows, FileOf), q).value.word
  {
    if d in ClosingWord(c, e) { ClosingBrackets(c, e, d); }
    if d in Opening(c) { OpeningBrackets(c, d); }
  }

  lemma {:induction false} OpeningBrackets(c: Context, d: Draft)
    requires d in Opening(c) && (d.kind.Started? || d.kind.Finished?)
    ensures d.kind.level == RunLevel
  {}

  lemma {:induction false} ClosingBrackets(c: Context, e: Closing, d: Draft)
    requires d in ClosingWord(c, e) && (d.kind.Started? || d.kind.Finished?)
    ensures d.kind.level == RunLevel
  {
    var leaf := (x: Draft) => !x.kind.Started? && !x.kind.Finished?;
    RunDiagnosticsAll(c, e.diagnostics, |e.diagnostics|, leaf);
  }

  // ---------------------------------------------------------------- nothing is missing

  /** The word contains the events of the test. */
  ghost predicate Holds(w: seq<Draft>, c: Context, r: TestRow) {
    exists suiteId, suite, q :: TestWord(c, r, suiteId, suite, q).Some? && Contains(w, TestWord(c, r, suiteId, suite, q).value.word)
  }

  ghost predicate Contains(w: seq<Draft>, part: seq<Draft>) {
    forall d :: d in part ==> d in w
  }

  lemma {:induction false} HoldsMore(w: seq<Draft>, v: seq<Draft>, c: Context, r: TestRow)
    requires Holds(w, c, r) && Contains(v, w)
    ensures Holds(v, c, r)
  {
    var suiteId, suite, q :|
      TestWord(c, r, suiteId, suite, q).Some? && Contains(w, TestWord(c, r, suiteId, suite, q).value.word);
    assert Contains(v, TestWord(c, r, suiteId, suite, q).value.word);
  }

  lemma {:induction false} TestsHold(c: Context, rows: seq<TestRow>, suiteId: string, suite: Interval, q: Queues, r: TestRow)
    requires r in rows && TestsWord(c, rows, suiteId, suite, q).Some?
    ensures Holds(TestsWord(c, rows, suiteId, suite, q).value.word, c, r)
  {
    var init, last := rows[..|rows| - 1], rows[|rows| - 1];
    var before := TestsWord(c, init, suiteId, suite, q).value;
    var all := TestsWord(c, rows, suiteId, suite, q).value.word;
    if r in init {
      TestsHold(c, init, suiteId, suite, q, r);
      HoldsMore(before.word, all, c, r);
    } else {
      assert r == last;
      assert Contains(all, TestWord(c, r, suiteId, suite, before.queues).value.word);
    }
  }

  lemma {:induction false} SuiteHolds(
      c: Context, rows: seq<TestRow>, suite: string, fileId: string, file: Interval, q: Queues, r: TestRow)
    requires r in rows && r.suite == suite && SuiteWord(c, rows, suite, fileId, file, q).Some?
    ensures Holds(SuiteWord(c, rows, suite, fileId, file, q).value.word, c, r)
  {
    var mine := WithKey(rows, SuiteOf, suite);
    var suiteId, time := c.suiteIds[IdOf(mine[0])], IntervalOf(mine, file);
    WithKeyMember(rows, SuiteOf, suite, r);
    TestsHold(c, mine, suiteId, time, q, r);
    HoldsMore(TestsWord(c, mine, suiteId, time, q).value.word, SuiteWord(c, rows, suite, fileId, file, q).value.word, c, r);
  }

  lemma {:induction false} SuitesHold(
      c: Context, rows: seq<TestRow>, suites: seq<string>, fileId: string, file: Interval, q: Queues, r: TestRow)
    requires r in rows && r.suite in suites && SuitesWord(c, rows, suites, fileId, file, q).Some?
    ensures Holds(SuitesWord(c, rows, suites, fileId, file, q).value.word, c, r)
  {
    var init, last := suites[..|suites| - 1], suites[|suites| - 1];
    var before := SuitesWord(c, rows, init, fileId, file, q).value;
    var all := SuitesWord(c, rows, suites, fileId, file, q).value.word;
    if r.suite in init {
      SuitesHold(c, rows, init, fileId, file, q, r);
      HoldsMore(before.word, all, c, r);
    } else {
      SuiteHolds(c, rows, last, fileId, file, before.queues, r);
      HoldsMore(SuiteWord(c, rows, last, fileId, file, before.queues).value.word, all, c, r);
    }
  }

  lemma {:induction false} FileHolds(c: Context, rows: seq<TestRow>, path: string, q: Queues, r: TestRow)
    requires r in rows && r.file == path && FileWord(c, rows, path, q).Some?
    ensures Holds(FileWord(c, rows, path, q).value.word, c, r)
  {
    var mine := WithKey(rows, FileOf, path);
    var fileId, time := FileId(c, path), IntervalOf(mine, c.time);
    WithKeyMember(rows, FileOf, path, r);
    KeysSeenMember(mine, SuiteOf, r.suite);
    assert SuiteOf(r) == r.suite;
    SuitesHold(c, mine, KeysSeen(mine, SuiteOf), fileId, time, q, r);
    HoldsMore(SuitesWord(c, mine, KeysSeen(mine, SuiteOf), fileId, time, q).value.word,
              FileWord(c, rows, path, q).value.word, c, r);
  }

  lemma {:induction false} FilesHold(c: Context, rows: seq<TestRow>, paths: seq<string>, q: Queues, r: TestRow)
    requires r in rows && r.file in paths && FilesWord(c, rows, paths, q).Some?
    ensures Holds(FilesWord(c, rows, paths, q).value.word, c, r)
  {
    var init, last := paths[..|paths| - 1], paths[|paths| - 1];
    var before := FilesWord(c, rows, init, q).value;
    var all := FilesWord(c, rows, paths, q).value.word;
    if r.file in init {
      FilesHold(c, rows, init, q, r);
      HoldsMore(before.word, all, c, r);
    } else {
      FileHolds(c, rows, last, before.queues, r);
      HoldsMore(FileWord(c, rows, last, before.queues).value.word, all, c, r);
    }
  }

  lemma {:induction false} StreamHolds(c: Context, rows: seq<TestRow>, e: Closing, q: Queues, r: TestRow)
    requires r in rows && RunWord(c, rows, e, q).Some?
    ensures Holds(RunWord(c, rows, e, q).value, c, r)
  {
    KeysSeenMember(rows, FileOf, r.file);
    assert FileOf(r) == r.file;
    FilesHold(c, rows, KeysSeen(rows, FileOf), q, r);
    HoldsMore(FilesWord(c, rows, KeysSeen(rows, FileOf), q).value.word, RunWord(c, rows, e, q).value, c, r);
  }

  lemma {:induction false} AttemptIn(r: TestRow, n: nat, test: Interval, i: nat)
    requires i < n <= |History(r)|
    ensures Contains(AttemptWord(r, n, test), AttemptPair(r, i, test))
  {
    if i < n - 1 { AttemptIn(r, n - 1, test, i); }
  }

  lemma {:induction false} CaseIn(r: TestRow, n: nat, test: Interval, i: nat)
    requires i < n <= |r.cases| && CaseWord(r, n, test).Some?
    ensures Contains(CaseWord(r, n, test).value, CasePair(r, i, test))
  {
    if i < n - 1 { CaseIn(r, n - 1, test, i); }
  }

  /** The word has an event of that kind about that entity. */
  ghost predicate Has(w: seq<Draft>, kind: Kind, entity: string) {
    exists d :: d in w && d.kind == kind && d.entity == entity
  }

  ghost predicate HasBoth(w: seq<Draft>, level: Level, entity: string) {
    Has(w, Started(level), entity) && Has(w, Finished(level), entity)
  }

  lemma {:induction false} PairIn(w: seq<Draft>, pair: seq<Draft>, level: Level, entity: string)
    requires Contains(w, pair) && |pair| == 2
    requires pair[0].kind == Started(level) && pair[0].entity == entity
    requires pair[1].kind == Finished(level) && pair[1].entity == entity
    ensures HasBoth(w, level, entity)
  {
    assert pair[0] in pair && pair[1] in pair;
  }

  /** Both ends of the row's test, of all its attempts and of all its cases. */
  ghost predicate Complete(w: seq<Draft>, r: TestRow) {
    && HasBoth(w, TestLevel, IdOf(r))
    && (forall i :: 0 <= i < |History(r)| ==> HasBoth(w, AttemptLevel, AttemptId(IdOf(r), AttemptNumber(r, i))))
    && (forall i :: 0 <= i < |r.cases| ==> HasBoth(w, CaseLevel, r.cases[i].caseId))
  }

  lemma {:induction false} TestComplete(w: seq<Draft>, c: Context, r: TestRow, suiteId: string, suite: Interval, q: Queues)
    requires TestWord(c, r, suiteId, suite, q).Some? && Contains(w, TestWord(c, r, suiteId, suite, q).value.word)
    ensures Complete(w, r)
  {
    var test := TestInterval(r, suite);
    var word := TestWord(c, r, suiteId, suite, q).value.word;
    var inner := EvidenceWord(c, r, test, q).value.word;
    assert Contains(w, [TestOpen(r, suiteId, test), TestClose(r, suiteId, test)]) by {
      assert TestOpen(r, suiteId, test) in word && TestClose(r, suiteId, test) in word;
    }
    PairIn(w, [TestOpen(r, suiteId, test), TestClose(r, suiteId, test)], TestLevel, IdOf(r));
    assert Contains(w, inner);
    forall i | 0 <= i < |History(r)|
      ensures HasBoth(w, AttemptLevel, AttemptId(IdOf(r), AttemptNumber(r, i)))
    {
      AttemptIn(r, |History(r)|, test, i);
      assert Contains(inner, AttemptWord(r, |History(r)|, test));
      PairIn(w, AttemptPair(r, i, test), AttemptLevel, AttemptId(IdOf(r), AttemptNumber(r, i)));
    }
    forall i | 0 <= i < |r.cases|
      ensures HasBoth(w, CaseLevel, r.cases[i].caseId)
    {
      CaseIn(r, |r.cases|, test, i);
      assert Contains(inner, CaseWord(r, |r.cases|, test).value);
      PairIn(w, CasePair(r, i, test), CaseLevel, r.cases[i].caseId);
    }
  }

  lemma {:induction false} StreamComplete(c: Context, rows: seq<TestRow>, e: Closing, q: Queues, r: TestRow)
    requires r in rows && RunWord(c, rows, e, q).Some?
    ensures Complete(RunWord(c, rows, e, q).value, r)
  {
    StreamHolds(c, rows, e, q, r);
    var w := RunWord(c, rows, e, q).value;
    var suiteId, suite, q' :|
      TestWord(c, r, suiteId, suite, q').Some? && Contains(w, TestWord(c, r, suiteId, suite, q').value.word);
    TestComplete(w, c, r, suiteId, suite, q');
  }

  // ---------------------------------------------------------------- the lookup

  lemma {:induction false} LinkedFound(w: seq<Draft>, kind: Kind, entity: string)
    requires Has(w, kind, entity)
    ensures Linked(w, kind, entity).Some?
    ensures var d := Linked(w, kind, entity).value; d in w && d.kind == kind && d.entity == entity
  {
    var d :| d in w && d.kind == kind && d.entity == entity;
    var init, last := w[..|w| - 1], w[|w| - 1];
    if !(last.kind == kind && last.entity == entity) {
      assert d in init;
      LinkedFound(init, kind, entity);
    }
  }

  /** An attempt identity determines its test and its number. */
  lemma {:induction false} AttemptIdInjective(a: string, m: nat, b: string, n: nat)
    requires AttemptId(a, m) == AttemptId(b, n)
    ensures a == b && m == n
  {
    var s := AttemptId(a, m);
    NoSlash(m);
    NoSlash(n);
    TailAfterSlash(s, a + "/attempt", Decimal(m), b + "/attempt", Decimal(n));
    DecimalInjective(m, n);
    assert s[..|a|] == a && s[..|b|] == b;
  }

  // ---------------------------------------------------------------- acceptance

  /** The event found for one of the row's tests is that row's. */
  lemma {:induction false} TestRecorded(c: Context, rows: seq<TestRow>, e: Closing, q: Queues, r: TestRow)
    requires RowsOk(rows, c.time) && RunWord(c, rows, e, q).Some? && r in rows
    ensures var w := RunWord(c, rows, e, q).value;
            && Linked(w, Started(TestLevel), IdOf(r)).Some?
            && Linked(w, Finished(TestLevel), IdOf(r)).Some?
            && NoEmptyQuarantine(Linked(w, Finished(TestLevel), IdOf(r)).value, r)
            && Recorded(w, TestLevel, IdOf(r), r.started, r.finished)
  {
    var w := RunWord(c, rows, e, q).value;
    StreamComplete(c, rows, e, q, r);
    LinkedFound(w, Started(TestLevel), IdOf(r));
    LinkedFound(w, Finished(TestLevel), IdOf(r));
    var s, f := Linked(w, Started(TestLevel), IdOf(r)).value, Linked(w, Finished(TestLevel), IdOf(r)).value;
    StreamOrigin(c, rows, e, q, s);
    StreamOrigin(c, rows, e, q, f);
    var t :| t in rows && FromTest(t, s);
    var u :| u in rows && FromTest(u, f);
    assert RowOk(r, c.time);
  }

  /** Which row an attempt event with that identity is about. */
  lemma {:induction false} AttemptOwner(rows: seq<TestRow>, time: Interval, r: TestRow, i: nat, t: TestRow, j: nat)
    requires RowsOk(rows, time) && r in rows && t in rows && i < |r.attempts| && j < |History(t)|
    requires AttemptId(IdOf(r), i + 1) == AttemptId(IdOf(t), AttemptNumber(t, j))
    ensures t == r && j == i
  {
    AttemptIdInjective(IdOf(r), i + 1, IdOf(t), AttemptNumber(t, j));
    assert RowOk(r, time);
  }

  ghost predicate AttemptTimed(r: TestRow, i: nat, d: Draft, start: bool)
    requires i < |r.attempts|
  {
    Times(if start then r.attempts[i].started else r.attempts[i].finished, d.at)
  }

  lemma {:induction false} AttemptTimes(rows: seq<TestRow>, time: Interval, r: TestRow, i: nat, d: Draft, start: bool)
    requires RowsOk(rows, time) && r in rows && i < |r.attempts| && FromRows(rows, d)
    requires d.kind == if start then Started(AttemptLevel) else Finished(AttemptLevel)
    requires d.entity == AttemptId(IdOf(r), i + 1)
    ensures AttemptTimed(r, i, d, start)
  {
    var t :| t in rows && FromTest(t, d);
    assert FromAttempt(t, d, start);
    var j :| 0 <= j < |History(t)| && d.entity == AttemptId(IdOf(t), AttemptNumber(t, j))
      && Times(if start then History(t)[j].started else History(t)[j].finished, d.at);
    AttemptOwner(rows, time, r, i, t, j);
  }

  lemma {:induction false} AttemptFound(
      c: Context, rows: seq<TestRow>, e: Closing, q: Queues, r: TestRow, i: nat, start: bool)
    requires RowsOk(rows, c.time) && RunWord(c, rows, e, q).Some? && r in rows && i < |r.attempts|
    ensures var d := Linked(RunWord(c, rows, e, q).value, if start then Started(AttemptLevel) else Finished(AttemptLevel),
                            AttemptId(IdOf(r), i + 1));
            d.Some? && AttemptTimed(r, i, d.value, start)
  {
    var w := RunWord(c, rows, e, q).value;
    var kind := if start then Started(AttemptLevel) else Finished(AttemptLevel);
    StreamComplete(c, rows, e, q, r);
    assert AttemptNumber(r, i) == i + 1 by { assert RowOk(r, c.time); }
    assert HasBoth(w, AttemptLevel, AttemptId(IdOf(r), AttemptNumber(r, i)));
    LinkedFound(w, kind, AttemptId(IdOf(r), i + 1));
    var d := Linked(w, kind, AttemptId(IdOf(r), i + 1)).value;
    StreamOrigin(c, rows, e, q, d);
    AttemptTimes(rows, c.time, r, i, d, start);
  }

  ghost predicate CaseTimed(r: TestRow, i: nat, d: Draft, start: bool)
    requires i < |r.cases|
  {
    Times(if start then r.cases[i].started else r.cases[i].finished, d.at)
  }

  lemma {:induction false} CaseTimes(rows: seq<TestRow>, time: Interval, r: TestRow, i: nat, d: Draft, start: bool)
    requires RowsOk(rows, time) && r in rows && i < |r.cases| && FromRows(rows, d)
    requires d.kind == if start then Started(CaseLevel) else Finished(CaseLevel)
    requires d.entity == r.cases[i].caseId
    ensures CaseTimed(r, i, d, start)
  {
    var t :| t in rows && FromTest(t, d);
    assert FromCase(t, d, start);
    var j :| 0 <= j < |t.cases| && d.entity == t.cases[j].caseId
      && Times(if start then t.cases[j].started else t.cases[j].finished, d.at);
    assert r.cases[i].started == t.cases[j].started && r.cases[i].finished == t.cases[j].finished;
  }

  lemma {:induction false} CaseFound(
      c: Context, rows: seq<TestRow>, e: Closing, q: Queues, r: TestRow, i: nat, start: bool)
    requires RowsOk(rows, c.time) && RunWord(c, rows, e, q).Some? && r in rows && i < |r.cases|
    ensures var d := Linked(RunWord(c, rows, e, q).value, if start then Started(CaseLevel) else Finished(CaseLevel),
                            r.cases[i].caseId);
            d.Some? && CaseTimed(r, i, d.value, start)
  {
    var w := RunWord(c, rows, e, q).value;
    var kind := if start then Started(CaseLevel) else Finished(CaseLevel);
    StreamComplete(c, rows, e, q, r);
    LinkedFound(w, kind, r.cases[i].caseId);
    var d := Linked(w, kind, r.cases[i].caseId).value;
    StreamOrigin(c, rows, e, q, d);
    CaseTimes(rows, c.time, r, i, d, start);
  }

  lemma {:induction false} RowAccepted(c: Context, rows: seq<TestRow>, e: Closing, q: Queues, r: TestRow)
    requires RowsOk(rows, c.time) && RunWord(c, rows, e, q).Some? && r in rows
    ensures RowRecorded(RunWord(c, rows, e, q).value, r)
  {
    var w := RunWord(c, rows, e, q).value;
    assert RowOk(r, c.time) && RowIdentity(r) == IdOf(r);
    TestRecorded(c, rows, e, q, r);
    forall i | 0 <= i < |r.attempts|
      ensures Recorded(w, AttemptLevel, AttemptId(IdOf(r), i + 1), r.attempts[i].started, r.attempts[i].finished)
    {
      AttemptFound(c, rows, e, q, r, i, true);
      AttemptFound(c, rows, e, q, r, i, false);
      assert r.attempts[i] in r.attempts;
    }
    forall i | 0 <= i < |r.cases|
      ensures Recorded(w, CaseLevel, r.cases[i].caseId, r.cases[i].started, r.cases[i].finished)
    {
      CaseFound(c, rows, e, q, r, i, true);
      CaseFound(c, rows, e, q, r, i, false);
      assert r.cases[i] in r.cases;
    }
  }

  lemma {:induction false} DraftsOfNumbered(runId: string, w: seq<Draft>)
    ensures DraftsOf(Numbered(runId, w)) == w
    ensures forall i :: 0 <= i < |w| ==> Numbered(runId, w)[i].sequence == i + 1 && Numbered(runId, w)[i].runId == runId
  {
    forall i | 0 <= i < |w|
      ensures Numbered(runId, w)[i] == Event(i + 1, runId, w[i])
    {
      NumberedAt(runId, w, i);
    }
  }

  lemma {:induction false} Boundaries(c: Context, rows: seq<TestRow>, e: Closing, q: Queues)
    requires RunWord(c, rows, e, q).Some?
    ensures var w := RunWord(c, rows, e, q).value;
            && |w| >= 3 && w[0] == Opening(c)[0] && w[1] == Opening(c)[1]
            && w[|w| - 1] == Draft(Finished(RunLevel), c.runId, "", c.time.finish, Plain(e.stats))
  {}

  /** The checker accepts every stream `lifecycle` builds from sound rows. */
  lemma {:induction false} StreamAccepted(c: Context, rows: seq<TestRow>, e: Closing, q: Queues)
    requires RowsOk(rows, c.time) && RunWord(c, rows, e, q).Some?
    ensures EventsOk(Numbered(c.runId, RunWord(c, rows, e, q).value),
                     Report(c.runId, c.time, c.digest, c.notice, e.stats, rows))
  {
    var w := RunWord(c, rows, e, q).value;
    DraftsOfNumbered(c.runId, w);
    Boundaries(c, rows, e, q);
    StreamInTime(c, rows, e, q);
    forall r | r in rows
      ensures RowRecorded(w, r)
    {
      RowAccepted(c, rows, e, q, r);
    }
  }

  /** Rows whose cases share identities: a stream is accepted exactly when such cases were observed at the
      same times, since the checker keeps one event per identity. */
  lemma {:induction false} AcceptedExactlyWhen(c: Context, rows: seq<TestRow>, e: Closing, q: Queues)
    requires RowsSound(rows, c.time) && ObservedAlike(rows) && RunWord(c, rows, e, q).Some?
    ensures var doc := Report(c.runId, c.time, c.digest, c.notice, e.stats, rows);
            EventsOk(Numbered(c.runId, RunWord(c, rows, e, q).value), doc) <==> CasesAgree(rows)
  {
    var w := RunWord(c, rows, e, q).value;
    DraftsOfNumbered(c.runId, w);
    if CasesAgree(rows) { StreamAccepted(c, rows, e, q); }
    if forall r :: r in rows ==> RowRecorded(w, r) { RecordedCasesAgree(w, rows, c.time); }
  }

  lemma {:induction false} RecordedCasesAgree(w: seq<Draft>, rows: seq<TestRow>, time: Interval)
    requires RowsSound(rows, time) && ObservedAlike(rows) && forall r :: r in rows ==> RowRecorded(w, r)
    ensures CasesAgree(rows)
  {
    forall r, s, i, j
      | r in rows && s in rows && 0 <= i < |r.cases| && 0 <= j < |s.cases| && r.cases[i].caseId == s.cases[j].caseId
      ensures r.cases[i].started == s.cases[j].started && r.cases[i].finished == s.cases[j].finished
    {
      SharedCase(w, r, i, s, j, time);
    }
  }

  lemma {:induction false} SharedCase(w: seq<Draft>, r: TestRow, i: nat, s: TestRow, j: nat, time: Interval)
    requires RowOk(r, time) && RowOk(s, time) && RowRecorded(w, r) && RowRecorded(w, s)
    requires i < |r.cases| && j < |s.cases| && r.cases[i].caseId == s.cases[j].caseId
    requires r.cases[i].started.Some? == s.cases[j].started.Some?
    ensures r.cases[i].started == s.cases[j].started && r.cases[i].finished == s.cases[j].finished
  {
    var k, l := r.cases[i], s.cases[j];
    assert k in r.cases && l in s.cases;
    assert Recorded(w, CaseLevel, k.caseId, k.started, k.finished) && Recorded(w, CaseLevel, l.caseId, l.started, l.finished);
  }
}
