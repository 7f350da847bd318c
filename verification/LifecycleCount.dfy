/** Counting in an event stream: regrouping rows by file and suite neither drops,
    repeats nor invents events. */
module LifecycleCount {
  import opened Orders
  import opened Seqs
  import opened Grouping
  import opened Lifecycle

  /** The word of a test weighs `g` whatever its surroundings. */
  ghost predicate Weighs(c: Context, r: TestRow, f: Draft -> nat, g: TestRow -> nat) {
    forall suiteId, suite, q ::
      TestWord(c, r, suiteId, suite, q).Some? ==> Sum(TestWord(c, r, suiteId, suite, q).value.word, f) == g(r)
  }

  /** Both ends of a file or suite weigh one, or both nothing. */
  ghost predicate BracketsWeigh(f: Draft -> nat, counted: bool) {
    forall d: Draft :: d.kind in {Started(FileLevel), Finished(FileLevel), Started(SuiteLevel), Finished(SuiteLevel)} ==>
      f(d) == if counted then 1 else 0
  }

  function Twice(counted: bool, n: nat): nat { if counted then 2 * n else 0 }

  lemma {:induction false} SumSnoc<T>(s: seq<T>, v: T -> nat)
    requires s != []
    ensures Sum(s, v) == Sum(s[..|s| - 1], v) + v(s[|s| - 1])
  {
    var init, last := s[..|s| - 1], s[|s| - 1];
    assert s == init + [last];
    SumAppend(init, [last], v);
    SumOne(last, v);
  }

  lemma {:induction false} SumBracket<T>(a: T, w: seq<T>, b: T, v: T -> nat)
    ensures Sum([a] + w + [b], v) == v(a) + Sum(w, v) + v(b)
  {
    SumAppend([a] + w, [b], v);
    SumAppend([a], w, v);
    SumOne(a, v);
    SumOne(b, v);
  }

  lemma {:induction false} SumThree<T>(w: seq<T>, a: seq<T>, b: seq<T>, c: seq<T>, v: T -> nat)
    requires w == a + b + c
    ensures Sum(w, v) == Sum(a, v) + Sum(b, v) + Sum(c, v)
  {
    SumAppend(a + b, c, v);
    SumAppend(a, b, v);
  }

  lemma {:induction false} TestsWeigh(
      c: Context, rows: seq<TestRow>, suiteId: string, suite: Interval, q: Queues, f: Draft -> nat, g: TestRow -> nat)
    requires forall r :: r in rows ==> Weighs(c, r, f, g)
    requires TestsWord(c, rows, suiteId, suite, q).Some?
    ensures Sum(TestsWord(c, rows, suiteId, suite, q).value.word, f) == Sum(rows, g)
  {
    if rows != [] {
      var init, r := rows[..|rows| - 1], rows[|rows| - 1];
      TestsWeigh(c, init, suiteId, suite, q, f, g);
      var before := TestsWord(c, init, suiteId, suite, q).value;
      assert Weighs(c, r, f, g);
      SumAppend(before.word, TestWord(c, r, suiteId, suite, before.queues).value.word, f);
      SumSnoc(rows, g);
    }
  }

  lemma {:induction false} SuiteWeighs(
      c: Context, rows: seq<TestRow>, suite: string, fileId: string, file: Interval, q: Queues,
      f: Draft -> nat, g: TestRow -> nat, counted: bool)
    requires (forall r :: r in rows ==> Weighs(c, r, f, g)) && BracketsWeigh(f, counted)
    requires SuiteWord(c, rows, suite, fileId, file, q).Some?
    ensures Sum(SuiteWord(c, rows, suite, fileId, file, q).value.word, f) ==
            Twice(counted, 1) + Sum(WithKey(rows, SuiteOf, suite), g)
  {
    var mine := WithKey(rows, SuiteOf, suite);
    var suiteId, time := c.suiteIds[IdOf(mine[0])], IntervalOf(mine, file);
    forall r | r in mine
      ensures Weighs(c, r, f, g)
    {
      WithKeyMember(rows, SuiteOf, suite, r);
    }
    TestsWeigh(c, mine, suiteId, time, q, f, g);
    SumBracket(Draft(Started(SuiteLevel), suiteId, fileId, time.start, Plain(suite)),
               TestsWord(c, mine, suiteId, time, q).value.word,
               Draft(Finished(SuiteLevel), suiteId, fileId, time.finish, Tally(StatusSummary(mine))), f);
  }

  lemma {:induction false} SuitesWeigh(
      c: Context, rows: seq<TestRow>, suites: seq<string>, fileId: string, file: Interval, q: Queues,
      f: Draft -> nat, g: TestRow -> nat, counted: bool)
    requires (forall r :: r in rows ==> Weighs(c, r, f, g)) && BracketsWeigh(f, counted)
    requires SuitesWord(c, rows, suites, fileId, file, q).Some?
    ensures Sum(SuitesWord(c, rows, suites, fileId, file, q).value.word, f) ==
            Twice(counted, |suites|) + Sum(Regrouped(rows, SuiteOf, suites), g)
  {
    if suites != [] {
      var init, last := suites[..|suites| - 1], suites[|suites| - 1];
      SuitesWeigh(c, rows, init, fileId, file, q, f, g, counted);
      var before := SuitesWord(c, rows, init, fileId, file, q).value;
      SuiteWeighs(c, rows, last, fileId, file, before.queues, f, g, counted);
      SumAppend(before.word, SuiteWord(c, rows, last, fileId, file, before.queues).value.word, f);
      SumAppend(Regrouped(rows, SuiteOf, init), WithKey(rows, SuiteOf, last), g);
    }
  }

  function SuitesIn(rows: seq<TestRow>, path: string): nat {
    |KeysSeen(WithKey(rows, FileOf, path), SuiteOf)|
  }

  /** The file's and its suites' own events. */
  function FileBrackets(rows: seq<TestRow>, path: string, counted: bool): nat {
    Twice(counted, 1 + SuitesIn(rows, path))
  }

  lemma {:induction false} FileWeighs(
      c: Context, rows: seq<TestRow>, path: string, q: Queues, f: Draft -> nat, g: TestRow -> nat, counted: bool)
    requires (forall r :: r in rows ==> Weighs(c, r, f, g)) && BracketsWeigh(f, counted)
    requires FileWord(c, rows, path, q).Some?
    ensures Sum(FileWord(c, rows, path, q).value.word, f) ==
            FileBrackets(rows, path, counted) + Sum(WithKey(rows, FileOf, path), g)
  {
    var mine := WithKey(rows, FileOf, path);
    var fileId, time := FileId(c, path), IntervalOf(mine, c.time);
    var suites := KeysSeen(mine, SuiteOf);
    forall r | r in mine
      ensures Weighs(c, r, f, g)
    {
      WithKeyMember(rows, FileOf, path, r);
    }
    SuitesWeigh(c, mine, suites, fileId, time, q, f, g, counted);
    RegroupedPermutes(mine, SuiteOf);
    SumPermutation(Regrouped(mine, SuiteOf, suites), mine, g);
    SumBracket(Draft(Started(FileLevel), fileId, c.runId, time.start, Plain(path)),
               SuitesWord(c, mine, suites, fileId, time, q).value.word,
               Draft(Finished(FileLevel), fileId, c.runId, time.finish, Tally(StatusSummary(mine))), f);
  }

  function Brackets(rows: seq<TestRow>, paths: seq<string>, counted: bool): nat {
    if paths == [] then 0
    else Brackets(rows, paths[..|paths| - 1], counted) + FileBrackets(rows, paths[|paths| - 1], counted)
  }

  lemma {:induction false} FilesWeigh(
      c: Context, rows: seq<TestRow>, paths: seq<string>, q: Queues, f: Draft -> nat, g: TestRow -> nat, counted: bool)
    requires (forall r :: r in rows ==> Weighs(c, r, f, g)) && BracketsWeigh(f, counted)
    requires FilesWord(c, rows, paths, q).Some?
    ensures Sum(FilesWord(c, rows, paths, q).value.word, f) ==
            Brackets(rows, paths, counted) + Sum(Regrouped(rows, FileOf, paths), g)
  {
    if paths != [] {
      var init, last := paths[..|paths| - 1], paths[|paths| - 1];
      FilesWeigh(c, rows, init, q, f, g, counted);
      var before := FilesWord(c, rows, init, q).value;
      FileWeighs(c, rows, last, before.queues, f, g, counted);
      SumAppend(before.word, FileWord(c, rows, last, before.queues).value.word, f);
      SumAppend(Regrouped(rows, FileOf, init), WithKey(rows, FileOf, last), g);
    }
  }

  /** The weight of a whole stream, from the rows in their original order. */
  lemma {:induction false} RunWeighs(
      c: Context, rows: seq<TestRow>, e: Closing, q: Queues, f: Draft -> nat, g: TestRow -> nat, counted: bool)
    returns (opening: seq<Draft>, closing: seq<Draft>)
    requires (forall r :: r in rows ==> Weighs(c, r, f, g)) && BracketsWeigh(f, counted)
    requires RunWord(c, rows, e, q).Some?
    ensures opening == Opening(c) && closing == ClosingWord(c, e)
    ensures Sum(RunWord(c, rows, e, q).value, f) ==
            Sum(opening, f) + Brackets(rows, KeysSeen(rows, FileOf), counted) + Sum(rows, g) + Sum(closing, f)
  {
    var paths := KeysSeen(rows, FileOf);
    var files := FilesWord(c, rows, paths, q).value.word;
    opening, closing := Opening(c), ClosingWord(c, e);
    FilesWeigh(c, rows, paths, q, f, g, counted);
    RegroupedPermutes(rows, FileOf);
    SumPermutation(Regrouped(rows, FileOf, paths), rows, g);
    SumThree(RunWord(c, rows, e, q).value, opening, files, closing, f);
  }

  // ---------------------------------------------------------------- files and suites

  function Files(rows: seq<TestRow>): set<string> { set r | r in rows :: r.file }

  function FileSuites(rows: seq<TestRow>): set<(string, string)> { set r | r in rows :: (r.file, r.suite) }

  lemma {:induction false} FilesCounted(rows: seq<TestRow>)
    ensures |KeysSeen(rows, FileOf)| == |Files(rows)|
  {
    KeysSeenDistinct(rows, FileOf);
    DistinctSize(KeysSeen(rows, FileOf));
    forall p
      ensures p in KeysSeen(rows, FileOf) <==> p in Files(rows)
    {
      KeysSeenMember(rows, FileOf, p);
    }
    assert Elements(KeysSeen(rows, FileOf)) == Files(rows);
  }

  lemma {:induction false} SuiteSeen(rows: seq<TestRow>, path: string, suite: string)
    requires forall r :: r in rows ==> r.file == path
    ensures suite in KeysSeen(rows, SuiteOf) <==> (path, suite) in FileSuites(rows)
  {
    KeysSeenMember(rows, SuiteOf, suite);
    if (path, suite) in FileSuites(rows) {
      var r :| r in rows && (path, suite) == (r.file, r.suite);
      assert SuiteOf(r) == suite;
    }
    if x :| x in rows && SuiteOf(x) == suite { assert (x.file, x.suite) == (path, suite); }
  }

  lemma {:induction false} KeysOneMore(rows: seq<TestRow>, init: seq<TestRow>, last: TestRow)
    requires rows == init + [last]
    ensures |KeysSeen(rows, SuiteOf)| == |KeysSeen(init, SuiteOf)| + if last.suite in KeysSeen(init, SuiteOf) then 0 else 1
  {
    assert rows[..|rows| - 1] == init;
  }

  /** The suites of one file. */
  lemma {:induction false} OneFileSuites(rows: seq<TestRow>, path: string)
    requires forall r :: r in rows ==> r.file == path
    ensures |KeysSeen(rows, SuiteOf)| == |FileSuites(rows)|
  {
    if rows != [] {
      var init, last := rows[..|rows| - 1], rows[|rows| - 1];
      assert rows == init + [last];
      OneFileSuites(init, path);
      assert FileSuites(rows) == FileSuites(init) + {(path, last.suite)};
      SuiteSeen(init, path, last.suite);
      KeysOneMore(rows, init, last);
    }
  }

  lemma {:induction false} PairsAppend(a: seq<TestRow>, b: seq<TestRow>)
    ensures FileSuites(a + b) == FileSuites(a) + FileSuites(b)
  {
    forall p
      ensures p in FileSuites(a + b) <==> p in FileSuites(a) + FileSuites(b)
    {
      if p in FileSuites(a + b) { var r :| r in a + b && p == (r.file, r.suite); }
      if p in FileSuites(a) { var r :| r in a && p == (r.file, r.suite); assert r in a + b; }
      if p in FileSuites(b) { var r :| r in b && p == (r.file, r.suite); assert r in a + b; }
    }
  }

  lemma {:induction false} RegroupedFile(rows: seq<TestRow>, paths: seq<string>, r: TestRow)
    requires r in Regrouped(rows, FileOf, paths)
    ensures r.file in paths
  {
    var init, last := paths[..|paths| - 1], paths[|paths| - 1];
    if r in WithKey(rows, FileOf, last) {
      WithKeyMember(rows, FileOf, last, r);
    } else {
      RegroupedFile(rows, init, r);
    }
  }

  lemma {:induction false} OtherFiles(rows: seq<TestRow>, paths: seq<string>, last: string)
    requires last !in paths
    ensures FileSuites(Regrouped(rows, FileOf, paths)) !! FileSuites(WithKey(rows, FileOf, last))
  {
    forall r, s | r in Regrouped(rows, FileOf, paths) && s in WithKey(rows, FileOf, last)
      ensures r.file != s.file
    {
      RegroupedFile(rows, paths, r);
      WithKeyMember(rows, FileOf, last, s);
    }
  }

  lemma {:induction false} SuitesOfFile(rows: seq<TestRow>, path: string)
    ensures SuitesIn(rows, path) == |FileSuites(WithKey(rows, FileOf, path))|
  {
    var mine := WithKey(rows, FileOf, path);
    forall r | r in mine
      ensures r.file == path
    {
      WithKeyMember(rows, FileOf, path, r);
    }
    OneFileSuites(mine, path);
  }

  lemma {:induction false} BracketsCounted(rows: seq<TestRow>, paths: seq<string>)
    requires Distinct(paths)
    ensures Brackets(rows, paths, true) == 2 * |paths| + 2 * |FileSuites(Regrouped(rows, FileOf, paths))|
  {
    if paths != [] {
      var init, last := paths[..|paths| - 1], paths[|paths| - 1];
      BracketsCounted(rows, init);
      PairsAppend(Regrouped(rows, FileOf, init), WithKey(rows, FileOf, last));
      LastIsNew(paths);
      OtherFiles(rows, init, last);
      SuitesOfFile(rows, last);
    }
  }

  lemma {:induction false} BracketsOfRows(rows: seq<TestRow>)
    ensures Brackets(rows, KeysSeen(rows, FileOf), true) == 2 * |Files(rows)| + 2 * |FileSuites(rows)|
  {
    KeysSeenDistinct(rows, FileOf);
    BracketsCounted(rows, KeysSeen(rows, FileOf));
    FilesCounted(rows);
    RegroupedPermutes(rows, FileOf);
    SameMembers(Regrouped(rows, FileOf, KeysSeen(rows, FileOf)), rows);
    assert FileSuites(Regrouped(rows, FileOf, KeysSeen(rows, FileOf))) == FileSuites(rows);
  }

  lemma {:induction false} NoBrackets(rows: seq<TestRow>, paths: seq<string>)
    ensures Brackets(rows, paths, false) == 0
  {
    if paths != [] { NoBrackets(rows, paths[..|paths| - 1]); }
  }

  // ---------------------------------------------------------------- length

  function One(d: Draft): nat { 1 }

  lemma {:induction false} SumOfOnes(w: seq<Draft>)
    ensures Sum(w, One) == |w|
  {
    if w != [] { SumOfOnes(w[1..]); }
  }

  /** Events of one row: its own two, two per attempt and case, one per benchmark and diagnostic. */
  function EventsOf(r: TestRow): nat {
    2 + 2 * |History(r)| + 2 * |r.cases| + (if r.benchmark.Some? then 1 else 0) + |r.diagnostics|
  }

  lemma {:induction false} AttemptsLength(r: TestRow, n: nat, test: Interval)
    requires n <= |History(r)|
    ensures |AttemptWord(r, n, test)| == 2 * n
  {
    if n > 0 { AttemptsLength(r, n - 1, test); }
  }

  lemma {:induction false} CasesLength(r: TestRow, n: nat, test: Interval)
    requires n <= |r.cases| && CaseWord(r, n, test).Some?
    ensures |CaseWord(r, n, test).value| == 2 * n
  {
    if n > 0 { CasesLength(r, n - 1, test); }
  }

  lemma {:induction false} DiagnosticsLength(c: Context, r: TestRow, n: nat, at: int, q: Queues)
    requires n <= |r.diagnostics| && DiagnosticWord(c, r, n, at, q).Some?
    ensures |DiagnosticWord(c, r, n, at, q).value.word| == n
  {
    if n > 0 { DiagnosticsLength(c, r, n - 1, at, q); }
  }

  lemma {:induction false} TestLength(c: Context, r: TestRow)
    ensures Weighs(c, r, One, EventsOf)
  {
    forall suiteId, suite, q | TestWord(c, r, suiteId, suite, q).Some?
      ensures Sum(TestWord(c, r, suiteId, suite, q).value.word, One) == EventsOf(r)
    {
      var test := TestInterval(r, suite);
      SumOfOnes(TestWord(c, r, suiteId, suite, q).value.word);
      AttemptsLength(r, |History(r)|, test);
      CasesLength(r, |r.cases|, test);
      DiagnosticsLength(c, r, |r.diagnostics|, test.finish, q);
    }
  }

  function Present(o: Option<string>): nat { if o.Some? then 1 else 0 }

  lemma {:induction false} RunDiagnosticsLength(c: Context, ds: seq<string>, n: nat)
    requires n <= |ds|
    ensures |RunDiagnostics(c, ds, n)| == n
  {
    if n > 0 { RunDiagnosticsLength(c, ds, n - 1); }
  }

  /** The exact number of events: three for the run, two per file and per suite of a file,
      the events of every row, and the run-level evidence. */
  lemma {:induction false} StreamLength(c: Context, rows: seq<TestRow>, e: Closing, q: Queues)
    requires RunWord(c, rows, e, q).Some?
    ensures |RunWord(c, rows, e, q).value| ==
            3 + 2 * |Files(rows)| + 2 * |FileSuites(rows)| + Sum(rows, EventsOf)
            + Present(e.coverage) + Present(e.snapshots) + Present(e.benchmarks) + |e.diagnostics|
  {
    forall r | r in rows
      ensures Weighs(c, r, One, EventsOf)
    {
      TestLength(c, r);
    }
    var opening, closing := RunWeighs(c, rows, e, q, One, EventsOf, true);
    BracketsOfRows(rows);
    SumOfOnes(RunWord(c, rows, e, q).value);
    SumOfOnes(opening);
    SumOfOnes(closing);
    RunDiagnosticsLength(c, e.diagnostics, |e.diagnostics|);
  }

  // ---------------------------------------------------------------- every row once

  /** 1 for the start of that test, 0 for everything else. */
  function Opens(identity: string): Draft -> nat {
    (d: Draft) => if d.kind == Started(TestLevel) && d.entity == identity then 1 else 0
  }

  function Closes(identity: string): Draft -> nat {
    (d: Draft) => if d.kind == Finished(TestLevel) && d.entity == identity then 1 else 0
  }

  function IsRow(identity: string): TestRow -> nat {
    (r: TestRow) => if IdOf(r) == identity then 1 else 0
  }

  ghost predicate NoTestBrackets(w: seq<Draft>) {
    forall d :: d in w ==> d.kind != Started(TestLevel) && d.kind != Finished(TestLevel)
  }

  lemma {:induction false} NothingToCount(w: seq<Draft>, identity: string)
    requires NoTestBrackets(w)
    ensures Sum(w, Opens(identity)) == 0 && Sum(w, Closes(identity)) == 0
  {
    if w != [] {
      assert w[0] in w;
      NothingToCount(w[1..], identity);
    }
  }

  lemma {:induction false} AttemptsInside(r: TestRow, n: nat, test: Interval)
    requires n <= |History(r)|
    ensures NoTestBrackets(AttemptWord(r, n, test))
  {
    if n > 0 { AttemptsInside(r, n - 1, test); }
  }

  lemma {:induction false} CasesInside(r: TestRow, n: nat, test: Interval)
    requires n <= |r.cases| && CaseWord(r, n, test).Some?
    ensures NoTestBrackets(CaseWord(r, n, test).value)
  {
    if n > 0 { CasesInside(r, n - 1, test); }
  }

  lemma {:induction false} DiagnosticsInside(c: Context, r: TestRow, n: nat, at: int, q: Queues)
    requires n <= |r.diagnostics| && DiagnosticWord(c, r, n, at, q).Some?
    ensures NoTestBrackets(DiagnosticWord(c, r, n, at, q).value.word)
  {
    if n > 0 { DiagnosticsInside(c, r, n - 1, at, q); }
  }

  lemma {:induction false} EvidenceInside(c: Context, r: TestRow, test: Interval, q: Queues)
    requires EvidenceWord(c, r, test, q).Some?
    ensures NoTestBrackets(EvidenceWord(c, r, test, q).value.word)
  {
    AttemptsInside(r, |History(r)|, test);
    CasesInside(r, |r.cases|, test);
    DiagnosticsInside(c, r, |r.diagnostics|, test.finish, q);
  }

  lemma {:induction false} TestOnce(c: Context, r: TestRow, identity: string)
    ensures Weighs(c, r, Opens(identity), IsRow(identity)) && Weighs(c, r, Closes(identity), IsRow(identity))
  {
    forall suiteId, suite, q | TestWord(c, r, suiteId, suite, q).Some?
      ensures Sum(TestWord(c, r, suiteId, suite, q).value.word, Opens(identity)) == IsRow(identity)(r)
      ensures Sum(TestWord(c, r, suiteId, suite, q).value.word, Closes(identity)) == IsRow(identity)(r)
    {
      var test := TestInterval(r, suite);
      var inside := EvidenceWord(c, r, test, q).value.word;
      EvidenceInside(c, r, test, q);
      NothingToCount(inside, identity);
      SumBracket(TestOpen(r, suiteId, test), inside, TestClose(r, suiteId, test), Opens(identity));
      SumBracket(TestOpen(r, suiteId, test), inside, TestClose(r, suiteId, test), Closes(identity));
    }
  }

  lemma {:induction false} RunDiagnosticsInside(c: Context, ds: seq<string>, n: nat)
    requires n <= |ds|
    ensures NoTestBrackets(RunDiagnostics(c, ds, n))
  {
    if n > 0 { RunDiagnosticsInside(c, ds, n - 1); }
  }

  lemma {:induction false} NoTestsOutside(c: Context, e: Closing)
    ensures NoTestBrackets(Opening(c)) && NoTestBrackets(ClosingWord(c, e))
  {
    RunDiagnosticsInside(c, e.diagnostics, |e.diagnostics|);
    var a, b := Optional(CoverageFinished, "coverage", c, e.coverage), Optional(SnapshotsAudited, "snapshots", c, e.snapshots);
    var d := Optional(BenchmarksCompared, "benchmarks", c, e.benchmarks);
    OutsideAppend(a, b);
    OutsideAppend(a + b, d);
    OutsideAppend(a + b + d, RunDiagnostics(c, e.diagnostics, |e.diagnostics|));
  }

  lemma {:induction false} OutsideAppend(a: seq<Draft>, b: seq<Draft>)
    requires NoTestBrackets(a) && NoTestBrackets(b)
    ensures NoTestBrackets(a + b)
  {}

  /** What the rows weigh is all a stream weighs, if nothing outside the tests counts. */
  lemma {:induction false} OnlyRowsWeigh(
      c: Context, rows: seq<TestRow>, e: Closing, q: Queues, f: Draft -> nat, g: TestRow -> nat)
    requires (forall r :: r in rows ==> Weighs(c, r, f, g)) && BracketsWeigh(f, false)
    requires RunWord(c, rows, e, q).Some?
    requires Sum(Opening(c), f) == 0 && Sum(ClosingWord(c, e), f) == 0
    ensures Sum(RunWord(c, rows, e, q).value, f) == Sum(rows, g)
  {
    var opening, closing := RunWeighs(c, rows, e, q, f, g, false);
    NoBrackets(rows, KeysSeen(rows, FileOf));
  }

  /** An identity is started, and finished, as often as it has rows: regrouping loses and repeats none. */
  lemma {:induction false} EveryRowOnce(c: Context, rows: seq<TestRow>, e: Closing, q: Queues, identity: string)
    requires RunWord(c, rows, e, q).Some?
    ensures Sum(RunWord(c, rows, e, q).value, Opens(identity)) == Sum(rows, IsRow(identity))
    ensures Sum(RunWord(c, rows, e, q).value, Closes(identity)) == Sum(rows, IsRow(identity))
  {
    var f, h, g := Opens(identity), Closes(identity), IsRow(identity);
    forall r | r in rows
      ensures Weighs(c, r, f, g) && Weighs(c, r, h, g)
    {
      TestOnce(c, r, identity);
    }
    NoTestsOutside(c, e);
    NothingToCount(Opening(c), identity);
    NothingToCount(ClosingWord(c, e), identity);
    OnlyRowsWeigh(c, rows, e, q, f, g);
    OnlyRowsWeigh(c, rows, e, q, h, g);
  }
}
