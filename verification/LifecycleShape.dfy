/** The shape of every event stream: well bracketed, of known length, every row once. */
module LifecycleShape {
  import opened Seqs
  import opened Grouping
  import opened Lifecycle

  // ---------------------------------------------------------------- a stack machine

  datatype Stack = Bottom | Open(level: Level, entity: string, below: Stack)

  predicate Under(outer: Level, inner: Level) {
    match inner
    case RunLevel => false
    case FileLevel => outer == RunLevel
    case SuiteLevel => outer == FileLevel
    case TestLevel => outer == SuiteLevel
    case AttemptLevel => outer == TestLevel
    case CaseLevel => outer == TestLevel
  }

  /** Started events open an interval one level down, finished events close the innermost
      one, everything else happens while something is open. */
  function Advance(s: Stack, d: Draft): Option<Stack> {
    match d.kind
    case Started(l) =>
      if (if s.Bottom? then l == RunLevel else Under(s.level, l)) then Some(Open(l, d.entity, s)) else None
    case Finished(l) =>
      if s.Open? && s.level == l && s.entity == d.entity then Some(s.below) else None
    case _ => if s.Open? then Some(s) else None
  }

  function Machine(w: seq<Draft>, s: Stack): Option<Stack> {
    if w == [] then Some(s)
    else
      var before := Machine(w[..|w| - 1], s);
      if before.None? then None else Advance(before.value, w[|w| - 1])
  }

  lemma {:induction false} MachineAppend(a: seq<Draft>, b: seq<Draft>, s: Stack)
    ensures Machine(a + b, s) == if Machine(a, s).None? then None else Machine(b, Machine(a, s).value)
  {
    if b == [] {
      assert a + b == a;
    } else {
      MachineAppend(a, b[..|b| - 1], s);
      assert (a + b)[..|a + b| - 1] == a + b[..|b| - 1];
    }
  }

  lemma {:induction false} MachineOne(d: Draft, s: Stack)
    ensures Machine([d], s) == Advance(s, d)
  {
    assert [d][..0] == [];
  }

  /** The word may occur inside an open interval of that level and leaves the stack as it was. */
  ghost predicate Neutral(w: seq<Draft>, level: Level) {
    forall s: Stack :: s.Open? && s.level == level ==> Machine(w, s) == Some(s)
  }

  lemma {:induction false} NeutralAppend(a: seq<Draft>, b: seq<Draft>, level: Level)
    requires Neutral(a, level) && Neutral(b, level)
    ensures Neutral(a + b, level)
  {
    forall s: Stack | s.Open? && s.level == level
      ensures Machine(a + b, s) == Some(s)
    {
      MachineAppend(a, b, s);
    }
  }

  lemma {:induction false} NeutralLeaf(d: Draft, level: Level)
    requires !d.kind.Started? && !d.kind.Finished?
    ensures Neutral([d], level)
  {
    forall s: Stack | s.Open? && s.level == level
      ensures Machine([d], s) == Some(s)
    {
      MachineOne(d, s);
    }
  }

  lemma {:induction false} BracketFrom(open: Draft, w: seq<Draft>, close: Draft, s: Stack)
    requires open.kind.Started? && close.kind == Finished(open.kind.level) && open.entity == close.entity
    requires if s.Bottom? then open.kind.level == RunLevel else Under(s.level, open.kind.level)
    requires Neutral(w, open.kind.level)
    ensures Machine([open] + w + [close], s) == Some(s)
  {
    MachineAppend([open] + w, [close], s);
    MachineAppend([open], w, s);
    MachineOne(open, s);
    var inner := Open(open.kind.level, open.entity, s);
    assert Machine(w, inner) == Some(inner);
    MachineOne(close, inner);
  }

  lemma {:induction false} NeutralBracket(open: Draft, w: seq<Draft>, close: Draft, outer: Level)
    requires open.kind.Started? && close.kind == Finished(open.kind.level) && open.entity == close.entity
    requires Under(outer, open.kind.level) && Neutral(w, open.kind.level)
    ensures Neutral([open] + w + [close], outer)
  {
    forall s: Stack | s.Open? && s.level == outer
      ensures Machine([open] + w + [close], s) == Some(s)
    {
      BracketFrom(open, w, close, s);
    }
  }

  lemma {:induction false} NeutralPair(open: Draft, close: Draft, outer: Level)
    requires open.kind.Started? && close.kind == Finished(open.kind.level) && open.entity == close.entity
    requires Under(outer, open.kind.level)
    ensures Neutral([open, close], outer)
  {
    NeutralBracket(open, [], close, outer);
    assert [open] + [] + [close] == [open, close];
  }

  lemma {:induction false} AttemptsNeutral(r: TestRow, n: nat, test: Interval)
    requires n <= |History(r)|
    ensures Neutral(AttemptWord(r, n, test), TestLevel)
  {
    if n > 0 {
      AttemptsNeutral(r, n - 1, test);
      var pair := AttemptPair(r, n - 1, test);
      NeutralPair(pair[0], pair[1], TestLevel);
      NeutralAppend(AttemptWord(r, n - 1, test), pair, TestLevel);
    }
  }

  lemma {:induction false} CasesNeutral(r: TestRow, n: nat, test: Interval)
    requires n <= |r.cases| && CaseWord(r, n, test).Some?
    ensures Neutral(CaseWord(r, n, test).value, TestLevel)
  {
    if n > 0 {
      CasesNeutral(r, n - 1, test);
      var pair := CasePair(r, n - 1, test);
      NeutralPair(pair[0], pair[1], TestLevel);
      NeutralAppend(CaseWord(r, n - 1, test).value, pair, TestLevel);
    }
  }

  lemma {:induction false} DiagnosticsNeutral(c: Context, r: TestRow, n: nat, at: int, q: Queues)
    requires n <= |r.diagnostics| && DiagnosticWord(c, r, n, at, q).Some?
    ensures Neutral(DiagnosticWord(c, r, n, at, q).value.word, TestLevel)
  {
    if n > 0 {
      DiagnosticsNeutral(c, r, n - 1, at, q);
      var before := DiagnosticWord(c, r, n - 1, at, q).value.word;
      var last := DiagnosticWord(c, r, n, at, q).value.word[|before|];
      NeutralLeaf(last, TestLevel);
      NeutralAppend(before, [last], TestLevel);
    }
  }

  lemma {:induction false} EvidenceNeutral(c: Context, r: TestRow, test: Interval, q: Queues)
    requires EvidenceWord(c, r, test, q).Some?
    ensures Neutral(EvidenceWord(c, r, test, q).value.word, TestLevel)
  {
    var attempts, cases := AttemptWord(r, |History(r)|, test), CaseWord(r, |r.cases|, test).value;
    var benchmark := BenchmarkWord(r, test);
    var diagnostics := DiagnosticWord(c, r, |r.diagnostics|, test.finish, q).value.word;
    AttemptsNeutral(r, |History(r)|, test);
    CasesNeutral(r, |r.cases|, test);
    DiagnosticsNeutral(c, r, |r.diagnostics|, test.finish, q);
    assert Neutral(benchmark, TestLevel) by {
      if r.benchmark.Some? { NeutralLeaf(benchmark[0], TestLevel); }
    }
    NeutralAppend(attempts, cases, TestLevel);
    NeutralAppend(attempts + cases, benchmark, TestLevel);
    NeutralAppend(attempts + cases + benchmark, diagnostics, TestLevel);
  }

  lemma {:induction false} TestsNeutral(c: Context, rows: seq<TestRow>, suiteId: string, suite: Interval, q: Queues)
    requires TestsWord(c, rows, suiteId, suite, q).Some?
    ensures Neutral(TestsWord(c, rows, suiteId, suite, q).value.word, SuiteLevel)
  {
    if rows != [] {
      var init, r := rows[..|rows| - 1], rows[|rows| - 1];
      TestsNeutral(c, init, suiteId, suite, q);
      var before := TestsWord(c, init, suiteId, suite, q).value;
      var test := TestInterval(r, suite);
      EvidenceNeutral(c, r, test, before.queues);
      NeutralBracket(TestOpen(r, suiteId, test), EvidenceWord(c, r, test, before.queues).value.word,
                     TestClose(r, suiteId, test), SuiteLevel);
      NeutralAppend(before.word, TestWord(c, r, suiteId, suite, before.queues).value.word, SuiteLevel);
    }
  }

  lemma {:induction false} SuiteNeutral(c: Context, rows: seq<TestRow>, suite: string, fileId: string, file: Interval, q: Queues)
    requires SuiteWord(c, rows, suite, fileId, file, q).Some?
    ensures Neutral(SuiteWord(c, rows, suite, fileId, file, q).value.word, FileLevel)
  {
    var mine := WithKey(rows, SuiteOf, suite);
    var suiteId, time := c.suiteIds[IdOf(mine[0])], IntervalOf(mine, file);
    TestsNeutral(c, mine, suiteId, time, q);
    NeutralBracket(Draft(Started(SuiteLevel), suiteId, fileId, time.start, Plain(suite)),
                   TestsWord(c, mine, suiteId, time, q).value.word,
                   Draft(Finished(SuiteLevel), suiteId, fileId, time.finish, Tally(StatusSummary(mine))), FileLevel);
  }

  lemma {:induction false} SuitesNeutral(
      c: Context, rows: seq<TestRow>, suites: seq<string>, fileId: string, file: Interval, q: Queues)
    requires SuitesWord(c, rows, suites, fileId, file, q).Some?
    ensures Neutral(SuitesWord(c, rows, suites, fileId, file, q).value.word, FileLevel)
  {
    if suites != [] {
      var init, last := suites[..|suites| - 1], suites[|suites| - 1];
      SuitesNeutral(c, rows, init, fileId, file, q);
      var before := SuitesWord(c, rows, init, fileId, file, q).value;
      SuiteNeutral(c, rows, last, fileId, file, before.queues);
      NeutralAppend(before.word, SuiteWord(c, rows, last, fileId, file, before.queues).value.word, FileLevel);
    }
  }

  lemma {:induction false} FileNeutral(c: Context, rows: seq<TestRow>, path: string, q: Queues)
    requires FileWord(c, rows, path, q).Some?
    ensures Neutral(FileWord(c, rows, path, q).value.word, RunLevel)
  {
    var mine := WithKey(rows, FileOf, path);
    var fileId, time := FileId(c, path), IntervalOf(mine, c.time);
    var suites := KeysSeen(mine, SuiteOf);
    SuitesNeutral(c, mine, suites, fileId, time, q);
    NeutralBracket(Draft(Started(FileLevel), fileId, c.runId, time.start, Plain(path)),
                   SuitesWord(c, mine, suites, fileId, time, q).value.word,
                   Draft(Finished(FileLevel), fileId, c.runId, time.finish, Tally(StatusSummary(mine))), RunLevel);
  }

  lemma {:induction false} FilesNeutral(c: Context, rows: seq<TestRow>, paths: seq<string>, q: Queues)
    requires FilesWord(c, rows, paths, q).Some?
    ensures Neutral(FilesWord(c, rows, paths, q).value.word, RunLevel)
  {
    if paths != [] {
      var init, last := paths[..|paths| - 1], paths[|paths| - 1];
      FilesNeutral(c, rows, init, q);
      var before := FilesWord(c, rows, init, q).value;
      FileNeutral(c, rows, last, before.queues);
      NeutralAppend(before.word, FileWord(c, rows, last, before.queues).value.word, RunLevel);
    }
  }

  lemma {:induction false} OptionalNeutral(kind: Kind, entity: string, c: Context, text: Option<string>)
    requires !kind.Started? && !kind.Finished?
    ensures Neutral(Optional(kind, entity, c, text), RunLevel)
  {
    if text.Some? { NeutralLeaf(Optional(kind, entity, c, text)[0], RunLevel); }
  }

  lemma {:induction false} RunDiagnosticsNeutral(c: Context, ds: seq<string>, n: nat)
    requires n <= |ds|
    ensures Neutral(RunDiagnostics(c, ds, n), RunLevel)
  {
    if n > 0 {
      RunDiagnosticsNeutral(c, ds, n - 1);
      var last := RunDiagnostics(c, ds, n)[|RunDiagnostics(c, ds, n - 1)|];
      NeutralLeaf(last, RunLevel);
      NeutralAppend(RunDiagnostics(c, ds, n - 1), [last], RunLevel);
    }
  }

  /** The run-level evidence, without the event that ends the run. */
  function Evidence(c: Context, e: Closing): seq<Draft> {
    Optional(CoverageFinished, "coverage", c, e.coverage)
    + Optional(SnapshotsAudited, "snapshots", c, e.snapshots)
    + Optional(BenchmarksCompared, "benchmarks", c, e.benchmarks)
    + RunDiagnostics(c, e.diagnostics, |e.diagnostics|)
  }

  lemma {:induction false} RunEvidenceNeutral(c: Context, e: Closing)
    ensures Neutral(Evidence(c, e), RunLevel)
  {
    var a := Optional(CoverageFinished, "coverage", c, e.coverage);
    var b := Optional(SnapshotsAudited, "snapshots", c, e.snapshots);
    var d := Optional(BenchmarksCompared, "benchmarks", c, e.benchmarks);
    OptionalNeutral(CoverageFinished, "coverage", c, e.coverage);
    OptionalNeutral(SnapshotsAudited, "snapshots", c, e.snapshots);
    OptionalNeutral(BenchmarksCompared, "benchmarks", c, e.benchmarks);
    RunDiagnosticsNeutral(c, e.diagnostics, |e.diagnostics|);
    NeutralAppend(a, b, RunLevel);
    NeutralAppend(a + b, d, RunLevel);
    NeutralAppend(a + b + d, RunDiagnostics(c, e.diagnostics, |e.diagnostics|), RunLevel);
  }

  lemma {:induction false} Rebracket<T>(a: T, b: T, f: seq<T>, e: seq<T>, z: T)
    ensures [a] + ([b] + f + e) + [z] == [a, b] + f + (e + [z])
  {}

  /** Every stream is balanced: the machine never sees a mismatch and ends where it began. */
  lemma {:induction false} Balanced(c: Context, rows: seq<TestRow>, e: Closing, q: Queues)
    requires RunWord(c, rows, e, q).Some?
    ensures Machine(RunWord(c, rows, e, q).value, Bottom) == Some(Bottom)
  {
    var files := FilesWord(c, rows, KeysSeen(rows, FileOf), q).value.word;
    FilesNeutral(c, rows, KeysSeen(rows, FileOf), q);
    RunEvidenceNeutral(c, e);
    var open, notice := Opening(c)[0], Opening(c)[1];
    var close := Draft(Finished(RunLevel), c.runId, "", c.time.finish, Plain(e.stats));
    NeutralLeaf(notice, RunLevel);
    NeutralAppend([notice], files, RunLevel);
    NeutralAppend([notice] + files, Evidence(c, e), RunLevel);
    BracketFrom(open, [notice] + files + Evidence(c, e), close, Bottom);
    Rebracket(open, notice, files, Evidence(c, e), close);
  }
}
