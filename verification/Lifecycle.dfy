/** The event stream of a report: rows regrouped by file and suite, one bracketed
    interval per run, file, suite, test, attempt and parameter case. */
module Lifecycle {
  import opened Orders
  import opened Seqs
  import opened Text
  import opened Grouping

  // ---------------------------------------------------------------- rows

  datatype Attempt = Attempt(number: Option<nat>, started: Option<int>, finished: Option<int>, text: string)

  datatype ParameterCase = ParameterCase(caseId: string, started: Option<int>, finished: Option<int>, text: string)

  /** `diagnostics` are canonical texts; `benchmark` is (benchmarkId, text). */
  datatype TestRow = TestRow(
    testId: string, caseId: string, executionId: string,
    file: string, suite: string, status: string,
    started: Option<int>, finished: Option<int>, text: string,
    attempts: seq<Attempt>, cases: seq<ParameterCase>,
    benchmark: Option<(string, string)>, diagnostics: seq<string>, quarantine: string)

  function IdOf(r: TestRow): string {
    if r.caseId != "" then r.caseId else if r.testId != "" then r.testId else r.executionId
  }

  function FileOf(r: TestRow): string { r.file }

  function SuiteOf(r: TestRow): string { r.suite }

  // ---------------------------------------------------------------- events

  datatype Level = RunLevel | FileLevel | SuiteLevel | TestLevel | AttemptLevel | CaseLevel

  datatype Kind =
    | Started(level: Level) | Finished(level: Level)
    | ManifestPublished | BenchmarkFinished | DiagnosticRecorded
    | CoverageFinished | SnapshotsAudited | BenchmarksCompared

  datatype Statuses = Statuses(tests: nat, passed: nat, failed: nat, errors: nat, skipped: nat)

  datatype Payload =
    | Plain(text: string)
    | Tally(statuses: Statuses)
    | Outcome(text: string, quarantine: Option<string>)

  /** An event before `emit` numbers it. */
  datatype Draft = Draft(kind: Kind, entity: string, parent: string, at: int, payload: Payload)

  datatype Event = Event(sequence: nat, runId: string, draft: Draft)

  function CountStatus(rows: seq<TestRow>, wanted: set<string>): nat {
    if rows == [] then 0 else (if rows[0].status in wanted then 1 else 0) + CountStatus(rows[1..], wanted)
  }

  /** `status_summary`. */
  function StatusSummary(rows: seq<TestRow>): Statuses {
    Statuses(|rows|, CountStatus(rows, {"pass"}), CountStatus(rows, {"fail"}), CountStatus(rows, {"error"}),
             CountStatus(rows, {"skip", "pending"}))
  }

  // ---------------------------------------------------------------- times

  datatype Interval = Interval(start: int, finish: int)

  function Observed(t: Option<int>, fallback: int): int {
    if t.Some? then t.value else fallback
  }

  function Earliest(rows: seq<TestRow>, fallback: int): int
    requires rows != []
  {
    var last := Observed(rows[|rows| - 1].started, fallback);
    if |rows| == 1 then last
    else
      var rest := Earliest(rows[..|rows| - 1], fallback);
      if last < rest then last else rest
  }

  function Latest(rows: seq<TestRow>, fallback: int): int
    requires rows != []
  {
    var last := Observed(rows[|rows| - 1].finished, fallback);
    if |rows| == 1 then last
    else
      var rest := Latest(rows[..|rows| - 1], fallback);
      if last > rest then last else rest
  }

  /** `interval`: observed times, with the enclosing interval filling the gaps. */
  function IntervalOf(rows: seq<TestRow>, outer: Interval): Interval {
    if rows == [] then outer else Interval(Earliest(rows, outer.start), Latest(rows, outer.finish))
  }

  function TestInterval(r: TestRow, suite: Interval): Interval {
    Interval(Observed(r.started, suite.start), Observed(r.finished, suite.finish))
  }

  // ---------------------------------------------------------------- what is emitted

  /** Identities that the shards' own events give to diagnostics, by (parent, diagnostic). */
  type Queues = map<(string, string), seq<string>>

  /** `fileIds` and `suiteIds` are the manifest's lookups; `hash` and `mint` stand for the hashed
      identities; `strict` says that the shards' diagnostic identities were supplied. */
  datatype Context = Context(
    runId: string, time: Interval, runText: string,
    digest: string, notice: string,
    fileIds: map<string, string>, suiteIds: map<string, string>,
    hash: string -> string, mint: (string, nat, string) -> string, strict: bool)

  datatype Step = Step(word: seq<Draft>, queues: Queues)

  /** `owned_diagnostic_id`. */
  function Claim(c: Context, q: Queues, parent: string, index: nat, diagnostic: string): Option<(string, Queues)> {
    var key := (parent, diagnostic);
    if key in q && q[key] != [] then Some((q[key][0], q[key := q[key][1..]]))
    else if c.strict then None
    else Some((c.mint(parent, index, diagnostic), q))
  }

  /** The first `n` diagnostics of a test. */
  function DiagnosticWord(c: Context, r: TestRow, n: nat, at: int, q: Queues): Option<Step>
    requires n <= |r.diagnostics|
  {
    if n == 0 then Some(Step([], q))
    else
      var before := DiagnosticWord(c, r, n - 1, at, q);
      if before.None? then None
      else
        var claim := Claim(c, before.value.queues, r.testId, n - 1, r.diagnostics[n - 1]);
        if claim.None? then None
        else Some(Step(
          before.value.word + [Draft(DiagnosticRecorded, claim.value.0, r.testId, at, Plain(r.diagnostics[n - 1]))],
          claim.value.1))
  }

  /** An empty history stands for one attempt with the times of the test. */
  function History(r: TestRow): seq<Attempt> {
    if r.attempts == [] then [Attempt(Some(1), r.started, r.finished, r.text)] else r.attempts
  }

  function AttemptNumber(r: TestRow, i: nat): nat
    requires i < |History(r)|
  {
    if History(r)[i].number.Some? then History(r)[i].number.value else i + 1
  }

  function AttemptId(identity: string, number: nat): string {
    identity + "/attempt/" + Decimal(number)
  }

  function AttemptPair(r: TestRow, i: nat, test: Interval): seq<Draft>
    requires i < |History(r)|
  {
    var a, id := History(r)[i], AttemptId(IdOf(r), AttemptNumber(r, i));
    [ Draft(Started(AttemptLevel), id, IdOf(r), Observed(a.started, test.start), Plain(Decimal(AttemptNumber(r, i)))),
      Draft(Finished(AttemptLevel), id, IdOf(r), Observed(a.finished, test.finish), Plain(a.text)) ]
  }

  function AttemptWord(r: TestRow, n: nat, test: Interval): seq<Draft>
    requires n <= |History(r)|
  {
    if n == 0 then [] else AttemptWord(r, n - 1, test) + AttemptPair(r, n - 1, test)
  }

  function CasePair(r: TestRow, i: nat, test: Interval): seq<Draft>
    requires i < |r.cases|
  {
    var k := r.cases[i];
    [ Draft(Started(CaseLevel), k.caseId, r.testId, Observed(k.started, test.start), Plain(Decimal(i))),
      Draft(Finished(CaseLevel), k.caseId, r.testId, Observed(k.finished, test.finish), Plain(k.text)) ]
  }

  /** The first `n` parameter cases; each needs the identity its producer gave it. */
  function CaseWord(r: TestRow, n: nat, test: Interval): Option<seq<Draft>>
    requires n <= |r.cases|
  {
    if n == 0 then Some([])
    else
      var before := CaseWord(r, n - 1, test);
      if before.None? || r.cases[n - 1].caseId == "" then None
      else Some(before.value + CasePair(r, n - 1, test))
  }

  function BenchmarkWord(r: TestRow, test: Interval): seq<Draft> {
    if r.benchmark.None? then []
    else [Draft(BenchmarkFinished, r.benchmark.value.0, r.testId, test.finish, Plain(r.benchmark.value.1))]
  }

  function TestOpen(r: TestRow, suiteId: string, test: Interval): Draft {
    Draft(Started(TestLevel), IdOf(r), suiteId, test.start, Plain(r.text))
  }

  function TestClose(r: TestRow, suiteId: string, test: Interval): Draft {
    Draft(Finished(TestLevel), IdOf(r), suiteId, test.finish,
          Outcome(r.text, if r.quarantine != "" then Some(r.quarantine) else None))
  }

  /** Everything between the brackets of a test. */
  function EvidenceWord(c: Context, r: TestRow, test: Interval, q: Queues): Option<Step> {
    var cases := CaseWord(r, |r.cases|, test);
    if cases.None? then None
    else
      var diagnostics := DiagnosticWord(c, r, |r.diagnostics|, test.finish, q);
      if diagnostics.None? then None
      else Some(Step(
        AttemptWord(r, |History(r)|, test) + cases.value + BenchmarkWord(r, test) + diagnostics.value.word,
        diagnostics.value.queues))
  }

  function TestWord(c: Context, r: TestRow, suiteId: string, suite: Interval, q: Queues): Option<Step> {
    var test := TestInterval(r, suite);
    var evidence := EvidenceWord(c, r, test, q);
    if evidence.None? then None
    else Some(Step(
      [TestOpen(r, suiteId, test)] + evidence.value.word + [TestClose(r, suiteId, test)],
      evidence.value.queues))
  }

  /** The tests of a suite, one after the other. */
  function TestsWord(c: Context, rows: seq<TestRow>, suiteId: string, suite: Interval, q: Queues): Option<Step> {
    if rows == [] then Some(Step([], q))
    else
      var before := TestsWord(c, rows[..|rows| - 1], suiteId, suite, q);
      if before.None? then None
      else
        var last := TestWord(c, rows[|rows| - 1], suiteId, suite, before.value.queues);
        if last.None? then None
        else Some(Step(before.value.word + last.value.word, last.value.queues))
  }

  /** One suite of a file: `rows` are the file's rows. */
  function SuiteWord(c: Context, rows: seq<TestRow>, suite: string, fileId: string, file: Interval, q: Queues): Option<Step> {
    var mine := WithKey(rows, SuiteOf, suite);
    if mine == [] || IdOf(mine[0]) !in c.suiteIds then None
    else
      var suiteId, time := c.suiteIds[IdOf(mine[0])], IntervalOf(mine, file);
      var tests := TestsWord(c, mine, suiteId, time, q);
      if tests.None? then None
      else Some(Step(
        [Draft(Started(SuiteLevel), suiteId, fileId, time.start, Plain(suite))] + tests.value.word
        + [Draft(Finished(SuiteLevel), suiteId, fileId, time.finish, Tally(StatusSummary(mine)))],
        tests.value.queues))
  }

  function SuitesWord(c: Context, rows: seq<TestRow>, suites: seq<string>, fileId: string, file: Interval, q: Queues): Option<Step> {
    if suites == [] then Some(Step([], q))
    else
      var before := SuitesWord(c, rows, suites[..|suites| - 1], fileId, file, q);
      if before.None? then None
      else
        var last := SuiteWord(c, rows, suites[|suites| - 1], fileId, file, before.value.queues);
        if last.None? then None
        else Some(Step(before.value.word + last.value.word, last.value.queues))
  }

  function FileId(c: Context, path: string): string {
    if path in c.fileIds then c.fileIds[path] else "file_" + c.hash(path)
  }

  /** One file: `rows` are the rows of the report. */
  function FileWord(c: Context, rows: seq<TestRow>, path: string, q: Queues): Option<Step> {
    var mine := WithKey(rows, FileOf, path);
    var fileId, time := FileId(c, path), IntervalOf(mine, c.time);
    var suites := SuitesWord(c, mine, KeysSeen(mine, SuiteOf), fileId, time, q);
    if suites.None? then None
    else Some(Step(
      [Draft(Started(FileLevel), fileId, c.runId, time.start, Plain(path))] + suites.value.word
      + [Draft(Finished(FileLevel), fileId, c.runId, time.finish, Tally(StatusSummary(mine)))],
      suites.value.queues))
  }

  function FilesWord(c: Context, rows: seq<TestRow>, paths: seq<string>, q: Queues): Option<Step> {
    if paths == [] then Some(Step([], q))
    else
      var before := FilesWord(c, rows, paths[..|paths| - 1], q);
      if before.None? then None
      else
        var last := FileWord(c, rows, paths[|paths| - 1], before.value.queues);
        if last.None? then None
        else Some(Step(before.value.word + last.value.word, last.value.queues))
  }

  /** The run-level evidence at the end of the stream. */
  datatype Closing = Closing(
    coverage: Option<string>, snapshots: Option<string>, benchmarks: Option<string>,
    diagnostics: seq<string>, stats: string)

  function Optional(kind: Kind, entity: string, c: Context, text: Option<string>): seq<Draft> {
    if text.None? then [] else [Draft(kind, entity, c.runId, c.time.finish, Plain(text.value))]
  }

  function RunDiagnostics(c: Context, ds: seq<string>, n: nat): seq<Draft>
    requires n <= |ds|
  {
    if n == 0 then []
    else RunDiagnostics(c, ds, n - 1)
         + [Draft(DiagnosticRecorded, c.mint(c.runId, n - 1, ds[n - 1]), c.runId, c.time.finish, Plain(ds[n - 1]))]
  }

  function Opening(c: Context): seq<Draft> {
    [ Draft(Started(RunLevel), c.runId, "", c.time.start, Plain(c.runText)),
      Draft(ManifestPublished, c.digest, c.runId, c.time.start, Plain(c.notice)) ]
  }

  function ClosingWord(c: Context, e: Closing): seq<Draft> {
    Optional(CoverageFinished, "coverage", c, e.coverage)
    + Optional(SnapshotsAudited, "snapshots", c, e.snapshots)
    + Optional(BenchmarksCompared, "benchmarks", c, e.benchmarks)
    + RunDiagnostics(c, e.diagnostics, |e.diagnostics|)
    + [Draft(Finished(RunLevel), c.runId, "", c.time.finish, Plain(e.stats))]
  }

  function RunWord(c: Context, rows: seq<TestRow>, e: Closing, q: Queues): Option<seq<Draft>> {
    var files := FilesWord(c, rows, KeysSeen(rows, FileOf), q);
    if files.None? then None else Some(Opening(c) + files.value.word + ClosingWord(c, e))
  }

  // ---------------------------------------------------------------- the recorder

  /** `emit`: sequence numbers count from 1. */
  function Numbered(runId: string, w: seq<Draft>): (r: seq<Event>)
    ensures |r| == |w|
  {
    if w == [] then [] else Numbered(runId, w[..|w| - 1]) + [Event(|w|, runId, w[|w| - 1])]
  }

  lemma {:induction false} NumberedSnoc(runId: string, w: seq<Draft>, d: Draft)
    ensures Numbered(runId, w + [d]) == Numbered(runId, w) + [Event(|w| + 1, runId, d)]
  {
    assert (w + [d])[..|w|] == w;
  }

  lemma {:induction false} NumberedAt(runId: string, w: seq<Draft>, i: nat)
    requires i < |w|
    ensures Numbered(runId, w)[i] == Event(i + 1, runId, w[i])
  {
    if i < |w| - 1 { NumberedAt(runId, w[..|w| - 1], i); }
  }

  lemma {:induction false} Chain4<T>(w: seq<T>, a: seq<T>, b: seq<T>, c: seq<T>, d: seq<T>, e: seq<T>)
    ensures w + a + b + c + d + e == w + (a + b + c + d + e)
  {}

  lemma {:induction false} Chain3<T>(w: seq<T>, a: seq<T>, b: seq<T>, c: seq<T>, d: seq<T>)
    ensures w + a + b + c + d == w + (a + b + c + d)
  {}

  lemma {:induction false} Chain<T>(w: seq<T>, a: seq<T>, b: seq<T>)
    ensures w + a + b == w + (a + b)
  {}

  lemma {:induction false} Bracket<T>(w: seq<T>, a: seq<T>, b: seq<T>, c: seq<T>)
    ensures w + a + b + c == w + (a + b + c)
  {}

  lemma {:induction false} TestsStep(c: Context, rows: seq<TestRow>, i: nat, suiteId: string, suite: Interval, q: Queues)
    requires i < |rows|
    ensures TestsWord(c, rows[..i + 1], suiteId, suite, q) ==
            var before := TestsWord(c, rows[..i], suiteId, suite, q);
            if before.None? then None
            else
              var last := TestWord(c, rows[i], suiteId, suite, before.value.queues);
              if last.None? then None else Some(Step(before.value.word + last.value.word, last.value.queues))
  {
    assert rows[..i + 1][..i] == rows[..i] && rows[..i + 1][i] == rows[i];
  }

  lemma {:induction false} SuitesStep(
      c: Context, rows: seq<TestRow>, suites: seq<string>, i: nat, fileId: string, file: Interval, q: Queues)
    requires i < |suites|
    ensures SuitesWord(c, rows, suites[..i + 1], fileId, file, q) ==
            var before := SuitesWord(c, rows, suites[..i], fileId, file, q);
            if before.None? then None
            else
              var last := SuiteWord(c, rows, suites[i], fileId, file, before.value.queues);
              if last.None? then None else Some(Step(before.value.word + last.value.word, last.value.queues))
  {
    assert suites[..i + 1][..i] == suites[..i] && suites[..i + 1][i] == suites[i];
  }

  lemma {:induction false} FilesStep(c: Context, rows: seq<TestRow>, paths: seq<string>, i: nat, q: Queues)
    requires i < |paths|
    ensures FilesWord(c, rows, paths[..i + 1], q) ==
            var before := FilesWord(c, rows, paths[..i], q);
            if before.None? then None
            else
              var last := FileWord(c, rows, paths[i], before.value.queues);
              if last.None? then None else Some(Step(before.value.word + last.value.word, last.value.queues))
  {
    assert paths[..i + 1][..i] == paths[..i] && paths[..i + 1][i] == paths[i];
  }

  /** `execution_id` */
  method ExecutionIdentity(r: TestRow) returns (id: string)
    ensures id == IdOf(r)
  {
    id := r.caseId;
    if id == "" { id := r.testId; }
    if id == "" { id := r.executionId; }
  }

  /** `interval`: the earliest start and the latest finish, gaps filled from outside. */
  method ObservedInterval(rows: seq<TestRow>, outer: Interval) returns (time: Interval)
    ensures time == IntervalOf(rows, outer)
  {
    time := outer;
    for i := 0 to |rows|
      invariant time == IntervalOf(rows[..i], outer)
    {
      assert rows[..i + 1][..i] == rows[..i];
      var started := if rows[i].started.Some? then rows[i].started.value else outer.start;
      var finished := if rows[i].finished.Some? then rows[i].finished.value else outer.finish;
      if i == 0 {
        time := Interval(started, finished);
      } else {
        time := Interval(if started < time.start then started else time.start,
                         if finished > time.finish then finished else time.finish);
      }
    }
    assert rows[..|rows|] == rows;
  }

  /** `status_summary` */
  method CountStatuses(rows: seq<TestRow>) returns (s: Statuses)
    ensures s == StatusSummary(rows)
  {
    var passed, failed, errors, skipped := 0, 0, 0, 0;
    for i := 0 to |rows|
      invariant passed == CountStatus(rows[..i], {"pass"}) && failed == CountStatus(rows[..i], {"fail"})
      invariant errors == CountStatus(rows[..i], {"error"}) && skipped == CountStatus(rows[..i], {"skip", "pending"})
    {
      CountStatusNext(rows, i, {"pass"});
      CountStatusNext(rows, i, {"fail"});
      CountStatusNext(rows, i, {"error"});
      CountStatusNext(rows, i, {"skip", "pending"});
      var status := rows[i].status;
      if status == "pass" { passed := passed + 1; }
      if status == "fail" { failed := failed + 1; }
      if status == "error" { errors := errors + 1; }
      if status == "skip" || status == "pending" { skipped := skipped + 1; }
    }
    assert rows[..|rows|] == rows;
    s := Statuses(|rows|, passed, failed, errors, skipped);
  }

  lemma {:induction false} CountStatusNext(rows: seq<TestRow>, i: nat, wanted: set<string>)
    requires i < |rows|
    ensures CountStatus(rows[..i + 1], wanted) ==
            CountStatus(rows[..i], wanted) + if rows[i].status in wanted then 1 else 0
  {
    if i > 0 {
      CountStatusNext(rows[1..], i - 1, wanted);
      assert rows[..i + 1][1..] == rows[1..][..i] && rows[..i][1..] == rows[1..][..i - 1];
    }
  }

  class Recorder {
    const context: Context
    var events: seq<Event>
    var queues: Queues
    ghost var word: seq<Draft>

    ghost predicate Valid()
      reads this
    {
      events == Numbered(context.runId, word)
    }

    constructor (c: Context, ids: Queues)
      ensures Valid() && context == c && queues == ids && word == [] && events == []
    {
      context, events, queues, word := c, [], ids, [];
    }

    method Emit(d: Draft)
      requires Valid()
      modifies this
      ensures Valid() && word == old(word) + [d] && queues == old(queues)
    {
      NumberedSnoc(context.runId, word, d);
      events := events + [Event(|events| + 1, context.runId, d)];
      word := word + [d];
    }

    method OwnedDiagnosticId(parent: string, index: nat, diagnostic: string) returns (id: Option<string>)
      modifies this`queues
      ensures var claim := Claim(context, old(queues), parent, index, diagnostic);
              id.Some? == claim.Some? && (id.Some? ==> id.value == claim.value.0 && queues == claim.value.1)
    {
      var key := (parent, diagnostic);
      if key in queues && queues[key] != [] {
        id := Some(queues[key][0]);
        queues := queues[key := queues[key][1..]];
      } else if context.strict {
        id := None;
      } else {
        id := Some(context.mint(parent, index, diagnostic));
      }
    }

    method RecordDiagnostics(r: TestRow, at: int) returns (ok: bool)
      requires Valid()
      modifies this
      ensures Valid()
      ensures var step := DiagnosticWord(context, r, |r.diagnostics|, at, old(queues));
              ok == step.Some? && (ok ==> word == old(word) + step.value.word && queues == step.value.queues)
    {
      for i := 0 to |r.diagnostics|
        invariant Valid()
        invariant var step := DiagnosticWord(context, r, i, at, old(queues));
                  step.Some? && word == old(word) + step.value.word && queues == step.value.queues
      {
        var id := OwnedDiagnosticId(r.testId, i, r.diagnostics[i]);
        if id.None? {
          NoLaterDiagnostics(context, r, i + 1, |r.diagnostics|, at, old(queues));
          return false;
        }
        Emit(Draft(DiagnosticRecorded, id.value, r.testId, at, Plain(r.diagnostics[i])));
      }
      ok := true;
    }

    method RecordAttempts(r: TestRow, test: Interval)
      requires Valid()
      modifies this
      ensures Valid() && queues == old(queues)
      ensures word == old(word) + AttemptWord(r, |History(r)|, test)
    {
      var identity := ExecutionIdentity(r);
      var attempts := r.attempts;
      if attempts == [] {
        attempts := [Attempt(Some(1), r.started, r.finished, r.text)];
      }
      for i := 0 to |attempts|
        invariant Valid() && queues == old(queues)
        invariant word == old(word) + AttemptWord(r, i, test)
      {
        RecordAttempt(r, identity, i, attempts[i], test);
        Chain(old(word), AttemptWord(r, i, test), AttemptPair(r, i, test));
      }
    }

    method RecordAttempt(r: TestRow, identity: string, i: nat, a: Attempt, test: Interval)
      requires Valid() && identity == IdOf(r) && i < |History(r)| && a == History(r)[i]
      modifies this
      ensures Valid() && queues == old(queues) && word == old(word) + AttemptPair(r, i, test)
    {
      var number := if a.number.Some? then a.number.value else i + 1;
      var id := identity + "/attempt/" + Decimal(number);
      var started := if a.started.Some? then a.started.value else test.start;
      var finished := if a.finished.Some? then a.finished.value else test.finish;
      Emit(Draft(Started(AttemptLevel), id, identity, started, Plain(Decimal(number))));
      Emit(Draft(Finished(AttemptLevel), id, identity, finished, Plain(a.text)));
    }

    method RecordCases(r: TestRow, test: Interval) returns (ok: bool)
      requires Valid()
      modifies this
      ensures Valid() && queues == old(queues)
      ensures var w := CaseWord(r, |r.cases|, test);
              ok == w.Some? && (ok ==> word == old(word) + w.value)
    {
      for i := 0 to |r.cases|
        invariant Valid() && queues == old(queues)
        invariant var w := CaseWord(r, i, test);
                  w.Some? && word == old(word) + w.value
      {
        if r.cases[i].caseId == "" {
          NoLaterCases(r, i + 1, |r.cases|, test);
          return false;
        }
        RecordCase(r, i, r.cases[i], test);
        Chain(old(word), CaseWord(r, i, test).value, CasePair(r, i, test));
      }
      ok := true;
    }

    method RecordCase(r: TestRow, i: nat, k: ParameterCase, test: Interval)
      requires Valid() && i < |r.cases| && k == r.cases[i]
      modifies this
      ensures Valid() && queues == old(queues) && word == old(word) + CasePair(r, i, test)
    {
      var started := if k.started.Some? then k.started.value else test.start;
      var finished := if k.finished.Some? then k.finished.value else test.finish;
      Emit(Draft(Started(CaseLevel), k.caseId, r.testId, started, Plain(Decimal(i))));
      Emit(Draft(Finished(CaseLevel), k.caseId, r.testId, finished, Plain(k.text)));
    }

    method RecordBenchmark(r: TestRow, test: Interval)
      requires Valid()
      modifies this
      ensures Valid() && queues == old(queues)
      ensures word == old(word) + BenchmarkWord(r, test)
    {
      if r.benchmark.Some? {
        var (id, text) := r.benchmark.value;
        Emit(Draft(BenchmarkFinished, id, r.testId, test.finish, Plain(text)));
      }
    }

    method RecordEvidence(r: TestRow, test: Interval) returns (ok: bool)
      requires Valid()
      modifies this
      ensures Valid()
      ensures var step := EvidenceWord(context, r, test, old(queues));
              ok == step.Some? && (ok ==> word == old(word) + step.value.word && queues == step.value.queues)
    {
      RecordAttempts(r, test);
      ok := RecordCases(r, test);
      if !ok { return; }
      RecordBenchmark(r, test);
      ok := RecordDiagnostics(r, test.finish);
      if !ok { return; }
      Chain3(old(word), AttemptWord(r, |History(r)|, test), CaseWord(r, |r.cases|, test).value, BenchmarkWord(r, test),
             DiagnosticWord(context, r, |r.diagnostics|, test.finish, old(queues)).value.word);
    }

    method RecordTest(r: TestRow, suiteId: string, suite: Interval) returns (ok: bool)
      requires Valid()
      modifies this
      ensures Valid()
      ensures var step := TestWord(context, r, suiteId, suite, old(queues));
              ok == step.Some? && (ok ==> word == old(word) + step.value.word && queues == step.value.queues)
    {
      var identity := ExecutionIdentity(r);
      var started := if r.started.Some? then r.started.value else suite.start;
      var finished := if r.finished.Some? then r.finished.value else suite.finish;
      var test := Interval(started, finished);
      Emit(Draft(Started(TestLevel), identity, suiteId, started, Plain(r.text)));
      ok := RecordEvidence(r, test);
      if !ok { return; }
      var quarantine := None;
      if r.quarantine != "" { quarantine := Some(r.quarantine); }
      Emit(Draft(Finished(TestLevel), identity, suiteId, finished, Outcome(r.text, quarantine)));
      Bracket(old(word), [TestOpen(r, suiteId, test)], EvidenceWord(context, r, test, old(queues)).value.word,
              [TestClose(r, suiteId, test)]);
    }

    method RecordTests(rows: seq<TestRow>, suiteId: string, suite: Interval) returns (ok: bool)
      requires Valid()
      modifies this
      ensures Valid()
      ensures var step := TestsWord(context, rows, suiteId, suite, old(queues));
              ok == step.Some? && (ok ==> word == old(word) + step.value.word && queues == step.value.queues)
    {
      assert rows[..0] == [];
      for i := 0 to |rows|
        invariant Valid()
        invariant var step := TestsWord(context, rows[..i], suiteId, suite, old(queues));
                  step.Some? && word == old(word) + step.value.word && queues == step.value.queues
      {
        ghost var before := TestsWord(context, rows[..i], suiteId, suite, old(queues)).value;
        ghost var last := TestWord(context, rows[i], suiteId, suite, before.queues);
        TestsStep(context, rows, i, suiteId, suite, old(queues));
        ok := RecordTest(rows[i], suiteId, suite);
        if !ok {
          NoLaterTests(context, rows, i + 1, suiteId, suite, old(queues));
          return;
        }
        Chain(old(word), before.word, last.value.word);
      }
      assert rows[..|rows|] == rows;
      ok := true;
    }

    method RecordSuite(mine: seq<TestRow>, suite: string, fileId: string, file: Interval, ghost rows: seq<TestRow>)
      returns (ok: bool)
      requires Valid() && mine == WithKey(rows, SuiteOf, suite) && mine != []
      modifies this
      ensures Valid()
      ensures var step := SuiteWord(context, rows, suite, fileId, file, old(queues));
              ok == step.Some? && (ok ==> word == old(word) + step.value.word && queues == step.value.queues)
    {
      var first := ExecutionIdentity(mine[0]);
      if first !in context.suiteIds { return false; }
      var suiteId := context.suiteIds[first];
      var time := ObservedInterval(mine, file);
      Emit(Draft(Started(SuiteLevel), suiteId, fileId, time.start, Plain(suite)));
      ok := RecordTests(mine, suiteId, time);
      if !ok { return; }
      var statuses := CountStatuses(mine);
      Emit(Draft(Finished(SuiteLevel), suiteId, fileId, time.finish, Tally(statuses)));
      Bracket(old(word), [Draft(Started(SuiteLevel), suiteId, fileId, time.start, Plain(suite))],
              TestsWord(context, mine, suiteId, time, old(queues)).value.word,
              [Draft(Finished(SuiteLevel), suiteId, fileId, time.finish, Tally(StatusSummary(mine)))]);
    }

    method RecordSuites(rows: seq<TestRow>, fileId: string, file: Interval) returns (ok: bool)
      requires Valid()
      modifies this
      ensures Valid()
      ensures var step := SuitesWord(context, rows, KeysSeen(rows, SuiteOf), fileId, file, old(queues));
              ok == step.Some? && (ok ==> word == old(word) + step.value.word && queues == step.value.queues)
    {
      var suites, groups := GroupBy(rows, SuiteOf);
      assert suites[..0] == [];
      for i := 0 to |suites|
        invariant Valid()
        invariant var step := SuitesWord(context, rows, suites[..i], fileId, file, old(queues));
                  step.Some? && word == old(word) + step.value.word && queues == step.value.queues
      {
        ghost var before := SuitesWord(context, rows, suites[..i], fileId, file, old(queues)).value;
        ghost var last := SuiteWord(context, rows, suites[i], fileId, file, before.queues);
        SuitesStep(context, rows, suites, i, fileId, file, old(queues));
        GroupNotEmpty(rows, SuiteOf, suites[i]);
        assert suites[i] in Elements(suites);
        ok := RecordSuite(groups[suites[i]], suites[i], fileId, file, rows);
        if !ok {
          NoLaterSuites(context, rows, suites, i + 1, fileId, file, old(queues));
          return;
        }
        Chain(old(word), before.word, last.value.word);
      }
      assert suites[..|suites|] == suites;
      ok := true;
    }

    method RecordFile(mine: seq<TestRow>, path: string, ghost rows: seq<TestRow>) returns (ok: bool)
      requires Valid() && mine == WithKey(rows, FileOf, path)
      modifies this
      ensures Valid()
      ensures var step := FileWord(context, rows, path, old(queues));
              ok == step.Some? && (ok ==> word == old(word) + step.value.word && queues == step.value.queues)
    {
      var fileId := if path in context.fileIds then context.fileIds[path] else "file_" + context.hash(path);
      var time := ObservedInterval(mine, context.time);
      Emit(Draft(Started(FileLevel), fileId, context.runId, time.start, Plain(path)));
      ok := RecordSuites(mine, fileId, time);
      if !ok { return; }
      var statuses := CountStatuses(mine);
      Emit(Draft(Finished(FileLevel), fileId, context.runId, time.finish, Tally(statuses)));
      Bracket(old(word), [Draft(Started(FileLevel), fileId, context.runId, time.start, Plain(path))],
              SuitesWord(context, mine, KeysSeen(mine, SuiteOf), fileId, time, old(queues)).value.word,
              [Draft(Finished(FileLevel), fileId, context.runId, time.finish, Tally(StatusSummary(mine)))]);
    }

    method RecordFiles(rows: seq<TestRow>) returns (ok: bool)
      requires Valid()
      modifies this
      ensures Valid()
      ensures var step := FilesWord(context, rows, KeysSeen(rows, FileOf), old(queues));
              ok == step.Some? && (ok ==> word == old(word) + step.value.word && queues == step.value.queues)
    {
      var paths, groups := GroupBy(rows, FileOf);
      assert paths[..0] == [];
      for i := 0 to |paths|
        invariant Valid()
        invariant var step := FilesWord(context, rows, paths[..i], old(queues));
                  step.Some? && word == old(word) + step.value.word && queues == step.value.queues
      {
        ghost var before := FilesWord(context, rows, paths[..i], old(queues)).value;
        ghost var last := FileWord(context, rows, paths[i], before.queues);
        FilesStep(context, rows, paths, i, old(queues));
        assert paths[i] in Elements(paths);
        ok := RecordFile(groups[paths[i]], paths[i], rows);
        if !ok {
          NoLaterFiles(context, rows, paths, i + 1, old(queues));
          return;
        }
        Chain(old(word), before.word, last.value.word);
      }
      assert paths[..|paths|] == paths;
      ok := true;
    }

    method RecordRunDiagnostics(ds: seq<string>)
      requires Valid()
      modifies this
      ensures Valid() && word == old(word) + RunDiagnostics(context, ds, |ds|)
    {
      var c := context;
      for i := 0 to |ds|
        invariant Valid() && word == old(word) + RunDiagnostics(c, ds, i)
      {
        Emit(Draft(DiagnosticRecorded, c.mint(c.runId, i, ds[i]), c.runId, c.time.finish, Plain(ds[i])));
      }
    }

    method RecordClosing(e: Closing)
      requires Valid()
      modifies this
      ensures Valid() && word == old(word) + ClosingWord(context, e)
    {
      var c := context;
      RecordOptional(CoverageFinished, "coverage", e.coverage);
      RecordOptional(SnapshotsAudited, "snapshots", e.snapshots);
      RecordOptional(BenchmarksCompared, "benchmarks", e.benchmarks);
      RecordRunDiagnostics(e.diagnostics);
      Emit(Draft(Finished(RunLevel), c.runId, "", c.time.finish, Plain(e.stats)));
      Chain4(old(word), Optional(CoverageFinished, "coverage", c, e.coverage),
             Optional(SnapshotsAudited, "snapshots", c, e.snapshots),
             Optional(BenchmarksCompared, "benchmarks", c, e.benchmarks),
             RunDiagnostics(c, e.diagnostics, |e.diagnostics|),
             [Draft(Finished(RunLevel), c.runId, "", c.time.finish, Plain(e.stats))]);
    }

    method RecordOptional(kind: Kind, entity: string, text: Option<string>)
      requires Valid()
      modifies this
      ensures Valid() && word == old(word) + Optional(kind, entity, context, text)
    {
      if text.Some? {
        Emit(Draft(kind, entity, context.runId, context.time.finish, Plain(text.value)));
      }
    }
  }

  /** `lifecycle`: either a parameter case lacks its identity, a diagnostic its evidence or a suite its
      inventory entry, or the stream is the numbered word. */
  method BuildEvents(c: Context, rows: seq<TestRow>, e: Closing, ids: Queues) returns (r: Result<seq<Event>>)
    ensures var w := RunWord(c, rows, e, ids);
            r.Ok? == w.Some? && (r.Ok? ==> r.value == Numbered(c.runId, w.value))
  {
    var recorder := new Recorder(c, ids);
    recorder.Emit(Draft(Started(RunLevel), c.runId, "", c.time.start, Plain(c.runText)));
    recorder.Emit(Draft(ManifestPublished, c.digest, c.runId, c.time.start, Plain(c.notice)));
    assert recorder.word == Opening(c);
    var ok := recorder.RecordFiles(rows);
    if !ok {
      return Err("row without producer identities or inventory entry");
    }
    recorder.RecordClosing(e);
    r := Ok(recorder.events);
  }

  lemma {:induction false} NoLaterDiagnostics(c: Context, r: TestRow, i: nat, n: nat, at: int, q: Queues)
    requires i <= n <= |r.diagnostics| && DiagnosticWord(c, r, i, at, q).None?
    ensures DiagnosticWord(c, r, n, at, q).None?
  {
    if i < n { NoLaterDiagnostics(c, r, i, n - 1, at, q); }
  }

  lemma {:induction false} NoLaterCases(r: TestRow, i: nat, n: nat, test: Interval)
    requires i <= n <= |r.cases| && CaseWord(r, i, test).None?
    ensures CaseWord(r, n, test).None?
  {
    if i < n { NoLaterCases(r, i, n - 1, test); }
  }

  lemma {:induction false} NoLaterTests(c: Context, rows: seq<TestRow>, i: nat, suiteId: string, suite: Interval, q: Queues)
    requires i <= |rows| && TestsWord(c, rows[..i], suiteId, suite, q).None?
    ensures TestsWord(c, rows, suiteId, suite, q).None?
    decreases |rows|
  {
    if i < |rows| {
      assert rows[..|rows| - 1][..i] == rows[..i];
      NoLaterTests(c, rows[..|rows| - 1], i, suiteId, suite, q);
    } else {
      assert rows[..i] == rows;
    }
  }

  lemma {:induction false} NoLaterSuites(
      c: Context, rows: seq<TestRow>, suites: seq<string>, i: nat, fileId: string, file: Interval, q: Queues)
    requires i <= |suites| && SuitesWord(c, rows, suites[..i], fileId, file, q).None?
    ensures SuitesWord(c, rows, suites, fileId, file, q).None?
    decreases |suites|
  {
    if i < |suites| {
      assert suites[..|suites| - 1][..i] == suites[..i];
      NoLaterSuites(c, rows, suites[..|suites| - 1], i, fileId, file, q);
    } else {
      assert suites[..i] == suites;
    }
  }

  lemma {:induction false} NoLaterFiles(c: Context, rows: seq<TestRow>, paths: seq<string>, i: nat, q: Queues)
    requires i <= |paths| && FilesWord(c, rows, paths[..i], q).None?
    ensures FilesWord(c, rows, paths, q).None?
    decreases |paths|
  {
    if i < |paths| {
      assert paths[..|paths| - 1][..i] == paths[..i];
      NoLaterFiles(c, rows, paths[..|paths| - 1], i, q);
    } else {
      assert paths[..i] == paths;
    }
  }
}
