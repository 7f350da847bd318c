/** The identities that shards gave to diagnostics are used in order, each at most once. */
module DiagnosticIds {
  import opened Seqs
  import opened Grouping
  import opened Lifecycle
  import opened LifecycleCount

  type DiagnosticKey = (string, string)

  /** The identities still pending for a diagnostic of a parent. */
  function Pending(q: Queues, k: DiagnosticKey): seq<string> { if k in q then q[k] else [] }

  predicate IsClaim(d: Draft, k: DiagnosticKey) {
    d.kind == DiagnosticRecorded && d.payload.Plain? && (d.parent, d.payload.text) == k
  }

  /** The identities under which the word records that diagnostic, in order. */
  function Claims(w: seq<Draft>, k: DiagnosticKey): seq<string> {
    if w == [] then []
    else Claims(w[..|w| - 1], k) + if IsClaim(w[|w| - 1], k) then [w[|w| - 1].entity] else []
  }

  lemma {:induction false} ClaimsAppend(a: seq<Draft>, b: seq<Draft>, k: DiagnosticKey)
    ensures Claims(a + b, k) == Claims(a, k) + Claims(b, k)
  {
    if b == [] {
      assert a + b == a;
    } else {
      ClaimsAppend(a, b[..|b| - 1], k);
      assert (a + b)[..|a + b| - 1] == a + b[..|b| - 1];
    }
  }

  lemma {:induction false} NoClaims(w: seq<Draft>, k: DiagnosticKey)
    requires forall d :: d in w ==> d.kind != DiagnosticRecorded
    ensures Claims(w, k) == []
  {
    if w != [] {
      assert w[|w| - 1] in w;
      NoClaims(w[..|w| - 1], k);
    }
  }

  /** The word uses up a prefix of the pending identities. */
  ghost predicate Consumes(q: Queues, w: seq<Draft>, rest: Queues, k: DiagnosticKey) {
    Pending(q, k) == Claims(w, k) + Pending(rest, k)
  }

  lemma {:induction false} ConsumesAppend(q: Queues, a: seq<Draft>, mid: Queues, b: seq<Draft>, rest: Queues, k: DiagnosticKey)
    requires Consumes(q, a, mid, k) && Consumes(mid, b, rest, k)
    ensures Consumes(q, a + b, rest, k)
  {
    ClaimsAppend(a, b, k);
    AppendAssociates(Claims(a, k), Claims(b, k), Pending(rest, k));
  }

  lemma {:induction false} ConsumesBracket(q: Queues, a: Draft, w: seq<Draft>, b: Draft, rest: Queues, k: DiagnosticKey)
    requires Consumes(q, w, rest, k) && a.kind != DiagnosticRecorded && b.kind != DiagnosticRecorded
    ensures Consumes(q, [a] + w + [b], rest, k)
  {
    ClaimsAppend([a] + w, [b], k);
    ClaimsAppend([a], w, k);
    NoClaims([a], k);
    NoClaims([b], k);
  }

  lemma {:induction false} ClaimConsumes(c: Context, q: Queues, parent: string, index: nat, diagnostic: string, at: int, k: DiagnosticKey)
    requires c.strict && Claim(c, q, parent, index, diagnostic).Some?
    ensures var claim := Claim(c, q, parent, index, diagnostic).value;
            Consumes(q, [Draft(DiagnosticRecorded, claim.0, parent, at, Plain(diagnostic))], claim.1, k)
  {
    var claim := Claim(c, q, parent, index, diagnostic).value;
    var d := Draft(DiagnosticRecorded, claim.0, parent, at, Plain(diagnostic));
    assert [d][..0] == [];
    assert Claims([d], k) == if IsClaim(d, k) then [d.entity] else [];
    if k == (parent, diagnostic) {
      assert q[k] == [q[k][0]] + q[k][1..];
    }
  }

  lemma {:induction false} DiagnosticsConsume(c: Context, r: TestRow, n: nat, at: int, q: Queues, k: DiagnosticKey)
    requires c.strict && n <= |r.diagnostics| && DiagnosticWord(c, r, n, at, q).Some?
    ensures var step := DiagnosticWord(c, r, n, at, q).value; Consumes(q, step.word, step.queues, k)
  {
    if n > 0 {
      DiagnosticsConsume(c, r, n - 1, at, q, k);
      var before := DiagnosticWord(c, r, n - 1, at, q).value;
      var step := DiagnosticWord(c, r, n, at, q).value;
      var claim := Claim(c, before.queues, r.testId, n - 1, r.diagnostics[n - 1]).value;
      var d := Draft(DiagnosticRecorded, claim.0, r.testId, at, Plain(r.diagnostics[n - 1]));
      ClaimConsumes(c, before.queues, r.testId, n - 1, r.diagnostics[n - 1], at, k);
      ConsumesAppend(q, before.word, before.queues, [d], claim.1, k);
      assert step == Step(before.word + [d], claim.1);
    }
  }

  lemma {:induction false} AttemptsClaimNothing(r: TestRow, n: nat, test: Interval)
    requires n <= |History(r)|
    ensures forall d :: d in AttemptWord(r, n, test) ==> d.kind != DiagnosticRecorded
  {
    if n > 0 { AttemptsClaimNothing(r, n - 1, test); }
  }

  lemma {:induction false} CasesClaimNothing(r: TestRow, n: nat, test: Interval)
    requires n <= |r.cases| && CaseWord(r, n, test).Some?
    ensures forall d :: d in CaseWord(r, n, test).value ==> d.kind != DiagnosticRecorded
  {
    if n > 0 { CasesClaimNothing(r, n - 1, test); }
  }

  lemma {:induction false} TestConsumes(c: Context, r: TestRow, suiteId: string, suite: Interval, q: Queues, k: DiagnosticKey)
    requires c.strict && TestWord(c, r, suiteId, suite, q).Some?
    ensures var step := TestWord(c, r, suiteId, suite, q).value; Consumes(q, step.word, step.queues, k)
  {
    var test := TestInterval(r, suite);
    var evidence := EvidenceWord(c, r, test, q).value;
    var quiet := AttemptWord(r, |History(r)|, test) + CaseWord(r, |r.cases|, test).value + BenchmarkWord(r, test);
    AttemptsClaimNothing(r, |History(r)|, test);
    CasesClaimNothing(r, |r.cases|, test);
    NoClaims(quiet, k);
    DiagnosticsConsume(c, r, |r.diagnostics|, test.finish, q, k);
    ConsumesAppend(q, quiet, q, DiagnosticWord(c, r, |r.diagnostics|, test.finish, q).value.word, evidence.queues, k);
    ConsumesBracket(q, TestOpen(r, suiteId, test), evidence.word, TestClose(r, suiteId, test), evidence.queues, k);
  }

  lemma {:induction false} TestsConsume(c: Context, rows: seq<TestRow>, suiteId: string, suite: Interval, q: Queues, k: DiagnosticKey)
    requires c.strict && TestsWord(c, rows, suiteId, suite, q).Some?
    ensures var step := TestsWord(c, rows, suiteId, suite, q).value; Consumes(q, step.word, step.queues, k)
  {
    if rows != [] {
      var init, r := rows[..|rows| - 1], rows[|rows| - 1];
      TestsConsume(c, init, suiteId, suite, q, k);
      var before := TestsWord(c, init, suiteId, suite, q).value;
      TestConsumes(c, r, suiteId, suite, before.queues, k);
      var last := TestWord(c, r, suiteId, suite, before.queues).value;
      ConsumesAppend(q, before.word, before.queues, last.word, last.queues, k);
    }
  }

  lemma {:induction false} SuiteConsumes(
      c: Context, rows: seq<TestRow>, suite: string, fileId: string, file: Interval, q: Queues, k: DiagnosticKey)
    requires c.strict && SuiteWord(c, rows, suite, fileId, file, q).Some?
    ensures var step := SuiteWord(c, rows, suite, fileId, file, q).value; Consumes(q, step.word, step.queues, k)
  {
    var mine := WithKey(rows, SuiteOf, suite);
    var suiteId, time := c.suiteIds[IdOf(mine[0])], IntervalOf(mine, file);
    TestsConsume(c, mine, suiteId, time, q, k);
    var tests := TestsWord(c, mine, suiteId, time, q).value;
    ConsumesBracket(q, Draft(Started(SuiteLevel), suiteId, fileId, time.start, Plain(suite)), tests.word,
                    Draft(Finished(SuiteLevel), suiteId, fileId, time.finish, Tally(StatusSummary(mine))), tests.queues, k);
  }

  lemma {:induction false} SuitesConsume(
      c: Context, rows: seq<TestRow>, suites: seq<string>, fileId: string, file: Interval, q: Queues, k: DiagnosticKey)
    requires c.strict && SuitesWord(c, rows, suites, fileId, file, q).Some?
    ensures var step := SuitesWord(c, rows, suites, fileId, file, q).value; Consumes(q, step.word, step.queues, k)
  {
    if suites != [] {
      var init, suite := suites[..|suites| - 1], suites[|suites| - 1];
      SuitesConsume(c, rows, init, fileId, file, q, k);
      var before := SuitesWord(c, rows, init, fileId, file, q).value;
      SuiteConsumes(c, rows, suite, fileId, file, before.queues, k);
      var last := SuiteWord(c, rows, suite, fileId, file, before.queues).value;
      ConsumesAppend(q, before.word, before.queues, last.word, last.queues, k);
    }
  }

  lemma {:induction false} FileConsumes(c: Context, rows: seq<TestRow>, path: string, q: Queues, k: DiagnosticKey)
    requires c.strict && FileWord(c, rows, path, q).Some?
    ensures var step := FileWord(c, rows, path, q).value; Consumes(q, step.word, step.queues, k)
  {
    var mine := WithKey(rows, FileOf, path);
    var fileId, time := FileId(c, path), IntervalOf(mine, c.time);
    SuitesConsume(c, mine, KeysSeen(mine, SuiteOf), fileId, time, q, k);
    var suites := SuitesWord(c, mine, KeysSeen(mine, SuiteOf), fileId, time, q).value;
    ConsumesBracket(q, Draft(Started(FileLevel), fileId, c.runId, time.start, Plain(path)), suites.word,
                    Draft(Finished(FileLevel), fileId, c.runId, time.finish, Tally(StatusSummary(mine))), suites.queues, k);
  }

  /** When the shards' evidence is required, the diagnostics of tests are recorded under the
      identities the shards gave them: per parent and diagnostic, the first ones, in order, each once. */
  lemma {:induction false} IdentitiesUsedInOrder(c: Context, rows: seq<TestRow>, paths: seq<string>, q: Queues, k: DiagnosticKey)
    requires c.strict && FilesWord(c, rows, paths, q).Some?
    ensures var step := FilesWord(c, rows, paths, q).value; Consumes(q, step.word, step.queues, k)
  {
    if paths != [] {
      var init, path := paths[..|paths| - 1], paths[|paths| - 1];
      IdentitiesUsedInOrder(c, rows, init, q, k);
      var before := FilesWord(c, rows, init, q).value;
      FileConsumes(c, rows, path, before.queues, k);
      var last := FileWord(c, rows, path, before.queues).value;
      ConsumesAppend(q, before.word, before.queues, last.word, last.queues, k);
    }
  }

  // ---------------------------------------------------------------- how many are needed

  function ClaimsOne(k: DiagnosticKey): Draft -> nat {
    (d: Draft) => if IsClaim(d, k) then 1 else 0
  }

  function CountText(s: seq<string>, n: nat, text: string): nat
    requires n <= |s|
  {
    if n == 0 then 0 else CountText(s, n - 1, text) + if s[n - 1] == text then 1 else 0
  }

  /** How often the row carries the diagnostic. */
  function Demand(k: DiagnosticKey): TestRow -> nat {
    (r: TestRow) => if r.testId == k.0 then CountText(r.diagnostics, |r.diagnostics|, k.1) else 0
  }

  lemma {:induction false} ClaimsCounted(w: seq<Draft>, k: DiagnosticKey)
    ensures Sum(w, ClaimsOne(k)) == |Claims(w, k)|
  {
    if w != [] {
      ClaimsCounted(w[..|w| - 1], k);
      SumSnoc(w, ClaimsOne(k));
    }
  }

  lemma {:induction false} DiagnosticsDemand(c: Context, r: TestRow, n: nat, at: int, q: Queues, k: DiagnosticKey)
    requires n <= |r.diagnostics| && DiagnosticWord(c, r, n, at, q).Some?
    ensures |Claims(DiagnosticWord(c, r, n, at, q).value.word, k)| ==
            if r.testId == k.0 then CountText(r.diagnostics, n, k.1) else 0
  {
    if n > 0 {
      DiagnosticsDemand(c, r, n - 1, at, q, k);
      var before := DiagnosticWord(c, r, n - 1, at, q).value;
      var word := DiagnosticWord(c, r, n, at, q).value.word;
      assert word[..|word| - 1] == before.word;
    }
  }

  lemma {:induction false} TestDemand(c: Context, r: TestRow, k: DiagnosticKey)
    ensures Weighs(c, r, ClaimsOne(k), Demand(k))
  {
    forall suiteId, suite, q | TestWord(c, r, suiteId, suite, q).Some?
      ensures Sum(TestWord(c, r, suiteId, suite, q).value.word, ClaimsOne(k)) == Demand(k)(r)
    {
      var test := TestInterval(r, suite);
      var quiet := AttemptWord(r, |History(r)|, test) + CaseWord(r, |r.cases|, test).value + BenchmarkWord(r, test);
      var loud := DiagnosticWord(c, r, |r.diagnostics|, test.finish, q).value.word;
      AttemptsClaimNothing(r, |History(r)|, test);
      CasesClaimNothing(r, |r.cases|, test);
      NoClaims(quiet, k);
      ClaimsAppend(quiet, loud, k);
      DiagnosticsDemand(c, r, |r.diagnostics|, test.finish, q, k);
      ClaimsCounted(quiet + loud, k);
      SumBracket(TestOpen(r, suiteId, test), quiet + loud, TestClose(r, suiteId, test), ClaimsOne(k));
    }
  }

  /** A stream can only be built when the shards' events carry at least as many identities for a
      diagnostic as the rows need; what is left over is exactly the surplus. */
  lemma {:induction false} EvidenceSuffices(c: Context, rows: seq<TestRow>, q: Queues, k: DiagnosticKey)
    requires c.strict && FilesWord(c, rows, KeysSeen(rows, FileOf), q).Some?
    ensures |Pending(q, k)| ==
            Sum(rows, Demand(k)) + |Pending(FilesWord(c, rows, KeysSeen(rows, FileOf), q).value.queues, k)|
  {
    var paths := KeysSeen(rows, FileOf);
    IdentitiesUsedInOrder(c, rows, paths, q, k);
    ClaimsCounted(FilesWord(c, rows, paths, q).value.word, k);
    forall r | r in rows
      ensures Weighs(c, r, ClaimsOne(k), Demand(k))
    {
      TestDemand(c, r, k);
    }
    FilesWeigh(c, rows, paths, q, ClaimsOne(k), Demand(k), false);
    NoBrackets(rows, paths);
    RegroupedPermutes(rows, FileOf);
    SumPermutation(Regrouped(rows, FileOf, paths), rows, Demand(k));
  }
}
