/** Exactly when an event stream can be built. */
module StreamExistence {
  import opened Seqs
  import opened Grouping
  import opened Lifecycle
  import opened LifecycleCount
  import opened DiagnosticIds

  ghost predicate Identified(r: TestRow) {
    forall k :: k in r.cases ==> k.caseId != ""
  }

  ghost predicate CasesIdentified(rows: seq<TestRow>) {
    forall r :: r in rows ==> Identified(r)
  }

  /** The suite's first row is in the inventory. */
  ghost predicate SuiteListed(c: Context, rows: seq<TestRow>, suite: string) {
    WithKey(rows, SuiteOf, suite) != [] && IdOf(WithKey(rows, SuiteOf, suite)[0]) in c.suiteIds
  }

  ghost predicate SuitesListed(c: Context, rows: seq<TestRow>, suites: seq<string>) {
    forall s :: s in suites ==> SuiteListed(c, rows, s)
  }

  ghost predicate FileListed(c: Context, rows: seq<TestRow>, path: string) {
    var mine := WithKey(rows, FileOf, path);
    SuitesListed(c, mine, KeysSeen(mine, SuiteOf))
  }

  ghost predicate FilesListed(c: Context, rows: seq<TestRow>, paths: seq<string>) {
    forall p :: p in paths ==> FileListed(c, rows, p)
  }

  /** Some diagnostic of the rows occurs more often than the shards gave it an identity. */
  ghost predicate Short(c: Context, q: Queues, rows: seq<TestRow>) {
    c.strict && exists k: DiagnosticKey :: |Pending(q, k)| < Sum(rows, Demand(k))
  }

  lemma {:induction false} ShortMore(c: Context, q: Queues, a: seq<TestRow>, b: seq<TestRow>)
    requires Short(c, q, a)
    ensures Short(c, q, a + b)
  {
    var k: DiagnosticKey :| |Pending(q, k)| < Sum(a, Demand(k));
    SumAppend(a, b, Demand(k));
  }

  /** The word uses what the rows `a` need. */
  ghost predicate Uses(q: Queues, w: seq<Draft>, rest: Queues, a: seq<TestRow>) {
    forall k: DiagnosticKey :: Consumes(q, w, rest, k) && |Claims(w, k)| == Sum(a, Demand(k))
  }

  lemma {:induction false} ShortAfter(c: Context, q: Queues, w: seq<Draft>, mid: Queues, a: seq<TestRow>, b: seq<TestRow>)
    requires Uses(q, w, mid, a) && Short(c, mid, b)
    ensures Short(c, q, a + b)
  {
    var k: DiagnosticKey :| |Pending(mid, k)| < Sum(b, Demand(k));
    SumAppend(a, b, Demand(k));
    assert Consumes(q, w, mid, k) && |Claims(w, k)| == Sum(a, Demand(k));
  }

  // ---------------------------------------------------------------- one test

  lemma {:induction false} CasesBuilt(r: TestRow, n: nat, test: Interval)
    requires n <= |r.cases|
    ensures CaseWord(r, n, test).Some? <==> forall i :: 0 <= i < n ==> r.cases[i].caseId != ""
  {
    if n > 0 { CasesBuilt(r, n - 1, test); }
  }

  lemma {:induction false} CountGrows(s: seq<string>, m: nat, n: nat, text: string)
    requires m <= n <= |s|
    ensures CountText(s, m, text) <= CountText(s, n, text)
  {
    if m < n { CountGrows(s, m, n - 1, text); }
  }

  lemma {:induction false} DiagnosticsFail(c: Context, r: TestRow, n: nat, at: int, q: Queues) returns (k: DiagnosticKey)
    requires n <= |r.diagnostics| && DiagnosticWord(c, r, n, at, q).None?
    ensures c.strict && k.0 == r.testId && |Pending(q, k)| < CountText(r.diagnostics, n, k.1)
  {
    if DiagnosticWord(c, r, n - 1, at, q).None? {
      k := DiagnosticsFail(c, r, n - 1, at, q);
    } else {
      k := (r.testId, r.diagnostics[n - 1]);
      DiagnosticsConsume(c, r, n - 1, at, q, k);
      DiagnosticsDemand(c, r, n - 1, at, q, k);
    }
  }

  lemma {:induction false} TestFails(c: Context, r: TestRow, suiteId: string, suite: Interval, q: Queues)
    requires TestWord(c, r, suiteId, suite, q).None? && Identified(r)
    ensures Short(c, q, [r])
  {
    var test := TestInterval(r, suite);
    CasesBuilt(r, |r.cases|, test);
    var k := DiagnosticsFail(c, r, |r.diagnostics|, test.finish, q);
    SumOne(r, Demand(k));
  }

  lemma {:induction false} TestBuilt(c: Context, r: TestRow, suiteId: string, suite: Interval, q: Queues)
    requires TestWord(c, r, suiteId, suite, q).Some?
    ensures Identified(r)
  {
    CasesBuilt(r, |r.cases|, TestInterval(r, suite));
  }

  // ---------------------------------------------------------------- suites and files

  lemma {:induction false} AllDemand(c: Context, rows: seq<TestRow>, k: DiagnosticKey)
    ensures forall r :: r in rows ==> Weighs(c, r, ClaimsOne(k), Demand(k))
  {
    forall r | r in rows
      ensures Weighs(c, r, ClaimsOne(k), Demand(k))
    {
      TestDemand(c, r, k);
    }
  }

  lemma {:induction false} TestsUse(c: Context, rows: seq<TestRow>, suiteId: string, suite: Interval, q: Queues)
    requires c.strict && TestsWord(c, rows, suiteId, suite, q).Some?
    ensures var step := TestsWord(c, rows, suiteId, suite, q).value; Uses(q, step.word, step.queues, rows)
  {
    var step := TestsWord(c, rows, suiteId, suite, q).value;
    forall k: DiagnosticKey
      ensures Consumes(q, step.word, step.queues, k) && |Claims(step.word, k)| == Sum(rows, Demand(k))
    {
      TestsConsume(c, rows, suiteId, suite, q, k);
      AllDemand(c, rows, k);
      TestsWeigh(c, rows, suiteId, suite, q, ClaimsOne(k), Demand(k));
      ClaimsCounted(step.word, k);
    }
  }

  lemma {:induction false} TestsFail(c: Context, rows: seq<TestRow>, suiteId: string, suite: Interval, q: Queues)
    requires TestsWord(c, rows, suiteId, suite, q).None? && CasesIdentified(rows)
    ensures Short(c, q, rows)
  {
    var init, r := rows[..|rows| - 1], rows[|rows| - 1];
    assert rows == init + [r];
    if TestsWord(c, init, suiteId, suite, q).None? {
      TestsFail(c, init, suiteId, suite, q);
      ShortMore(c, q, init, [r]);
    } else {
      var before := TestsWord(c, init, suiteId, suite, q).value;
      TestFails(c, r, suiteId, suite, before.queues);
      TestsUse(c, init, suiteId, suite, q);
      ShortAfter(c, q, before.word, before.queues, init, [r]);
    }
  }

  lemma {:induction false} TestsBuilt(c: Context, rows: seq<TestRow>, suiteId: string, suite: Interval, q: Queues)
    requires TestsWord(c, rows, suiteId, suite, q).Some?
    ensures CasesIdentified(rows)
  {
    if rows != [] {
      var init, r := rows[..|rows| - 1], rows[|rows| - 1];
      assert rows == init + [r];
      TestsBuilt(c, init, suiteId, suite, q);
      TestBuilt(c, r, suiteId, suite, TestsWord(c, init, suiteId, suite, q).value.queues);
    }
  }

  lemma {:induction false} GroupIdentified(rows: seq<TestRow>, key: TestRow -> string, k: string)
    requires CasesIdentified(rows)
    ensures CasesIdentified(WithKey(rows, key, k))
  {
    forall r | r in WithKey(rows, key, k)
      ensures r in rows
    {
      WithKeyMember(rows, key, k, r);
    }
  }

  lemma {:induction false} SuiteFails(
      c: Context, rows: seq<TestRow>, suite: string, fileId: string, file: Interval, q: Queues)
    requires SuiteWord(c, rows, suite, fileId, file, q).None? && CasesIdentified(rows) && SuiteListed(c, rows, suite)
    ensures Short(c, q, WithKey(rows, SuiteOf, suite))
  {
    var mine := WithKey(rows, SuiteOf, suite);
    GroupIdentified(rows, SuiteOf, suite);
    TestsFail(c, mine, c.suiteIds[IdOf(mine[0])], IntervalOf(mine, file), q);
  }

  lemma {:induction false} SuitesUse(
      c: Context, rows: seq<TestRow>, suites: seq<string>, fileId: string, file: Interval, q: Queues)
    requires c.strict && SuitesWord(c, rows, suites, fileId, file, q).Some?
    ensures var step := SuitesWord(c, rows, suites, fileId, file, q).value;
            Uses(q, step.word, step.queues, Regrouped(rows, SuiteOf, suites))
  {
    var step := SuitesWord(c, rows, suites, fileId, file, q).value;
    forall k: DiagnosticKey
      ensures Consumes(q, step.word, step.queues, k)
      ensures |Claims(step.word, k)| == Sum(Regrouped(rows, SuiteOf, suites), Demand(k))
    {
      SuitesConsume(c, rows, suites, fileId, file, q, k);
      AllDemand(c, rows, k);
      SuitesWeigh(c, rows, suites, fileId, file, q, ClaimsOne(k), Demand(k), false);
      ClaimsCounted(step.word, k);
    }
  }

  lemma {:induction false} SuitesFail(
      c: Context, rows: seq<TestRow>, suites: seq<string>, fileId: string, file: Interval, q: Queues)
    requires SuitesWord(c, rows, suites, fileId, file, q).None? && CasesIdentified(rows) && SuitesListed(c, rows, suites)
    ensures Short(c, q, Regrouped(rows, SuiteOf, suites))
  {
    var init, suite := suites[..|suites| - 1], suites[|suites| - 1];
    if SuitesWord(c, rows, init, fileId, file, q).None? {
      SuitesFail(c, rows, init, fileId, file, q);
      ShortMore(c, q, Regrouped(rows, SuiteOf, init), WithKey(rows, SuiteOf, suite));
    } else {
      var before := SuitesWord(c, rows, init, fileId, file, q).value;
      SuiteFails(c, rows, suite, fileId, file, before.queues);
      SuitesUse(c, rows, init, fileId, file, q);
      ShortAfter(c, q, before.word, before.queues, Regrouped(rows, SuiteOf, init), WithKey(rows, SuiteOf, suite));
    }
  }

  lemma {:induction false} SuitesBuilt(
      c: Context, rows: seq<TestRow>, suites: seq<string>, fileId: string, file: Interval, q: Queues)
    requires SuitesWord(c, rows, suites, fileId, file, q).Some?
    ensures SuitesListed(c, rows, suites)
    ensures forall r :: r in rows && r.suite in suites ==> Identified(r)
  {
    if suites != [] {
      var init, suite := suites[..|suites| - 1], suites[|suites| - 1];
      assert suites == init + [suite];
      SuitesBuilt(c, rows, init, fileId, file, q);
      var mine := WithKey(rows, SuiteOf, suite);
      TestsBuilt(c, mine, c.suiteIds[IdOf(mine[0])], IntervalOf(mine, file), SuitesWord(c, rows, init, fileId, file, q).value.queues);
      forall r | r in rows && r.suite == suite
        ensures Identified(r)
      {
        WithKeyMember(rows, SuiteOf, suite, r);
      }
    }
  }

  lemma {:induction false} FileFails(c: Context, rows: seq<TestRow>, path: string, q: Queues)
    requires FileWord(c, rows, path, q).None? && CasesIdentified(rows) && FileListed(c, rows, path)
    ensures Short(c, q, WithKey(rows, FileOf, path))
  {
    var mine := WithKey(rows, FileOf, path);
    GroupIdentified(rows, FileOf, path);
    SuitesFail(c, mine, KeysSeen(mine, SuiteOf), FileId(c, path), IntervalOf(mine, c.time), q);
    RegroupedPermutes(mine, SuiteOf);
    var k: DiagnosticKey :| |Pending(q, k)| < Sum(Regrouped(mine, SuiteOf, KeysSeen(mine, SuiteOf)), Demand(k));
    SumPermutation(Regrouped(mine, SuiteOf, KeysSeen(mine, SuiteOf)), mine, Demand(k));
  }

  lemma {:induction false} FilesUse(c: Context, rows: seq<TestRow>, paths: seq<string>, q: Queues)
    requires c.strict && FilesWord(c, rows, paths, q).Some?
    ensures var step := FilesWord(c, rows, paths, q).value; Uses(q, step.word, step.queues, Regrouped(rows, FileOf, paths))
  {
    var step := FilesWord(c, rows, paths, q).value;
    forall k: DiagnosticKey
      ensures Consumes(q, step.word, step.queues, k)
      ensures |Claims(step.word, k)| == Sum(Regrouped(rows, FileOf, paths), Demand(k))
    {
      IdentitiesUsedInOrder(c, rows, paths, q, k);
      AllDemand(c, rows, k);
      FilesWeigh(c, rows, paths, q, ClaimsOne(k), Demand(k), false);
      NoBrackets(rows, paths);
      ClaimsCounted(step.word, k);
    }
  }

  lemma {:induction false} FilesFail(c: Context, rows: seq<TestRow>, paths: seq<string>, q: Queues)
    requires FilesWord(c, rows, paths, q).None? && CasesIdentified(rows) && FilesListed(c, rows, paths)
    ensures Short(c, q, Regrouped(rows, FileOf, paths))
  {
    var init, path := paths[..|paths| - 1], paths[|paths| - 1];
    if FilesWord(c, rows, init, q).None? {
      FilesFail(c, rows, init, q);
      ShortMore(c, q, Regrouped(rows, FileOf, init), WithKey(rows, FileOf, path));
    } else {
      var before := FilesWord(c, rows, init, q).value;
      FileFails(c, rows, path, before.queues);
      if c.strict { FilesUse(c, rows, init, q); }
      ShortAfter(c, q, before.word, before.queues, Regrouped(rows, FileOf, init), WithKey(rows, FileOf, path));
    }
  }

  lemma {:induction false} FilesBuilt(c: Context, rows: seq<TestRow>, paths: seq<string>, q: Queues)
    requires FilesWord(c, rows, paths, q).Some?
    ensures FilesListed(c, rows, paths)
    ensures forall r :: r in rows && r.file in paths ==> Identified(r)
  {
    if paths != [] {
      var init, path := paths[..|paths| - 1], paths[|paths| - 1];
      assert paths == init + [path];
      FilesBuilt(c, rows, init, q);
      var mine := WithKey(rows, FileOf, path);
      SuitesBuilt(c, mine, KeysSeen(mine, SuiteOf), FileId(c, path), IntervalOf(mine, c.time),
                  FilesWord(c, rows, init, q).value.queues);
      forall r | r in rows && r.file == path
        ensures Identified(r)
      {
        WithKeyMember(rows, FileOf, path, r);
        KeysSeenMember(mine, SuiteOf, r.suite);
        assert SuiteOf(r) == r.suite;
      }
    }
  }

  /** A stream is built exactly when every parameter case has its identity, every suite's first row is
      in the inventory and, if the shards' evidence is required, there is enough of it. */
  lemma {:induction false} BuiltExactlyWhen(c: Context, rows: seq<TestRow>, e: Closing, q: Queues)
    ensures RunWord(c, rows, e, q).Some? <==>
            && CasesIdentified(rows)
            && FilesListed(c, rows, KeysSeen(rows, FileOf))
            && !Short(c, q, rows)
  {
    var paths := KeysSeen(rows, FileOf);
    RegroupedPermutes(rows, FileOf);
    if RunWord(c, rows, e, q).Some? {
      FilesBuilt(c, rows, paths, q);
      forall r | r in rows
        ensures Identified(r)
      {
        KeysSeenMember(rows, FileOf, r.file);
        assert FileOf(r) == r.file;
      }
      if c.strict {
        forall k: DiagnosticKey
          ensures |Pending(q, k)| >= Sum(rows, Demand(k))
        {
          EvidenceSuffices(c, rows, q, k);
        }
      }
    } else if CasesIdentified(rows) && FilesListed(c, rows, paths) {
      FilesFail(c, rows, paths, q);
      var k: DiagnosticKey :| |Pending(q, k)| < Sum(Regrouped(rows, FileOf, paths), Demand(k));
      SumPermutation(Regrouped(rows, FileOf, paths), rows, Demand(k));
    }
  }
}
