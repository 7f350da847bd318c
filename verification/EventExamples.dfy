/** Sound rows whose event stream the checker rejects. */
module EventExamples {
  import opened Seqs
  import opened Text
  import opened Grouping
  import opened Lifecycle
  import opened StreamExistence
  import opened EventCheck
  import opened EventAccept

  /** When every test is in the inventory, every suite's first test is. */
  lemma {:induction false} AllListed(c: Context, rows: seq<TestRow>)
    requires forall r :: r in rows ==> IdOf(r) in c.suiteIds
    ensures FilesListed(c, rows, KeysSeen(rows, FileOf))
  {
    forall p | p in KeysSeen(rows, FileOf)
      ensures FileListed(c, rows, p)
    {
      var mine := WithKey(rows, FileOf, p);
      forall r | r in mine
        ensures IdOf(r) in c.suiteIds
      {
        WithKeyMember(rows, FileOf, p, r);
      }
      SuitesFound(c, mine);
    }
  }

  lemma {:induction false} SuitesFound(c: Context, mine: seq<TestRow>)
    requires forall r :: r in mine ==> IdOf(r) in c.suiteIds
    ensures SuitesListed(c, mine, KeysSeen(mine, SuiteOf))
  {
    forall s | s in KeysSeen(mine, SuiteOf)
      ensures SuiteListed(c, mine, s)
    {
      KeysSeenMember(mine, SuiteOf, s);
      var r :| r in mine && SuiteOf(r) == s;
      WithKeyMember(mine, SuiteOf, s, r);
      WithKeyMember(mine, SuiteOf, s, WithKey(mine, SuiteOf, s)[0]);
    }
  }

  /** A passed test with one parameter case, observed from `at` to `at + 1`. */
  function OneCase(testId: string, caseId: string, at: int): TestRow {
    TestRow(testId, "", testId, "a.q", "s", "pass", None, None, "", [],
            [ParameterCase(caseId, Some(at), Some(at + 1), "")], None, [], "")
  }

  /** Both tests are in the inventory of a run that needs no diagnostic evidence. */
  function RunOf(a: string, b: string): Context {
    Context(HexId("run", '0'), Interval(0, 10), "", HexId("manifest", '0'), "", map[], map[a := "s", b := "s"],
            (s: string) => s, (p: string, n: nat, d: string) => d, false)
  }

  lemma {:induction false} OneCaseRow(testId: string, caseId: string, at: int)
    requires testId != "" && caseId != "" && 0 <= at <= 9
    ensures RowOk(OneCase(testId, caseId, at), Interval(0, 10)) && Identified(OneCase(testId, caseId, at))
    ensures IdOf(OneCase(testId, caseId, at)) == testId
  {}

  /** Two tests report a case of one identity at different times. Each row is sound and the stream is built;
      the checker finds the later case for both and rejects. */
  lemma {:induction false} SharedCaseIsRejected() returns (c: Context, rows: seq<TestRow>, e: Closing)
    ensures RowsSound(rows, c.time) && (forall r :: r in rows ==> |r.cases| == 1)
    ensures RunWord(c, rows, e, map[]).Some?
    ensures var doc := Report(c.runId, c.time, c.digest, c.notice, e.stats, rows);
            !EventsOk(Numbered(c.runId, RunWord(c, rows, e, map[]).value), doc)
  {
    var a, b, shared := HexId("test", 'a'), HexId("test", 'b'), HexId("case", '0');
    assert a[5] != b[5];
    var x, y := OneCase(a, shared, 1), OneCase(b, shared, 3);
    OneCaseRow(a, shared, 1);
    OneCaseRow(b, shared, 3);
    c, rows, e := RunOf(a, b), [x, y], Closing(None, None, None, [], "");
    TwoTimesRejected(c, x, y, e);
  }

  lemma {:induction false} TwoTimesRejected(c: Context, x: TestRow, y: TestRow, e: Closing)
    requires !c.strict && c.time.start <= c.time.finish
    requires RowOk(x, c.time) && RowOk(y, c.time) && Identified(x) && Identified(y)
    requires IdOf(x) in c.suiteIds && IdOf(y) in c.suiteIds && IdOf(x) != IdOf(y)
    requires |x.cases| == 1 && |y.cases| == 1 && x.cases[0].started.Some? && y.cases[0].started.Some?
    requires x.cases[0].caseId == y.cases[0].caseId && x.cases[0].started != y.cases[0].started
    ensures var rows := [x, y];
            var doc := Report(c.runId, c.time, c.digest, c.notice, e.stats, rows);
            && RowsSound(rows, c.time) && RunWord(c, rows, e, map[]).Some?
            && !EventsOk(Numbered(c.runId, RunWord(c, rows, e, map[]).value), doc)
  {
    var rows := [x, y];
    TwoRows(c, x, y);
    BuiltExactlyWhen(c, rows, e, map[]);
    AcceptedExactlyWhen(c, rows, e, map[]);
    Disagree(rows, x, y);
  }

  lemma {:induction false} TwoRows(c: Context, x: TestRow, y: TestRow)
    requires c.time.start <= c.time.finish && RowOk(x, c.time) && RowOk(y, c.time) && Identified(x) && Identified(y)
    requires IdOf(x) in c.suiteIds && IdOf(y) in c.suiteIds && IdOf(x) != IdOf(y)
    requires forall k, l :: k in x.cases + y.cases && l in x.cases + y.cases ==> k.started.Some? == l.started.Some?
    ensures RowsSound([x, y], c.time) && ObservedAlike([x, y]) && CasesIdentified([x, y])
    ensures FilesListed(c, [x, y], KeysSeen([x, y], FileOf))
  {
    var rows := [x, y];
    assert forall r :: r in rows ==> r == x || r == y;
    AllListed(c, rows);
    forall r, s, i, j
      | r in rows && s in rows && 0 <= i < |r.cases| && 0 <= j < |s.cases| && r.cases[i].caseId == s.cases[j].caseId
      ensures r.cases[i].started.Some? == s.cases[j].started.Some?
    {
      assert r.cases[i] in x.cases + y.cases && s.cases[j] in x.cases + y.cases;
    }
  }

  lemma {:induction false} Disagree(rows: seq<TestRow>, x: TestRow, y: TestRow)
    requires x in rows && y in rows && x.cases != [] && y.cases != []
    requires x.cases[0].caseId == y.cases[0].caseId && x.cases[0].started != y.cases[0].started
    ensures !CasesAgree(rows)
  {}
}
