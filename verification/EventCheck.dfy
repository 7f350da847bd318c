/** The checker of event streams, and its acceptance of every stream built from sound rows. */
module EventCheck {
  import opened Seqs
  import opened Grouping
  import opened Lifecycle

  /** What the checker reads of the report. */
  datatype Report = Report(
    runId: string, time: Interval, digest: string, notice: string, summary: string, rows: seq<TestRow>)

  /** `by_key`: the last event of that kind about that entity. */
  function Linked(w: seq<Draft>, kind: Kind, entity: string): Option<Draft> {
    if w == [] then None
    else if w[|w| - 1].kind == kind && w[|w| - 1].entity == entity then Some(w[|w| - 1])
    else Linked(w[..|w| - 1], kind, entity)
  }

  function DraftsOf(events: seq<Event>): seq<Draft> {
    seq(|events|, (i: nat) requires i < |events| => events[i].draft)
  }

  predicate At(d: Option<Draft>, t: Option<int>) {
    d.Some? && t.Some? && d.value.at == t.value
  }

  /** Both ends of an observed interval are recorded when they were observed. */
  predicate Recorded(w: seq<Draft>, level: Level, entity: string, started: Option<int>, finished: Option<int>) {
    started.Some? ==>
      At(Linked(w, Started(level), entity), started) && At(Linked(w, Finished(level), entity), finished)
  }

  predicate NoEmptyQuarantine(d: Draft, r: TestRow) {
    r.quarantine == "" ==> !(d.payload.Outcome? && d.payload.quarantine.Some?)
  }

  /** The identity the checker derives from a row. */
  function RowIdentity(r: TestRow): string { if r.caseId != "" then r.caseId else r.testId }

  predicate RowRecorded(w: seq<Draft>, r: TestRow) {
    var id := RowIdentity(r);
    && Linked(w, Started(TestLevel), id).Some?
    && Linked(w, Finished(TestLevel), id).Some?
    && NoEmptyQuarantine(Linked(w, Finished(TestLevel), id).value, r)
    && Recorded(w, TestLevel, id, r.started, r.finished)
    && (forall i :: 0 <= i < |r.attempts| ==>
          Recorded(w, AttemptLevel, AttemptId(id, i + 1), r.attempts[i].started, r.attempts[i].finished))
    && (forall i :: 0 <= i < |r.cases| ==>
          Recorded(w, CaseLevel, r.cases[i].caseId, r.cases[i].started, r.cases[i].finished))
  }

  predicate InTime(t: int, time: Interval) { time.start <= t <= time.finish }

  /** `validate_events`. */
  predicate EventsOk(events: seq<Event>, doc: Report) {
    var w := DraftsOf(events);
    && |w| >= 2
    && (forall i :: 0 <= i < |events| ==> events[i].sequence == i + 1 && events[i].runId == doc.runId)
    && w[0].kind == Started(RunLevel) && w[1].kind == ManifestPublished && w[|w| - 1].kind == Finished(RunLevel)
    && w[1].entity == doc.digest
    && w[|w| - 1].payload == Plain(doc.summary)
    && w[1].payload == Plain(doc.notice)
    && (forall d :: d in w ==> InTime(d.at, doc.time))
    && (forall r :: r in doc.rows ==> RowRecorded(w, r))
  }

  // ---------------------------------------------------------------- rows the report checks accept

  predicate IntervalOk(started: Option<int>, finished: Option<int>) {
    started.Some? == finished.Some? && (started.Some? ==> started.value <= finished.value)
  }

  predicate Inside(t: Option<int>, time: Interval) { t.Some? ==> InTime(t.value, time) }

  /** `validate_test`, as far as identities and times go, with every observed time inside the run. */
  ghost predicate RowOk(r: TestRow, time: Interval) {
    && r.testId != ""
    && IntervalOk(r.started, r.finished) && Inside(r.started, time) && Inside(r.finished, time)
    && (forall a :: a in r.attempts ==>
          IntervalOk(a.started, a.finished) && Inside(a.started, time) && Inside(a.finished, time))
    && (forall i :: 0 <= i < |r.attempts| ==> r.attempts[i].number == Some(i + 1))
    && (forall k :: k in r.cases ==>
          IntervalOk(k.started, k.finished) && Inside(k.started, time) && Inside(k.finished, time))
  }

  ghost predicate DistinctIdentities(rows: seq<TestRow>) {
    forall r, s :: r in rows && s in rows && IdOf(r) == IdOf(s) ==> r == s
  }

  ghost predicate DistinctCases(rows: seq<TestRow>) {
    forall r, s, i, j ::
      r in rows && s in rows && 0 <= i < |r.cases| && 0 <= j < |s.cases| && r.cases[i].caseId == s.cases[j].caseId ==>
        r == s && i == j
  }

  /** Cases that share an identity, in one row or in several, were observed at the same times. */
  ghost predicate CasesAgree(rows: seq<TestRow>) {
    forall r, s, i, j ::
      r in rows && s in rows && 0 <= i < |r.cases| && 0 <= j < |s.cases| && r.cases[i].caseId == s.cases[j].caseId ==>
        r.cases[i].started == s.cases[j].started && r.cases[i].finished == s.cases[j].finished
  }

  /** Cases that share an identity are all observed or all unobserved. */
  ghost predicate ObservedAlike(rows: seq<TestRow>) {
    forall r, s, i, j ::
      r in rows && s in rows && 0 <= i < |r.cases| && 0 <= j < |s.cases| && r.cases[i].caseId == s.cases[j].caseId ==>
        r.cases[i].started.Some? == s.cases[j].started.Some?
  }

  lemma {:induction false} DistinctCasesAgree(rows: seq<TestRow>)
    requires DistinctCases(rows)
    ensures CasesAgree(rows)
  {}

  /** Rows that pass the row checks one by one and have identities of their own. */
  ghost predicate RowsSound(rows: seq<TestRow>, time: Interval) {
    && time.start <= time.finish
    && (forall r :: r in rows ==> RowOk(r, time))
    && DistinctIdentities(rows)
  }

  ghost predicate RowsOk(rows: seq<TestRow>, time: Interval) {
    RowsSound(rows, time) && CasesAgree(rows)
  }

  // ---------------------------------------------------------------- nested intervals

  predicate Within(inner: Interval, outer: Interval) {
    outer.start <= inner.start && inner.finish <= outer.finish
  }

  lemma {:induction false} EarliestBounds(rows: seq<TestRow>, fallback: int)
    requires rows != []
    ensures forall r :: r in rows ==> Earliest(rows, fallback) <= Observed(r.started, fallback)
    ensures exists r :: r in rows && Earliest(rows, fallback) == Observed(r.started, fallback)
  {
    var init, last := rows[..|rows| - 1], rows[|rows| - 1];
    assert rows == init + [last];
    if |rows| > 1 {
      EarliestBounds(init, fallback);
      if Earliest(rows, fallback) == Earliest(init, fallback) {
        var r :| r in init && Earliest(init, fallback) == Observed(r.started, fallback);
        assert r in rows;
      } else {
        assert last in rows;
      }
    } else {
      assert last in rows;
    }
  }

  lemma {:induction false} LatestBounds(rows: seq<TestRow>, fallback: int)
    requires rows != []
    ensures forall r :: r in rows ==> Observed(r.finished, fallback) <= Latest(rows, fallback)
    ensures exists r :: r in rows && Latest(rows, fallback) == Observed(r.finished, fallback)
  {
    var init, last := rows[..|rows| - 1], rows[|rows| - 1];
    assert rows == init + [last];
    if |rows| > 1 {
      LatestBounds(init, fallback);
      if Latest(rows, fallback) == Latest(init, fallback) {
        var r :| r in init && Latest(init, fallback) == Observed(r.finished, fallback);
        assert r in rows;
      } else {
        assert last in rows;
      }
    } else {
      assert last in rows;
    }
  }

  /** The rows' observed times lie inside the interval they are given. */
  ghost predicate Covered(rows: seq<TestRow>, outer: Interval) {
    forall r :: r in rows ==> Inside(r.started, outer) && Inside(r.finished, outer) && IntervalOk(r.started, r.finished)
  }

  /** One nesting step: the interval of a group lies in the enclosing one and encloses its rows. */
  lemma {:induction false} Nested(rows: seq<TestRow>, outer: Interval)
    requires Covered(rows, outer) && outer.start <= outer.finish
    ensures Within(IntervalOf(rows, outer), outer)
    ensures IntervalOf(rows, outer).start <= IntervalOf(rows, outer).finish
    ensures Covered(rows, IntervalOf(rows, outer))
  {
    if rows != [] {
      EarliestBounds(rows, outer.start);
      LatestBounds(rows, outer.finish);
      var r :| r in rows && Earliest(rows, outer.start) == Observed(r.started, outer.start);
      var s :| s in rows && Latest(rows, outer.finish) == Observed(s.finished, outer.finish);
      var time := IntervalOf(rows, outer);
      assert Observed(r.finished, outer.finish) <= time.finish;
      forall x | x in rows
        ensures Inside(x.started, time) && Inside(x.finished, time)
      {
        assert time.start <= Observed(x.started, outer.start) && Observed(x.finished, outer.finish) <= time.finish;
      }
    }
  }

  lemma {:induction false} CoveredGroup(rows: seq<TestRow>, key: TestRow -> string, k: string, outer: Interval)
    requires Covered(rows, outer)
    ensures Covered(WithKey(rows, key, k), outer)
  {
    forall r | r in WithKey(rows, key, k)
      ensures r in rows
    {
      WithKeyMember(rows, key, k, r);
    }
  }

  /** Run, file, suite and test intervals are nested, with the gaps filled from outside. */
  lemma {:induction false} IntervalsNest(rows: seq<TestRow>, run: Interval, path: string, suite: string, r: TestRow)
    requires Covered(rows, run) && run.start <= run.finish
    requires r in rows && r.file == path && r.suite == suite
    ensures var mine := WithKey(rows, FileOf, path);
            var file := IntervalOf(mine, run);
            var inner := IntervalOf(WithKey(mine, SuiteOf, suite), file);
            var test := TestInterval(r, inner);
            && Within(file, run) && Within(inner, file) && Within(test, inner)
            && test.start <= test.finish
  {
    var mine := WithKey(rows, FileOf, path);
    CoveredGroup(rows, FileOf, path, run);
    WithKeyMember(rows, FileOf, path, r);
    Nested(mine, run);
    var file := IntervalOf(mine, run);
    CoveredGroup(mine, SuiteOf, suite, file);
    WithKeyMember(mine, SuiteOf, suite, r);
    Nested(WithKey(mine, SuiteOf, suite), file);
  }
}
