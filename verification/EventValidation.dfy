/** `validate_events` as the checker runs it: one table of the events by type and entity, then every row
    of the report looked up in it. */
module EventValidation {
  import opened Seqs
  import opened Text
  import opened Lifecycle
  import opened EventCheck

  type Index = map<(Kind, string), Draft>

  /** The table holds the last event of every kind about every entity. */
  ghost predicate Indexes(index: Index, w: seq<Draft>) {
    forall kind, entity ::
      Linked(w, kind, entity) == if (kind, entity) in index then Some(index[(kind, entity)]) else None
  }

  /** `{(event["type"], event["entityId"]): event for event in events}` */
  method IndexEvents(w: seq<Draft>) returns (index: Index)
    ensures Indexes(index, w)
  {
    index := map[];
    for i := 0 to |w|
      invariant Indexes(index, w[..i])
    {
      assert w[..i + 1][..i] == w[..i];
      index := index[(w[i].kind, w[i].entity) := w[i]];
    }
    assert w[..|w|] == w;
  }

  /** The two ends of an observed interval. */
  method CheckInterval(
      index: Index, ghost w: seq<Draft>, level: Level, entity: string, started: Option<int>, finished: Option<int>)
    returns (ok: bool)
    requires Indexes(index, w)
    ensures ok <==> Recorded(w, level, entity, started, finished)
  {
    if started.None? { return true; }
    var first, last := (Started(level), entity), (Finished(level), entity);
    if first !in index || last !in index { return false; }
    ok := index[first].at == started.value && finished.Some? && index[last].at == finished.value;
  }

  method CheckAttempts(index: Index, ghost w: seq<Draft>, id: string, attempts: seq<Attempt>) returns (ok: bool)
    requires Indexes(index, w)
    ensures ok <==> forall i :: 0 <= i < |attempts| ==>
              Recorded(w, AttemptLevel, AttemptId(id, i + 1), attempts[i].started, attempts[i].finished)
  {
    for i := 0 to |attempts|
      invariant forall j :: 0 <= j < i ==>
        Recorded(w, AttemptLevel, AttemptId(id, j + 1), attempts[j].started, attempts[j].finished)
    {
      ok := CheckInterval(
        index, w, AttemptLevel, id + "/attempt/" + Decimal(i + 1), attempts[i].started, attempts[i].finished);
      if !ok { return; }
    }
    ok := true;
  }

  method CheckCases(index: Index, ghost w: seq<Draft>, cases: seq<ParameterCase>) returns (ok: bool)
    requires Indexes(index, w)
    ensures ok <==> forall i :: 0 <= i < |cases| ==>
              Recorded(w, CaseLevel, cases[i].caseId, cases[i].started, cases[i].finished)
  {
    for i := 0 to |cases|
      invariant forall j :: 0 <= j < i ==> Recorded(w, CaseLevel, cases[j].caseId, cases[j].started, cases[j].finished)
    {
      ok := CheckInterval(index, w, CaseLevel, cases[i].caseId, cases[i].started, cases[i].finished);
      if !ok { return; }
    }
    ok := true;
  }

  method CheckRow(index: Index, ghost w: seq<Draft>, r: TestRow) returns (ok: bool)
    requires Indexes(index, w)
    ensures ok <==> RowRecorded(w, r)
  {
    var id := if r.caseId != "" then r.caseId else r.testId;
    var first, last := (Started(TestLevel), id), (Finished(TestLevel), id);
    if first !in index || last !in index { return false; }
    var outcome := index[last].payload;
    if r.quarantine == "" && outcome.Outcome? && outcome.quarantine.Some? { return false; }
    ok := CheckInterval(index, w, TestLevel, id, r.started, r.finished);
    if !ok { return; }
    ok := CheckAttempts(index, w, id, r.attempts);
    if !ok { return; }
    ok := CheckCases(index, w, r.cases);
  }

  method CheckRows(w: seq<Draft>, rows: seq<TestRow>) returns (ok: bool)
    ensures ok <==> forall r :: r in rows ==> RowRecorded(w, r)
  {
    var index := IndexEvents(w);
    for i := 0 to |rows|
      invariant forall j :: 0 <= j < i ==> RowRecorded(w, rows[j])
    {
      ok := CheckRow(index, w, rows[i]);
      if !ok { return; }
    }
    ok := true;
  }

  method CheckNumbers(events: seq<Event>, runId: string) returns (ok: bool)
    ensures ok <==> forall i :: 0 <= i < |events| ==> events[i].sequence == i + 1 && events[i].runId == runId
  {
    for i := 0 to |events|
      invariant forall j :: 0 <= j < i ==> events[j].sequence == j + 1 && events[j].runId == runId
    {
      if events[i].sequence != i + 1 || events[i].runId != runId { return false; }
    }
    ok := true;
  }

  method CheckTimes(w: seq<Draft>, time: Interval) returns (ok: bool)
    ensures ok <==> forall d :: d in w ==> InTime(d.at, time)
  {
    for i := 0 to |w|
      invariant forall j :: 0 <= j < i ==> InTime(w[j].at, time)
    {
      if w[i].at < time.start || w[i].at > time.finish { return false; }
    }
    ok := true;
  }

  method ValidateEvents(events: seq<Event>, doc: Report) returns (ok: bool)
    ensures ok <==> EventsOk(events, doc)
  {
    ok := CheckNumbers(events, doc.runId);
    if !ok { return; }
    var w := DraftsOf(events);
    if |w| < 2 { return false; }
    if w[0].kind != Started(RunLevel) || w[1].kind != ManifestPublished || w[|w| - 1].kind != Finished(RunLevel) {
      return false;
    }
    if w[1].entity != doc.digest || w[|w| - 1].payload != Plain(doc.summary) || w[1].payload != Plain(doc.notice) {
      return false;
    }
    ok := CheckTimes(w, doc.time);
    if !ok { return; }
    ok := CheckRows(w, doc.rows);
  }
}
