/** A bounded self-coverage history that agrees with the unbounded one. */
module Trend {
  import opened Orders
  import opened Seqs
  import opened Text

  datatype Counts = Counts(measured: int, hit: int)

  datatype Summary = Summary(functions: Counts, logicalLines: Counts, blocks: Counts)

  datatype Point = Point(generatedAt: string, frameworkVersion: string, qVersion: string, summary: Summary)

  datatype Artifact = Artifact(complete: bool, gatingSupported: bool, point: Point)

  datatype Document = Document(
    schemaVersion: nat, kind: string, experimental: bool, gatingSupported: bool,
    retentionLimit: int, points: seq<Point>)

  predicate CountsOk(c: Counts) { 0 <= c.hit <= c.measured }

  predicate SummaryOk(s: Summary) { CountsOk(s.functions) && CountsOk(s.logicalLines) && CountsOk(s.blocks) }

  predicate PointOk(p: Point) {
    p.generatedAt != "" && p.frameworkVersion != "" && p.qVersion != "" && SummaryOk(p.summary)
  }

  predicate Before(a: Point, b: Point) {
    StrLe(a.generatedAt, b.generatedAt) && a.generatedAt != b.generatedAt
  }

  /** Timestamps are unique and sorted. */
  ghost predicate InTimeOrder(points: seq<Point>) {
    forall i, j :: 0 <= i < j < |points| ==> Before(points[i], points[j])
  }

  const TREND_KIND := "resq-self-coverage-trend"

  /** `validate_trend` */
  ghost predicate TrendOk(d: Document) {
    && d.schemaVersion == 1 && d.kind == TREND_KIND && d.experimental && !d.gatingSupported
    && (forall p :: p in d.points ==> PointOk(p))
    && InTimeOrder(d.points)
  }

  // ---------------------------------------------------------------- the list operations

  function Others(points: seq<Point>, at: string): seq<Point> {
    if points == [] then []
    else
      var last := points[|points| - 1];
      Others(points[..|points| - 1], at) + if last.generatedAt != at then [last] else []
  }

  /** One step of a stable sort by timestamp. */
  function Insert(points: seq<Point>, p: Point): seq<Point> {
    if points == [] then [p]
    else
      var last := points[|points| - 1];
      if StrLe(last.generatedAt, p.generatedAt) then points + [p]
      else Insert(points[..|points| - 1], p) + [last]
  }

  /** `points.sort(key=...)` */
  function Sort(points: seq<Point>): seq<Point> {
    if points == [] then [] else Insert(Sort(points[..|points| - 1]), points[|points| - 1])
  }

  /** `points[-limit:]` */
  function Newest(points: seq<Point>, limit: nat): seq<Point> {
    if |points| <= limit then points else points[|points| - limit..]
  }

  function Appended(points: seq<Point>, p: Point): seq<Point> {
    Sort(Others(points, p.generatedAt) + [p])
  }

  // ---------------------------------------------------------------- the unbounded history

  /** The last write of every timestamp wins. */
  function History(writes: seq<Point>): seq<Point> {
    if writes == [] then [] else Record(History(writes[..|writes| - 1]), writes[|writes| - 1])
  }

  /** Put a point in its place, replacing the point of the same time. */
  function Record(points: seq<Point>, p: Point): seq<Point> {
    if points == [] then [p]
    else
      var init, last := points[..|points| - 1], points[|points| - 1];
      if last.generatedAt == p.generatedAt then init + [p]
      else if StrLe(last.generatedAt, p.generatedAt) then points + [p]
      else Record(init, p) + [last]
  }

  lemma {:induction false} RecordMember(points: seq<Point>, p: Point, x: Point)
    requires InTimeOrder(points)
    ensures x in Record(points, p) <==> x == p || (x in points && x.generatedAt != p.generatedAt)
  {
    if points != [] {
      var init, last := points[..|points| - 1], points[|points| - 1];
      assert points == init + [last];
      RecordMember(init, p, x);
      if x in init { OlderThanLast(points, x); }
      if StrLe(last.generatedAt, p.generatedAt) && x in init && x.generatedAt == p.generatedAt {
        StrLeAntisymmetric(x.generatedAt, last.generatedAt);
      }
    }
  }

  lemma {:induction false} OlderThanLast(points: seq<Point>, x: Point)
    requires points != [] && InTimeOrder(points) && x in points[..|points| - 1]
    ensures Before(x, points[|points| - 1])
  {
    var i :| 0 <= i < |points| - 1 && points[..|points| - 1][i] == x;
    assert points[i] == x;
  }

  lemma {:induction false} BeforeTransitive(a: Point, b: Point, c: Point)
    requires Before(a, b) && Before(b, c)
    ensures Before(a, c)
  {
    StrLeTransitive(a.generatedAt, b.generatedAt, c.generatedAt);
    if a.generatedAt == c.generatedAt { StrLeAntisymmetric(a.generatedAt, b.generatedAt); }
  }

  lemma {:induction false} OrderSnoc(points: seq<Point>, p: Point)
    requires InTimeOrder(points) && forall x :: x in points ==> Before(x, p)
    ensures InTimeOrder(points + [p])
  {
    forall i, j | 0 <= i < j < |points| + 1
      ensures Before((points + [p])[i], (points + [p])[j])
    {
      assert points[i] in points;
    }
  }

  lemma {:induction false} RecordOrdered(points: seq<Point>, p: Point)
    requires InTimeOrder(points)
    ensures InTimeOrder(Record(points, p))
  {
    if points != [] {
      var init, last := points[..|points| - 1], points[|points| - 1];
      forall x | x in init
        ensures Before(x, last)
      {
        OlderThanLast(points, x);
      }
      if last.generatedAt == p.generatedAt {
        OrderSnoc(init, p);
      } else if StrLe(last.generatedAt, p.generatedAt) {
        forall x | x in points
          ensures Before(x, p)
        {
          if x != last { BeforeTransitive(x, last, p); }
        }
        OrderSnoc(points, p);
      } else {
        StrLeTotal(last.generatedAt, p.generatedAt);
        RecordOrdered(init, p);
        forall x | x in Record(init, p)
          ensures Before(x, last)
        {
          RecordMember(init, p, x);
        }
        OrderSnoc(Record(init, p), last);
      }
    }
  }

  /** `p` is the last write of its timestamp. */
  ghost predicate LastWrite(writes: seq<Point>, p: Point) {
    exists i :: 0 <= i < |writes| && writes[i] == p
      && forall j :: i < j < |writes| ==> writes[j].generatedAt != p.generatedAt
  }

  lemma {:induction false} LastWriteSnoc(init: seq<Point>, last: Point, p: Point)
    ensures LastWrite(init + [last], p) <==> p == last || (LastWrite(init, p) && p.generatedAt != last.generatedAt)
  {
    var writes := init + [last];
    if p == last { assert writes[|init|] == p; }
    if LastWrite(init, p) && p.generatedAt != last.generatedAt {
      var i :| 0 <= i < |init| && init[i] == p && forall j :: i < j < |init| ==> init[j].generatedAt != p.generatedAt;
      assert writes[i] == p;
      forall j | i < j < |writes|
        ensures writes[j].generatedAt != p.generatedAt
      {
        if j < |init| { assert writes[j] == init[j]; }
      }
    }
    if LastWrite(writes, p) && p != last {
      var i :| 0 <= i < |writes| && writes[i] == p && forall j :: i < j < |writes| ==> writes[j].generatedAt != p.generatedAt;
      assert init[i] == p && writes[|init|] == last;
      forall j | i < j < |init|
        ensures init[j].generatedAt != p.generatedAt
      {
        assert writes[j] == init[j];
      }
    }
  }

  /** The history is in time order and holds exactly the last write of every timestamp. */
  lemma {:induction false} HistoryIsLastWriteWins(writes: seq<Point>)
    ensures InTimeOrder(History(writes))
    ensures forall p :: p in History(writes) <==> LastWrite(writes, p)
  {
    if writes != [] {
      var init, last := writes[..|writes| - 1], writes[|writes| - 1];
      HistoryIsLastWriteWins(init);
      RecordOrdered(History(init), last);
      assert writes == init + [last];
      forall p
        ensures p in History(writes) <==> LastWrite(writes, p)
      {
        RecordMember(History(init), last, p);
        LastWriteSnoc(init, last, p);
      }
    }
  }

  // ---------------------------------------------------------------- the bounded history

  /** Filter, append and sort is the same as putting the point in its place. */
  lemma {:induction false} AppendedIsRecord(points: seq<Point>, p: Point)
    requires InTimeOrder(points)
    ensures Appended(points, p) == Record(points, p)
  {
    var others := Others(points, p.generatedAt);
    OthersOrdered(points, p.generatedAt);
    SortedStays(others);
    assert (others + [p])[..|others|] == others;
    InsertIsRecord(points, p);
  }

  lemma {:induction false} OthersOrdered(points: seq<Point>, at: string)
    requires InTimeOrder(points)
    ensures InTimeOrder(Others(points, at))
    ensures forall x :: x in Others(points, at) ==> x in points && x.generatedAt != at
  {
    if points != [] {
      var init, last := points[..|points| - 1], points[|points| - 1];
      OthersOrdered(init, at);
      assert points == init + [last];
      if last.generatedAt != at {
        forall x | x in Others(init, at)
          ensures Before(x, last)
        {
          OlderThanLast(points, x);
        }
        OrderSnoc(Others(init, at), last);
      }
    }
  }

  lemma {:induction false} SortedStays(points: seq<Point>)
    requires InTimeOrder(points)
    ensures Sort(points) == points
  {
    if points != [] {
      var init, last := points[..|points| - 1], points[|points| - 1];
      SortedStays(init);
      assert points == init + [last];
      if init != [] { assert Before(points[|init| - 1], points[|init|]); }
    }
  }

  lemma {:induction false} NoneAt(points: seq<Point>, at: string)
    requires forall x :: x in points ==> x.generatedAt != at
    ensures Others(points, at) == points
  {
    if points != [] {
      var init, last := points[..|points| - 1], points[|points| - 1];
      assert points == init + [last];
      NoneAt(init, at);
    }
  }

  lemma {:induction false} AllOlder(points: seq<Point>, p: Point)
    requires points != [] && InTimeOrder(points) && StrLe(points[|points| - 1].generatedAt, p.generatedAt)
    ensures forall x :: x in points[..|points| - 1] ==> x.generatedAt != p.generatedAt && StrLe(x.generatedAt, p.generatedAt)
  {
    var last := points[|points| - 1];
    forall x | x in points[..|points| - 1]
      ensures x.generatedAt != p.generatedAt && StrLe(x.generatedAt, p.generatedAt)
    {
      OlderThanLast(points, x);
      StrLeTransitive(x.generatedAt, last.generatedAt, p.generatedAt);
      if x.generatedAt == p.generatedAt { StrLeAntisymmetric(x.generatedAt, last.generatedAt); }
    }
  }

  lemma {:induction false} InsertIsRecord(points: seq<Point>, p: Point)
    requires InTimeOrder(points)
    ensures Insert(Others(points, p.generatedAt), p) == Record(points, p)
  {
    if points != [] {
      var init, last := points[..|points| - 1], points[|points| - 1];
      assert points == init + [last];
      if StrLe(last.generatedAt, p.generatedAt) {
        AllOlder(points, p);
        NoneAt(init, p.generatedAt);
        if init != [] { assert init[|init| - 1] in init; }
      } else {
        InsertIsRecord(init, p);
        assert last.generatedAt != p.generatedAt by { StrLeTotal(last.generatedAt, last.generatedAt); }
        InsertBefore(Others(init, p.generatedAt), last, p);
      }
    }
  }

  lemma {:induction false} InsertBefore(init: seq<Point>, last: Point, p: Point)
    requires !StrLe(last.generatedAt, p.generatedAt)
    ensures Insert(init + [last], p) == Insert(init, p) + [last]
  {
    assert (init + [last])[..|init|] == init;
  }

  /** The refinement step: cutting before an append loses nothing that cutting after it keeps. */
  lemma {:induction false} CutCommutes(points: seq<Point>, p: Point, limit: nat)
    ensures Newest(Record(Newest(points, limit), p), limit) == Newest(Record(points, p), limit)
  {
    if limit == 0 {
      NewestNone(Record(points, p));
      NewestNone(Record(Newest(points, 0), p));
    } else if |points| > limit {
      var init, last := points[..|points| - 1], points[|points| - 1];
      assert points == init + [last];
      NewestSnoc(init, last, limit);
      CutCommutes(init, p, limit - 1);
      CutLast(init, Newest(init, limit - 1), last, p, limit);
    }
  }

  lemma {:induction false} NewestNone(s: seq<Point>)
    ensures Newest(s, 0) == []
  {}

  lemma {:induction false} NewestSnoc(s: seq<Point>, x: Point, limit: nat)
    requires limit > 0
    ensures Newest(s + [x], limit) == Newest(s, limit - 1) + [x]
  {}

  lemma {:induction false} RecordSnoc(init: seq<Point>, last: Point, p: Point)
    ensures Record(init + [last], p) ==
            if last.generatedAt == p.generatedAt then init + [p]
            else if StrLe(last.generatedAt, p.generatedAt) then init + [last] + [p]
            else Record(init, p) + [last]
  {
    assert (init + [last])[..|init|] == init;
  }

  lemma {:induction false} CutThenAppend(s: seq<Point>, x: Point, limit: nat)
    ensures Newest(Newest(s, limit) + [x], limit) == Newest(s + [x], limit)
  {}

  /** The newest point stays last, or is overtaken, alike in the history and in its cut. */
  lemma {:induction false} CutLast(init: seq<Point>, cut: seq<Point>, last: Point, p: Point, limit: nat)
    requires limit > 0 && cut == Newest(init, limit - 1) && |init| >= limit
    requires Newest(Record(cut, p), limit - 1) == Newest(Record(init, p), limit - 1)
    ensures Newest(Record(cut + [last], p), limit) == Newest(Record(init + [last], p), limit)
  {
    RecordSnoc(init, last, p);
    RecordSnoc(cut, last, p);
    if last.generatedAt == p.generatedAt {
      NewestSnoc(init, p, limit);
      NewestSnoc(cut, p, limit);
    } else if StrLe(last.generatedAt, p.generatedAt) {
      NewestSnoc(init + [last], p, limit);
      NewestSnoc(cut + [last], p, limit);
      CutThenAppend(init, last, limit - 1);
    } else {
      NewestSnoc(Record(init, p), last, limit);
      NewestSnoc(Record(cut, p), last, limit);
    }
  }

  /** The stored points after a run of appends under one limit. */
  function Stored(writes: seq<Point>, limit: nat): seq<Point> {
    if writes == [] then [] else Newest(Appended(Stored(writes[..|writes| - 1], limit), writes[|writes| - 1]), limit)
  }

  lemma {:induction false} NewestOrdered(points: seq<Point>, limit: nat)
    requires InTimeOrder(points)
    ensures InTimeOrder(Newest(points, limit))
    ensures forall p :: p in Newest(points, limit) ==> p in points
  {}

  /** After any run of appends the stored points are the newest of the last-write-wins history. */
  lemma {:induction false} StoredIsNewestHistory(writes: seq<Point>, limit: nat)
    ensures Stored(writes, limit) == Newest(History(writes), limit)
  {
    if writes != [] {
      var init, last := writes[..|writes| - 1], writes[|writes| - 1];
      StoredIsNewestHistory(init, limit);
      HistoryIsLastWriteWins(init);
      NewestOrdered(History(init), limit);
      AppendedIsRecord(Stored(init, limit), last);
      CutCommutes(History(init), last, limit);
    }
  }

  // ---------------------------------------------------------------- the procedure

  predicate SourceOk(a: Artifact, limit: int) {
    1 <= limit <= 1000 && !a.complete && !a.gatingSupported && PointOk(a.point)
  }

  /** `validate_summary` */
  method ValidateSummary(s: Summary) returns (ok: bool)
    ensures ok <==> SummaryOk(s)
  {
    if s.functions.measured < 0 || s.functions.hit < 0 || s.functions.hit > s.functions.measured { return false; }
    if s.logicalLines.measured < 0 || s.logicalLines.hit < 0 || s.logicalLines.hit > s.logicalLines.measured {
      return false;
    }
    ok := s.blocks.measured >= 0 && s.blocks.hit >= 0 && s.blocks.hit <= s.blocks.measured;
  }

  method ValidatePoint(p: Point) returns (ok: bool)
    ensures ok <==> PointOk(p)
  {
    if p.generatedAt == "" || p.frameworkVersion == "" || p.qVersion == "" { return false; }
    ok := ValidateSummary(p.summary);
  }

  /** `append_point` */
  method AppendPoint(a: Artifact, existing: Option<Document>, limit: int) returns (r: Result<Document>)
    ensures r.Ok? <==> SourceOk(a, limit) && (existing.Some? ==> TrendOk(existing.value))
    ensures r.Ok? ==> TrendOk(r.value)
    ensures r.Ok? ==>
              var previous := if existing.Some? then existing.value.points else [];
              r.value.points == Newest(Record(previous, a.point), limit) && r.value.retentionLimit == limit
  {
    if !(1 <= limit <= 1000) {
      return Err("limit must be from 1 through 1000");
    }
    var identified := ValidatePoint(a.point);
    if a.complete || a.gatingSupported || !identified {
      return Err("source must be partial, non-gating and identified");
    }
    var points: seq<Point> := [];
    if existing.Some? {
      var ok := ValidateTrend(existing.value);
      if !ok { return Err("invalid trend"); }
      points := existing.value.points;
    }
    ghost var previous := points;
    AppendedIsRecord(previous, a.point);
    points := Others(points, a.point.generatedAt);
    points := points + [a.point];
    points := Sort(points);
    RecordOrdered(previous, a.point);
    NewestOrdered(points, limit);
    r := Ok(Document(1, "resq-self-coverage-trend", true, false, limit,
                     if |points| > limit then points[|points| - limit..] else points));
    RecordedOk(previous, a.point, r.value.points);
  }

  lemma {:induction false} RecordedOk(previous: seq<Point>, p: Point, points: seq<Point>)
    requires InTimeOrder(previous) && PointOk(p) && forall x :: x in previous ==> PointOk(x)
    requires forall x :: x in points ==> x in Record(previous, p)
    ensures forall x :: x in points ==> PointOk(x)
  {
    forall x | x in points
      ensures PointOk(x)
    {
      RecordMember(previous, p, x);
    }
  }

  function Timestamps(points: seq<Point>): seq<string> {
    seq(|points|, (i: nat) requires i < |points| => points[i].generatedAt)
  }

  /** A list equal to its sorted set is unique and sorted, and the other way round. */
  lemma {:induction false} UniqueAndSorted(points: seq<Point>)
    ensures Timestamps(points) == SortedNames(Elements(Timestamps(points))) <==> InTimeOrder(points)
  {
    var times := Timestamps(points);
    SortedNamesSorted(Elements(times));
    StrLeIsTotalOrder();
    if times == SortedNames(Elements(times)) {
      forall i, j | 0 <= i < j < |points|
        ensures Before(points[i], points[j])
      {
        assert StrLe(times[i], times[j]) && times[i] != times[j];
      }
    }
    if InTimeOrder(points) {
      forall i, j | 0 <= i < j < |times|
        ensures StrLe(times[i], times[j]) && times[i] != times[j]
      {
        assert Before(points[i], points[j]);
      }
      SortedUnique(times, SortedNames(Elements(times)), StrLe);
    }
  }

  /** `validate_trend` as a procedure: the timestamps are collected and compared with their sorted set. */
  method ValidateTrend(d: Document) returns (ok: bool)
    ensures ok <==> TrendOk(d)
  {
    if d.schemaVersion != 1 || d.kind != "resq-self-coverage-trend" || !d.experimental || d.gatingSupported {
      return false;
    }
    var timestamps: seq<string> := [];
    for i := 0 to |d.points|
      invariant forall p :: p in d.points[..i] ==> PointOk(p)
      invariant timestamps == Timestamps(d.points[..i])
    {
      TakeNext(d.points, i);
      assert d.points[i] in d.points;
      ok := ValidatePoint(d.points[i]);
      if !ok { return; }
      timestamps := timestamps + [d.points[i].generatedAt];
    }
    assert d.points[..|d.points|] == d.points;
    UniqueAndSorted(d.points);
    ok := timestamps == SortedNames(Elements(timestamps));
  }

  /** The trend file of one repository with one retention limit. */
  class TrendFile {
    const limit: nat
    var document: Option<Document>
    ghost var writes: seq<Point>

    /** What is stored is the newest part of everything ever written. */
    ghost predicate Valid()
      reads this
    {
      && 1 <= limit <= 1000
      && (document.None? <==> writes == [])
      && (document.Some? ==> TrendOk(document.value) && document.value.points == Newest(History(writes), limit))
    }

    constructor (limit: nat)
      requires 1 <= limit <= 1000
      ensures Valid() && this.limit == limit && writes == []
    {
      this.limit, document, writes := limit, None, [];
    }

    /** `update_file`: a refused source leaves the file as it was. */
    method Update(a: Artifact) returns (r: Result<()>)
      requires Valid()
      modifies this
      ensures Valid()
      ensures r.Ok? <==> SourceOk(a, limit)
      ensures r.Ok? ==> writes == old(writes) + [a.point]
      ensures r.Err? ==> writes == old(writes) && document == old(document)
    {
      var next := AppendPoint(a, document, limit);
      if next.Err? {
        return Err(next.error);
      }
      HistoryIsLastWriteWins(writes);
      CutCommutes(History(writes), a.point, limit);
      assert (writes + [a.point])[..|writes|] == writes;
      if document.None? { assert Newest(History(writes), limit) == []; }
      document := Some(next.value);
      writes := writes + [a.point];
      r := Ok(());
    }
  }
}
