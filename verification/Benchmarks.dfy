/** Global reclassification of benchmark comparisons after a shard merge. */
module Benchmarks {
  import opened Orders
  import opened Seqs
  import opened Text
  import opened Holm

  datatype Class = Improved | Stable | Inconclusive | Regressed

  datatype Comparison = Comparison(
    benchmarkId: string,
    baselineFound: bool,
    comparable: bool,
    environmentMatch: bool,
    pValue: real,
    adjustedPValue: real,
    alpha: real,
    practicalEffectPercent: real,
    relativeChangePercent: Option<real>,
    classification: Class)

  datatype Measurement = Measurement(benchmarkId: string, comparison: Option<Comparison>, metrics: string)

  /** What the report validator demands of a comparison record. */
  predicate ValidComparison(c: Comparison) {
    && 0.0 <= c.pValue <= c.adjustedPValue <= 1.0
    && 0.0 < c.alpha <= 1.0
    && (!c.comparable ==> c.classification == Inconclusive)
  }

  // ---------------------------------------------------------------- one owner per benchmark

  function Ids(ms: seq<Measurement>): seq<string> {
    seq(|ms|, (i: nat) requires i < |ms| => ms[i].benchmarkId)
  }

  function Rows(d: seq<Measurement>): seq<Measurement> { d }

  function All(docs: seq<seq<Measurement>>): seq<Measurement> {
    FlatMap(docs, Rows)
  }

  ghost predicate OwnedOnce(ms: seq<Measurement>) {
    (forall m :: m in ms ==> m.benchmarkId != "") && Distinct(Ids(ms))
  }

  ghost predicate Indexes(merged: map<string, Measurement>, ms: seq<Measurement>) {
    && (forall m :: m in ms ==> m.benchmarkId in merged && merged[m.benchmarkId] == m)
    && (forall k :: k in merged ==> merged[k] in ms && merged[k].benchmarkId == k)
  }

  function Listed(merged: map<string, Measurement>): (r: seq<Measurement>)
    ensures |r| == |SortedNames(merged.Keys)|
  {
    var keys := SortedNames(merged.Keys);
    seq(|keys|, (i: nat) requires i < |keys| => merged[keys[i]])
  }

  lemma {:induction false} ListedIsPermutation(merged: map<string, Measurement>, ms: seq<Measurement>)
    requires Indexes(merged, ms) && OwnedOnce(ms)
    ensures multiset(Listed(merged)) == multiset(ms)
    ensures SortedBy(Ids(Listed(merged)), StrLe)
  {
    var keys := SortedNames(merged.Keys);
    var r := Listed(merged);
    SortedNamesSorted(merged.Keys);
    assert forall i :: 0 <= i < |keys| ==> keys[i] in keys && r[i] == merged[keys[i]];
    assert Ids(r) == keys;
    ListedMembers(merged, ms);
    DistinctIds(r);
    DistinctIds(ms);
    DistinctSameElements(r, ms);
  }

  lemma {:induction false} ListedMembers(merged: map<string, Measurement>, ms: seq<Measurement>)
    requires Indexes(merged, ms)
    ensures forall m :: m in Listed(merged) <==> m in ms
  {
    var keys, r := SortedNames(merged.Keys), Listed(merged);
    forall m | m in ms
      ensures m in r
    {
      assert m.benchmarkId in keys;
      var i :| 0 <= i < |keys| && keys[i] == m.benchmarkId;
      assert r[i] == m;
    }
    forall m | m in r
      ensures m in ms
    {
      var i :| 0 <= i < |r| && r[i] == m;
      assert keys[i] in keys && merged[keys[i]] in ms;
    }
  }

  lemma {:induction false} DistinctIds(ms: seq<Measurement>)
    requires Distinct(Ids(ms))
    ensures Distinct(ms)
  {
    forall i, j | 0 <= i < j < |ms|
      ensures ms[i] != ms[j]
    {
      assert Ids(ms)[i] != Ids(ms)[j];
    }
  }

  method MergePerformance(docs: seq<seq<Measurement>>) returns (r: Result<seq<Measurement>>)
    ensures r.Ok? <==> OwnedOnce(All(docs))
    ensures r.Ok? ==> multiset(r.value) == multiset(All(docs)) && SortedBy(Ids(r.value), StrLe)
  {
    var merged: map<string, Measurement> := map[];
    ghost var seen: seq<Measurement> := [];
    for i := 0 to |docs|
      invariant seen == All(docs[..i])
      invariant Indexes(merged, seen) && OwnedOnce(seen)
    {
      for j := 0 to |docs[i]|
        invariant seen == All(docs[..i]) + docs[i][..j]
        invariant Indexes(merged, seen) && OwnedOnce(seen)
      {
        var row := docs[i][j];
        ghost var rest := FlatMapSplit(docs, Rows, i, j);
        assert All(docs) == seen + [row] + rest;
        if row.benchmarkId == "" {
          assert row in All(docs);
          return Err("benchmark result has no stable benchmarkId");
        }
        if row.benchmarkId in merged {
          RepeatedOwner(merged, seen, row, rest);
          return Err("benchmark result appears in more than one shard");
        }
        ExtendIndex(merged, seen, row);
        merged := merged[row.benchmarkId := row];
        seen := seen + [row];
        assert docs[i][..j + 1] == docs[i][..j] + [row];
      }
      assert docs[i][..|docs[i]|] == docs[i];
      FlatMapNext(docs, Rows, i);
    }
    assert docs[..|docs|] == docs;
    ListedIsPermutation(merged, seen);
    r := Ok(Listed(merged));
  }

  lemma {:induction false} ExtendIndex(merged: map<string, Measurement>, seen: seq<Measurement>, row: Measurement)
    requires Indexes(merged, seen) && OwnedOnce(seen)
    requires row.benchmarkId != "" && row.benchmarkId !in merged
    ensures Indexes(merged[row.benchmarkId := row], seen + [row]) && OwnedOnce(seen + [row])
  {
    var now := seen + [row];
    assert forall m :: m in now <==> m in seen || m == row;
    assert Distinct(Ids(now)) by {
      assert Ids(now) == Ids(seen) + [row.benchmarkId];
      forall i | 0 <= i < |seen|
        ensures Ids(seen)[i] != row.benchmarkId
      {
        assert seen[i] in seen;
      }
    }
  }

  lemma {:induction false} RepeatedOwner(merged: map<string, Measurement>, seen: seq<Measurement>, row: Measurement, rest: seq<Measurement>)
    requires Indexes(merged, seen) && row.benchmarkId in merged
    ensures !OwnedOnce(seen + [row] + rest)
  {
    var all := seen + [row] + rest;
    var k :| 0 <= k < |seen| && seen[k] == merged[row.benchmarkId];
    assert Ids(all)[k] == Ids(all)[|seen|];
  }

  // ---------------------------------------------------------------- reclassification

  function ComparableIndices(cs: seq<Comparison>): (r: seq<nat>)
    ensures forall k :: 0 <= k < |r| ==> r[k] < |cs| && cs[r[k]].comparable
    ensures forall k, l :: 0 <= k < l < |r| ==> r[k] < r[l]
  {
    if cs == [] then []
    else
      var last := |cs| - 1;
      var before := ComparableIndices(cs[..last]);
      if cs[last].comparable then before + [last] else before
  }

  /** Where the comparable record `i` stands in the family. */
  lemma {:induction false} FamilyPosition(cs: seq<Comparison>, i: nat) returns (k: nat)
    requires i < |cs| && cs[i].comparable
    ensures k < |ComparableIndices(cs)| && ComparableIndices(cs)[k] == i
  {
    var last := |cs| - 1;
    if i == last {
      k := |ComparableIndices(cs)| - 1;
    } else {
      k := FamilyPosition(cs[..last], i);
    }
  }

  function PValues(cs: seq<Comparison>): (r: seq<real>)
    ensures |r| == |ComparableIndices(cs)|
    ensures forall k :: 0 <= k < |r| ==> r[k] == cs[ComparableIndices(cs)[k]].pValue
  {
    var at := ComparableIndices(cs);
    seq(|at|, (k: nat) requires k < |at| => cs[at[k]].pValue)
  }

  function Abs(x: real): real { if x < 0.0 then -x else x }

  /** The verdict on a comparable benchmark at its adjusted p-value. */
  function ClassOf(c: Comparison, adjusted: real): Class {
    var significant := adjusted <= c.alpha;
    var practical := c.relativeChangePercent.Some?
                     && Abs(c.relativeChangePercent.value) >= c.practicalEffectPercent;
    if significant && practical && c.relativeChangePercent.value > 0.0 then Regressed
    else if significant && practical then Improved
    else Stable
  }

  /** A larger adjusted value can only withdraw a verdict. */
  lemma {:induction false} VerdictsWithdrawOnly(c: Comparison, lower: real, upper: real)
    requires lower <= upper
    ensures ClassOf(c, upper) == Regressed ==> ClassOf(c, lower) == Regressed
    ensures ClassOf(c, upper) == Improved ==> ClassOf(c, lower) == Improved
    ensures ClassOf(c, upper) != Inconclusive
  {}

  function Reclassify(c: Comparison, adjusted: real): Comparison {
    c.(adjustedPValue := adjusted, classification := ClassOf(c, adjusted))
  }

  /** `out` is `cs` with its comparable members, taken as one family, Holm-adjusted and reclassified. */
  ghost predicate IsReclassified(cs: seq<Comparison>, out: seq<Comparison>) {
    exists adjusted :: IsHolm(PValues(cs), adjusted) && Rewritten(cs, out, adjusted, |adjusted|)
  }

  /** The first `done` members of the family carry their new verdict; the rest is untouched. */
  ghost predicate Rewritten(cs: seq<Comparison>, out: seq<Comparison>, adjusted: seq<real>, done: nat)
    requires |adjusted| == |PValues(cs)| && done <= |adjusted|
  {
    var at := ComparableIndices(cs);
    && |out| == |cs|
    && (forall k :: 0 <= k < done ==> out[at[k]] == Reclassify(cs[at[k]], adjusted[k]))
    && (forall i :: 0 <= i < |cs| && (forall k :: 0 <= k < done ==> at[k] != i) ==> out[i] == cs[i])
  }

  method ReclassifyAll(cs: seq<Comparison>) returns (out: seq<Comparison>)
    requires forall c :: c in cs ==> ValidComparison(c)
    ensures IsReclassified(cs, out)
  {
    out := cs;
    var comparable, pValues := CollectComparable(cs);
    assert forall k :: 0 <= k < |comparable| ==> cs[comparable[k]] in cs;
    var adjusted := HolmAdjust(pValues);
    for position := 0 to |comparable|
      invariant Rewritten(cs, out, adjusted, position)
    {
      var index := comparable[position];
      RewriteStep(cs, out, adjusted, position);
      var c := Judge(out[index], adjusted[position]);
      out := out[index := c];
    }
  }

  /** The indices of the comparable records and their p-values. */
  method CollectComparable(cs: seq<Comparison>) returns (comparable: seq<nat>, pValues: seq<real>)
    ensures comparable == ComparableIndices(cs) && pValues == PValues(cs)
  {
    comparable, pValues := [], [];
    for i := 0 to |cs|
      invariant comparable == ComparableIndices(cs[..i])
      invariant |pValues| == |comparable| && forall k :: 0 <= k < |comparable| ==> pValues[k] == cs[comparable[k]].pValue
    {
      assert cs[..i + 1][..i] == cs[..i];
      if cs[i].comparable {
        comparable := comparable + [i];
        pValues := pValues + [cs[i].pValue];
      }
    }
    assert cs[..|cs|] == cs;
  }

  /** The new verdict of one record. */
  method Judge(c: Comparison, adjusted: real) returns (r: Comparison)
    ensures r == Reclassify(c, adjusted)
  {
    var significant := adjusted <= c.alpha;
    var effect, practical := 0.0, false;
    if c.relativeChangePercent.Some? {
      effect := c.relativeChangePercent.value;
      practical := effect >= c.practicalEffectPercent || -effect >= c.practicalEffectPercent;
    }
    var verdict := Stable;
    if significant && practical {
      verdict := if effect > 0.0 then Regressed else Improved;
    }
    r := c.(adjustedPValue := adjusted, classification := verdict);
  }

  /** The benchmark became slower by at least the practical effect. */
  predicate MovedUp(c: Comparison) {
    var change := c.relativeChangePercent;
    change.Some? && change.value > 0.0 && change.value >= c.practicalEffectPercent
  }

  /** It did not become slower and changed by at least the practical effect. */
  predicate MovedDown(c: Comparison) {
    var change := c.relativeChangePercent;
    change.Some? && change.value <= 0.0 && -change.value >= c.practicalEffectPercent
  }

  /** What a verdict at that adjusted p-value means. */
  predicate VerdictMeans(c: Comparison, adjusted: real, verdict: Class) {
    && (verdict == Regressed <==> adjusted <= c.alpha && MovedUp(c))
    && (verdict == Improved <==> adjusted <= c.alpha && MovedDown(c))
    && verdict != Inconclusive
  }

  lemma {:induction false} ReclassifyMeans(c: Comparison, adjusted: real)
    ensures VerdictMeans(c, adjusted, Reclassify(c, adjusted).classification)
    ensures var r := Reclassify(c, adjusted);
            r.adjustedPValue == adjusted && r == c.(adjustedPValue := adjusted, classification := r.classification)
  {}

  /** A comparable record regressed exactly when its Holm-adjusted p-value is at most alpha and it moved up,
      and improved exactly when it moved down; nothing else of it changes, and nothing of the others. */
  lemma {:induction false} VerdictsMean(cs: seq<Comparison>, out: seq<Comparison>, i: nat)
    requires (forall c :: c in cs ==> ValidComparison(c)) && IsReclassified(cs, out) && i < |cs|
    ensures |out| == |cs| && (!cs[i].comparable ==> out[i] == cs[i])
    ensures cs[i].comparable ==> VerdictMeans(cs[i], out[i].adjustedPValue, out[i].classification)
    ensures cs[i].comparable ==>
              out[i] == cs[i].(adjustedPValue := out[i].adjustedPValue, classification := out[i].classification)
  {
    var adjusted :| IsHolm(PValues(cs), adjusted) && Rewritten(cs, out, adjusted, |adjusted|);
    assert cs[i] in cs;
    var k := ReclassifiedAt(cs, out, adjusted, i);
    if cs[i].comparable { ReclassifyMeans(cs[i], adjusted[k]); }
  }

  lemma {:induction false} RewriteStep(cs: seq<Comparison>, out: seq<Comparison>, adjusted: seq<real>, done: nat)
    requires |adjusted| == |PValues(cs)| && done < |adjusted|
    requires Rewritten(cs, out, adjusted, done)
    ensures var index := ComparableIndices(cs)[done];
            Rewritten(cs, out[index := Reclassify(out[index], adjusted[done])], adjusted, done + 1)
  {
    var at := ComparableIndices(cs);
    var index := at[done];
    assert forall k :: 0 <= k < done ==> at[k] != index;
    assert out[index] == cs[index];
  }

  function IsClass(class_: Class): Comparison -> bool { (c: Comparison) => c.classification == class_ }

  function IsComparable(c: Comparison): bool { c.comparable }

  function IsBaselineFound(c: Comparison): bool { c.baselineFound }

  function IsMismatch(c: Comparison): bool { c.baselineFound && !c.environmentMatch }

  /** After reclassification a comparison is inconclusive exactly when it is not comparable,
      and every record still satisfies the validator. */
  lemma {:induction false} ReclassifiedIsValid(cs: seq<Comparison>, out: seq<Comparison>, i: nat)
    requires (forall c :: c in cs ==> ValidComparison(c)) && IsReclassified(cs, out) && i < |cs|
    ensures |out| == |cs| && out[i].comparable == cs[i].comparable
    ensures ValidComparison(out[i])
    ensures out[i].classification == Inconclusive <==> !cs[i].comparable
  {
    var adjusted :| IsHolm(PValues(cs), adjusted) && Rewritten(cs, out, adjusted, |adjusted|);
    assert cs[i] in cs;
    var k := ReclassifiedAt(cs, out, adjusted, i);
  }

  /** The record at `i`: reclassified at its place in the family, or untouched. */
  lemma {:induction false} ReclassifiedAt(cs: seq<Comparison>, out: seq<Comparison>, adjusted: seq<real>, i: nat) returns (k: nat)
    requires IsHolm(PValues(cs), adjusted) && Rewritten(cs, out, adjusted, |adjusted|) && i < |cs|
    requires ValidComparison(cs[i])
    ensures |out| == |cs|
    ensures !cs[i].comparable ==> out[i] == cs[i]
    ensures cs[i].comparable ==> k < |adjusted| && ComparableIndices(cs)[k] == i
    ensures cs[i].comparable ==> out[i] == Reclassify(cs[i], adjusted[k]) && cs[i].pValue <= adjusted[k] <= 1.0
  {
    k := 0;
    if cs[i].comparable {
      k := FamilyPosition(cs, i);
      assert PValues(cs)[k] == cs[i].pValue;
      AdjustedAboveRaw(PValues(cs), adjusted, k);
      AdjustedAtMostOne(PValues(cs), adjusted, k);
    }
  }

  lemma {:induction false} CountsPartition(out: seq<Comparison>)
    requires forall c :: c in out ==> (c.classification == Inconclusive <==> !c.comparable)
    ensures Count(out, IsClass(Improved)) + Count(out, IsClass(Stable)) + Count(out, IsClass(Regressed)) == Count(out, IsComparable)
    ensures Count(out, IsClass(Inconclusive)) == |out| - Count(out, IsComparable)
  {
    if out != [] {
      assert out[0] in out;
      CountsPartition(out[1..]);
    }
  }

  /** The verdict counts of a merged analysis partition the comparisons. */
  lemma {:induction false} MergedCountsAddUp(cs: seq<Comparison>, out: seq<Comparison>)
    requires (forall c :: c in cs ==> ValidComparison(c)) && IsReclassified(cs, out)
    ensures |out| == |cs| && Count(out, IsComparable) == |ComparableIndices(cs)|
    ensures Count(out, IsClass(Improved)) + Count(out, IsClass(Stable)) + Count(out, IsClass(Regressed)) == |ComparableIndices(cs)|
    ensures Count(out, IsClass(Inconclusive)) == |cs| - |ComparableIndices(cs)|
  {
    var adjusted :| IsHolm(PValues(cs), adjusted) && Rewritten(cs, out, adjusted, |adjusted|);
    forall c | c in out
      ensures c.classification == Inconclusive <==> !c.comparable
    {
      var i: nat :| i < |out| && out[i] == c;
      ReclassifiedIsValid(cs, out, i);
    }
    CountsPartition(out);
    forall i: nat | i < |cs|
      ensures out[i].comparable == cs[i].comparable
    {
      ReclassifiedIsValid(cs, out, i);
    }
    ComparableCount(cs, out);
  }

  lemma {:induction false} ComparableCount(cs: seq<Comparison>, out: seq<Comparison>)
    requires |out| == |cs| && forall i :: 0 <= i < |cs| ==> out[i].comparable == cs[i].comparable
    ensures Count(out, IsComparable) == |ComparableIndices(cs)|
  {
    if cs != [] {
      var last := |cs| - 1;
      ComparableCount(cs[..last], out[..last]);
      CountSnoc(out[..last], out[last]);
      assert out == out[..last] + [out[last]];
    }
  }

  lemma {:induction false} CountSnoc(cs: seq<Comparison>, c: Comparison)
    ensures Count(cs + [c], IsComparable) == Count(cs, IsComparable) + if c.comparable then 1 else 0
  {
    CountAppend(cs, [c], IsComparable);
    assert [c][1..] == [];
  }

  // ---------------------------------------------------------------- larger families

  /** The comparable members of `a` find their places among the comparable members of `b`. */
  lemma {:induction false} FamilyEmbeds(g: seq<nat>, a: seq<Comparison>, b: seq<Comparison>) returns (f: seq<nat>)
    requires Places(g, a, b)
    ensures Embeds(PValues(a), PValues(b), f)
    ensures forall k :: 0 <= k < |f| ==>
              f[k] < |ComparableIndices(b)| && ComparableIndices(b)[f[k]] == g[ComparableIndices(a)[k]]
  {
    var at, bt := ComparableIndices(a), ComparableIndices(b);
    f := [];
    while |f| < |at|
      invariant |f| <= |at|
      invariant forall k :: 0 <= k < |f| ==> f[k] < |bt| && bt[f[k]] == g[at[k]]
    {
      var k := FamilyPosition(b, g[at[|f|]]);
      f := f + [k];
    }
    forall k, l | 0 <= k < l < |f|
      ensures f[k] != f[l]
    {
      assert g[at[k]] != g[at[l]];
    }
  }

  /** Growing the comparison family never creates a significant verdict: whatever the merged
      analysis calls regressed or improved, the smaller family called so too. */
  lemma {:induction false} LargerFamilyCreatesNoVerdict(a: seq<Comparison>, b: seq<Comparison>, g: seq<nat>,
                                     outA: seq<Comparison>, outB: seq<Comparison>, i: nat)
    requires (forall c :: c in a ==> ValidComparison(c)) && (forall c :: c in b ==> ValidComparison(c))
    requires IsReclassified(a, outA) && IsReclassified(b, outB)
    requires Places(g, a, b) && i < |a|
    ensures |outA| == |a| && |outB| == |b|
    ensures outA[i].adjustedPValue <= outB[g[i]].adjustedPValue || !a[i].comparable
    ensures outB[g[i]].classification == Regressed ==> outA[i].classification == Regressed
    ensures outB[g[i]].classification == Improved ==> outA[i].classification == Improved
  {
    var adjA :| IsHolm(PValues(a), adjA) && Rewritten(a, outA, adjA, |adjA|);
    var adjB :| IsHolm(PValues(b), adjB) && Rewritten(b, outB, adjB, |adjB|);
    assert a[i] in a && b[g[i]] in b;
    var k := ReclassifiedAt(a, outA, adjA, i);
    var l := ReclassifiedAt(b, outB, adjB, g[i]);
    if a[i].comparable {
      var f := FamilyEmbeds(g, a, b);
      LargerFamilyAdjustsMore(PValues(a), PValues(b), f, adjA, adjB, k);
      assert f[k] == l;
      VerdictsWithdrawOnly(a[i], adjA[k], adjB[l]);
    }
  }

  /** Equal evidence gets an equal verdict, wherever it stands in the list. */
  lemma {:induction false} EqualEvidenceEqualVerdict(cs: seq<Comparison>, out: seq<Comparison>, i: nat, j: nat)
    requires (forall c :: c in cs ==> ValidComparison(c)) && IsReclassified(cs, out)
    requires i < |cs| && j < |cs| && cs[i] == cs[j]
    ensures |out| == |cs| && out[i] == out[j]
  {
    var adjusted :| IsHolm(PValues(cs), adjusted) && Rewritten(cs, out, adjusted, |adjusted|);
    assert cs[i] in cs && cs[j] in cs;
    var k := ReclassifiedAt(cs, out, adjusted, i);
    var l := ReclassifiedAt(cs, out, adjusted, j);
    if cs[i].comparable {
      assert PValues(cs)[k] == PValues(cs)[l];
      AdjustmentKeepsOrder(PValues(cs), adjusted, k, l);
    }
  }

  // ---------------------------------------------------------------- the merged analysis

  function ComparisonOf(m: Measurement): seq<Comparison> {
    if m.comparison.Some? then [m.comparison.value] else []
  }

  /** `[row["comparison"] for row in performance if row.get("comparison")]`. */
  function Comparisons(performance: seq<Measurement>): seq<Comparison> {
    FlatMap(performance, ComparisonOf)
  }

  ghost predicate ValidPerformance(ms: seq<Measurement>) {
    forall c :: c in Comparisons(ms) ==> ValidComparison(c)
  }

  lemma {:induction false} ComparisonsOfAll(docs: seq<seq<Measurement>>)
    ensures Comparisons(All(docs)) == FlatMap(docs, Comparisons)
  {
    if docs != [] {
      ComparisonsOfAll(docs[1..]);
      FlatMapAppend(docs[0], All(docs[1..]), ComparisonOf);
    }
  }

  /** Every verdict of the merged analysis was already the verdict of the shard that measured
      the benchmark: pooling shards never turns a stable benchmark into a regression. */
  lemma {:induction false} MergedVerdictsAreShardVerdicts(docs: seq<seq<Measurement>>, merged: seq<Measurement>,
                                       outs: seq<seq<Comparison>>, out: seq<Comparison>, j: nat)
    requires multiset(merged) == multiset(All(docs)) && ValidPerformance(merged)
    requires |outs| == |docs| && forall s :: 0 <= s < |docs| ==> IsReclassified(Comparisons(docs[s]), outs[s])
    requires IsReclassified(Comparisons(merged), out) && j < |Comparisons(merged)|
    ensures |out| == |Comparisons(merged)|
    ensures exists s, i :: 0 <= s < |docs| && 0 <= i < |Comparisons(docs[s])| == |outs[s]|
                           && Comparisons(docs[s])[i] == Comparisons(merged)[j]
                           && (out[j].classification == Regressed ==> outs[s][i].classification == Regressed)
                           && (out[j].classification == Improved ==> outs[s][i].classification == Improved)
  {
    var b := Comparisons(merged);
    ComparisonsOfAll(docs);
    FlatMapPermutation(merged, All(docs), ComparisonOf);
    assert b[j] in multiset(FlatMap(docs, Comparisons));
    FlatMapMember(docs, Comparisons, b[j]);
    var d :| d in docs && b[j] in Comparisons(d);
    var s: nat :| s < |docs| && docs[s] == d;
    var i: nat :| i < |Comparisons(d)| && Comparisons(d)[i] == b[j];
    ShardVerdict(docs, merged, s, i, j, outs[s], out);
  }

  lemma {:induction false} ShardVerdict(docs: seq<seq<Measurement>>, merged: seq<Measurement>, s: nat, i: nat, j: nat,
                     outS: seq<Comparison>, out: seq<Comparison>)
    requires multiset(merged) == multiset(All(docs)) && ValidPerformance(merged) && s < |docs|
    requires IsReclassified(Comparisons(docs[s]), outS) && IsReclassified(Comparisons(merged), out)
    requires i < |Comparisons(docs[s])| && j < |Comparisons(merged)|
    requires Comparisons(docs[s])[i] == Comparisons(merged)[j]
    ensures |out| == |Comparisons(merged)| && |outS| == |Comparisons(docs[s])|
    ensures out[j].classification == Regressed ==> outS[i].classification == Regressed
    ensures out[j].classification == Improved ==> outS[i].classification == Improved
  {
    var a, b := Comparisons(docs[s]), Comparisons(merged);
    ShardInsideMerge(docs, merged, s);
    SubMultisetMembers(a, b);
    var g := EmbedFromMultiset(a, b);
    LargerFamilyCreatesNoVerdict(a, b, g, outS, out, i);
    EqualEvidenceEqualVerdict(b, out, g[i], j);
  }

  lemma {:induction false} ShardInsideMerge(docs: seq<seq<Measurement>>, merged: seq<Measurement>, s: nat)
    requires multiset(merged) == multiset(All(docs)) && s < |docs|
    ensures multiset(Comparisons(docs[s])) <= multiset(Comparisons(merged))
  {
    ComparisonsOfAll(docs);
    FlatMapPermutation(merged, All(docs), ComparisonOf);
    FlatMapWithout(docs, s, Comparisons);
  }

  lemma {:induction false} SubMultisetMembers<T>(a: seq<T>, b: seq<T>)
    requires multiset(a) <= multiset(b)
    ensures forall x :: x in a ==> x in b
  {
    forall x | x in a
      ensures x in b
    {
      assert x in multiset(a);
      assert x in multiset(b);
    }
  }

  datatype Counts = Counts(total: nat, baselineFound: nat, comparable: nat, improved: nat, stable: nat,
                           inconclusive: nat, regressed: nat, environmentMismatches: nat)

  /** A shard's analysis apart from its comparisons. */
  datatype Header = Header(enabled: bool, environment: string, baselinePath: string, baselineStatus: string,
                           procedure: string, config: string, gateEnabled: bool, counts: Counts)

  datatype Analysis = Analysis(enabled: bool, counts: Counts, comparisons: seq<Comparison>,
                               gateEnabled: bool, passed: bool, reasons: seq<string>)

  predicate SameSettings(a: Header, b: Header) {
    && a.baselinePath == b.baselinePath && a.baselineStatus == b.baselineStatus
    && a.procedure == b.procedure && a.config == b.config && a.gateEnabled == b.gateEnabled
  }

  predicate AnyEnabled(hs: seq<Header>) {
    exists i :: 0 <= i < |hs| && hs[i].enabled
  }

  predicate Mergeable(hs: seq<Header>)
    requires hs != []
  {
    && (forall i :: 0 <= i < |hs| ==> hs[i].environment == hs[0].environment)
    && (AnyEnabled(hs) ==> forall i :: 0 <= i < |hs| ==> SameSettings(hs[i], hs[0]))
  }

  // ---------------------------------------------------------------- comparisons written back

  /** `{item["benchmarkId"]: item for item in comparisons}`. */
  function ById(cs: seq<Comparison>): map<string, Comparison> {
    if cs == [] then map[] else ById(cs[..|cs| - 1])[cs[|cs| - 1].benchmarkId := cs[|cs| - 1]]
  }

  /** The comparison of its identity is copied into a record; a record without one stays. */
  function WithComparison(m: Measurement, byId: map<string, Comparison>): Measurement {
    if m.benchmarkId in byId then m.(comparison := Some(byId[m.benchmarkId])) else m
  }

  ghost predicate WrittenBack(rows: seq<Measurement>, written: seq<Measurement>, out: seq<Comparison>) {
    |written| == |rows| && forall i :: 0 <= i < |rows| ==> written[i] == WithComparison(rows[i], ById(out))
  }

  /** The same for result rows, of which some carry benchmark telemetry. */
  ghost predicate ResultsWrittenBack(rows: seq<Option<Measurement>>, written: seq<Option<Measurement>>, out: seq<Comparison>) {
    && |written| == |rows|
    && forall i :: 0 <= i < |rows| ==>
         written[i] == if rows[i].Some? then Some(WithComparison(rows[i].value, ById(out))) else None
  }

  method WriteBack(rows: seq<Measurement>, out: seq<Comparison>) returns (written: seq<Measurement>)
    ensures WrittenBack(rows, written, out)
  {
    var byId := IndexComparisons(out);
    written := rows;
    for i := 0 to |rows|
      invariant |written| == |rows|
      invariant forall j :: 0 <= j < i ==> written[j] == WithComparison(rows[j], byId)
      invariant forall j :: i <= j < |rows| ==> written[j] == rows[j]
    {
      if written[i].benchmarkId in byId {
        written := written[i := written[i].(comparison := Some(byId[written[i].benchmarkId]))];
      }
    }
  }

  method WriteResults(rows: seq<Option<Measurement>>, out: seq<Comparison>) returns (written: seq<Option<Measurement>>)
    ensures ResultsWrittenBack(rows, written, out)
  {
    var byId := IndexComparisons(out);
    written := rows;
    for i := 0 to |rows|
      invariant |written| == |rows|
      invariant forall j :: 0 <= j < i ==>
                  written[j] == if rows[j].Some? then Some(WithComparison(rows[j].value, byId)) else None
      invariant forall j :: i <= j < |rows| ==> written[j] == rows[j]
    {
      if written[i].Some? && written[i].value.benchmarkId in byId {
        written := written[i := Some(written[i].value.(comparison := Some(byId[written[i].value.benchmarkId])))];
      }
    }
  }

  method IndexComparisons(cs: seq<Comparison>) returns (byId: map<string, Comparison>)
    ensures byId == ById(cs)
  {
    byId := map[];
    for i := 0 to |cs|
      invariant byId == ById(cs[..i])
    {
      assert cs[..i + 1][..i] == cs[..i];
      byId := byId[cs[i].benchmarkId := cs[i]];
    }
    assert cs[..|cs|] == cs;
  }

  /** A record's comparison is about that record. */
  predicate NamesItsRow(m: Measurement) {
    m.comparison.Some? ==> m.comparison.value.benchmarkId == m.benchmarkId
  }

  lemma {:induction false} ComparisonIds(ms: seq<Measurement>, c: Comparison)
    requires (forall m :: m in ms ==> NamesItsRow(m)) && c in Comparisons(ms)
    ensures exists m :: m in ms && m.benchmarkId == c.benchmarkId && m.comparison.Some?
  {
    FlatMapMember(ms, ComparisonOf, c);
    var m :| m in ms && c in ComparisonOf(m);
    assert NamesItsRow(m);
  }

  lemma {:induction false} Reidentified(cs: seq<Comparison>, out: seq<Comparison>)
    requires (forall c :: c in cs ==> ValidComparison(c)) && IsReclassified(cs, out)
    ensures |out| == |cs| && forall i :: 0 <= i < |cs| ==> out[i].benchmarkId == cs[i].benchmarkId
  {
    var adjusted :| IsHolm(PValues(cs), adjusted) && Rewritten(cs, out, adjusted, |adjusted|);
    forall i: nat | i < |cs|
      ensures out[i].benchmarkId == cs[i].benchmarkId
    {
      assert cs[i] in cs;
      var k := ReclassifiedAt(cs, out, adjusted, i);
    }
  }

  lemma {:induction false} ByIdAt(cs: seq<Comparison>, id: string)
    ensures id in ById(cs) <==> exists c :: c in cs && c.benchmarkId == id
    ensures id in ById(cs) ==> ById(cs)[id] in cs && ById(cs)[id].benchmarkId == id
  {
    if cs != [] {
      var init, last := cs[..|cs| - 1], cs[|cs| - 1];
      assert cs == init + [last];
      ByIdAt(init, id);
      if last.benchmarkId == id { assert last in cs; }
    }
  }

  /** The comparisons listed in the analysis are exactly those the merged rows carry, in their order. */
  lemma {:induction false} RowsCarryAnalysis(rows: seq<Measurement>, out: seq<Comparison>, written: seq<Measurement>)
    requires OwnedOnce(rows) && ValidPerformance(rows) && forall m :: m in rows ==> NamesItsRow(m)
    requires IsReclassified(Comparisons(rows), out) && WrittenBack(rows, written, out)
    ensures Comparisons(written) == out && Ids(written) == Ids(rows)
  {
    Reidentified(Comparisons(rows), out);
    WrittenPrefix(rows, out, written, |rows|);
    assert rows[..|rows|] == rows && written[..|rows|] == written;
  }

  /** The comparisons of the first `n` rows stand first in the analysis. */
  lemma {:induction false} WrittenPrefix(rows: seq<Measurement>, out: seq<Comparison>, written: seq<Measurement>, n: nat)
    requires OwnedOnce(rows) && (forall m :: m in rows ==> NamesItsRow(m)) && WrittenBack(rows, written, out)
    requires |out| == |Comparisons(rows)|
    requires forall i :: 0 <= i < |out| ==> out[i].benchmarkId == Comparisons(rows)[i].benchmarkId
    requires n <= |rows|
    ensures |Comparisons(rows[..n])| <= |out|
    ensures Comparisons(written[..n]) == out[..|Comparisons(rows[..n])|]
  {
    if n > 0 {
      WrittenPrefix(rows, out, written, n - 1);
      FlatMapNext(rows, ComparisonOf, n - 1);
      FlatMapNext(written, ComparisonOf, n - 1);
      var at := |Comparisons(rows[..n - 1])|;
      WrittenRow(rows, out, n - 1, at);
      PrefixGrows(out, at, at + |ComparisonOf(rows[n - 1])|);
    } else {
      assert written[..0] == [] && rows[..0] == [];
    }
  }

  lemma {:induction false} PrefixGrows<T>(s: seq<T>, i: nat, j: nat)
    requires i <= j <= |s|
    ensures s[..i] + s[i..j] == s[..j]
  {}

  lemma {:induction false} WrittenRow(rows: seq<Measurement>, out: seq<Comparison>, i: nat, at: nat)
    requires OwnedOnce(rows) && (forall m :: m in rows ==> NamesItsRow(m)) && i < |rows|
    requires |out| == |Comparisons(rows)|
    requires forall k :: 0 <= k < |out| ==> out[k].benchmarkId == Comparisons(rows)[k].benchmarkId
    requires at == |Comparisons(rows[..i])|
    ensures at + |ComparisonOf(rows[i])| <= |out|
    ensures ComparisonOf(WithComparison(rows[i], ById(out))) == out[at..at + |ComparisonOf(rows[i])|]
  {
    RowSpan(rows, i);
    if rows[i].comparison.Some? {
      ComparedRow(rows, out, i, at);
    } else {
      UncomparedRow(rows, out, i);
    }
  }

  /** Where the comparison of row `i`, if it has one, stands in the list. */
  lemma {:induction false} RowSpan(rows: seq<Measurement>, i: nat)
    requires i < |rows|
    ensures var at := |Comparisons(rows[..i])|;
            && at + |ComparisonOf(rows[i])| <= |Comparisons(rows)|
            && (rows[i].comparison.Some? ==> Comparisons(rows)[at] == rows[i].comparison.value)
  {
    var before, after := rows[..i] + [rows[i]], rows[i + 1..];
    assert rows == before + after;
    FlatMapAppend(before, after, ComparisonOf);
    FlatMapSnoc(rows[..i], rows[i], ComparisonOf);
  }

  lemma {:induction false} ComparedRow(rows: seq<Measurement>, out: seq<Comparison>, i: nat, at: nat)
    requires OwnedOnce(rows) && (forall m :: m in rows ==> NamesItsRow(m)) && i < |rows| && rows[i].comparison.Some?
    requires |out| == |Comparisons(rows)|
    requires forall k :: 0 <= k < |out| ==> out[k].benchmarkId == Comparisons(rows)[k].benchmarkId
    requires at == |Comparisons(rows[..i])| && at < |out| && Comparisons(rows)[at] == rows[i].comparison.value
    ensures WithComparison(rows[i], ById(out)).comparison == Some(out[at])
  {
    assert rows[i] in rows && NamesItsRow(rows[i]);
    assert out[at] in out && out[at].benchmarkId == rows[i].benchmarkId;
    ByIdAt(out, rows[i].benchmarkId);
    OnlyComparison(rows, out, i, at, ById(out)[rows[i].benchmarkId]);
  }

  lemma {:induction false} UncomparedRow(rows: seq<Measurement>, out: seq<Comparison>, i: nat)
    requires OwnedOnce(rows) && (forall m :: m in rows ==> NamesItsRow(m)) && i < |rows| && rows[i].comparison.None?
    requires |out| == |Comparisons(rows)|
    requires forall k :: 0 <= k < |out| ==> out[k].benchmarkId == Comparisons(rows)[k].benchmarkId
    ensures WithComparison(rows[i], ById(out)) == rows[i]
  {
    var id := rows[i].benchmarkId;
    ByIdAt(out, id);
    if c :| c in out && c.benchmarkId == id {
      var k :| 0 <= k < |out| && out[k] == c;
      assert Comparisons(rows)[k] in Comparisons(rows);
      ComparisonIds(rows, Comparisons(rows)[k]);
      var other :| other in rows && other.benchmarkId == id && other.comparison.Some?;
      assert rows[i] in rows;
      SameRow(rows, other, rows[i]);
    }
  }

  lemma {:induction false} SameRow(rows: seq<Measurement>, a: Measurement, b: Measurement)
    requires OwnedOnce(rows) && a in rows && b in rows && a.benchmarkId == b.benchmarkId
    ensures a == b
  {
    var i :| 0 <= i < |rows| && rows[i] == a;
    var j :| 0 <= j < |rows| && rows[j] == b;
    assert Ids(rows)[i] == a.benchmarkId && Ids(rows)[j] == b.benchmarkId;
  }

  /** One identity has one comparison. */
  lemma {:induction false} OnlyComparison(rows: seq<Measurement>, out: seq<Comparison>, i: nat, at: nat, c: Comparison)
    requires OwnedOnce(rows) && (forall m :: m in rows ==> NamesItsRow(m)) && i < |rows| && rows[i].comparison.Some?
    requires |out| == |Comparisons(rows)| && at == |Comparisons(rows[..i])| && at < |out|
    requires forall k :: 0 <= k < |out| ==> out[k].benchmarkId == Comparisons(rows)[k].benchmarkId
    requires c in out && c.benchmarkId == rows[i].benchmarkId
    ensures c == out[at]
  {
    var k: nat :| k < |out| && out[k] == c;
    var j := RowOfComparison(rows, k);
    assert rows[j] in rows && rows[i] in rows;
    assert NamesItsRow(rows[j]);
    assert Ids(rows)[j] == rows[j].benchmarkId && Ids(rows)[i] == rows[i].benchmarkId;
  }

  /** The row that the comparison at `k` comes from. */
  lemma {:induction false} RowOfComparison(rows: seq<Measurement>, k: nat) returns (j: nat)
    requires k < |Comparisons(rows)|
    ensures j < |rows| && rows[j].comparison.Some? && rows[j].comparison.value == Comparisons(rows)[k]
    ensures |Comparisons(rows[..j])| == k
  {
    var last := |rows| - 1;
    assert rows == rows[..last] + [rows[last]];
    FlatMapSnoc(rows[..last], rows[last], ComparisonOf);
    if k < |Comparisons(rows[..last])| {
      j := RowOfComparison(rows[..last], k);
      assert rows[..last][..j] == rows[..j];
    } else {
      j := last;
    }
  }

  /** What the counts of an enabled analysis count. */
  ghost predicate Tallied(counts: Counts, out: seq<Comparison>) {
    && counts.total == |out|
    && counts.baselineFound == Count(out, IsBaselineFound)
    && counts.comparable == Count(out, IsComparable)
    && counts.improved == Count(out, IsClass(Improved)) && counts.stable == Count(out, IsClass(Stable))
    && counts.inconclusive == Count(out, IsClass(Inconclusive)) && counts.regressed == Count(out, IsClass(Regressed))
    && counts.environmentMismatches == Count(out, IsMismatch)
  }

  /** The reason that an enabled gate gives for each defect. */
  predicate Blamed(first: Header, out: seq<Comparison>, x: string) {
    first.gateEnabled &&
    (|| (x == "baseline-" + first.baselineStatus && first.baselineStatus != "ok")
     || (x == "no-benchmarks-executed" && out == [])
     || (x == "benchmark-missing-from-baseline" && exists c :: c in out && !c.baselineFound)
     || (x == "statistically-significant-practical-regression" && exists c :: c in out && c.classification == Regressed))
  }

  method MergeBenchmarkAnalysis(hs: seq<Header>, performance: seq<Measurement>, results: seq<Option<Measurement>>)
    returns (r: Result<Analysis>, rows: seq<Measurement>, written: seq<Option<Measurement>>)
    requires hs != [] && ValidPerformance(performance)
    ensures r.Ok? <==> Mergeable(hs)
    ensures r.Ok? ==> r.value.enabled == AnyEnabled(hs) && r.value.gateEnabled == hs[0].gateEnabled
    ensures r.Err? || !r.value.enabled ==> rows == performance && written == results
    ensures r.Ok? && !r.value.enabled ==>
              && r.value.comparisons == [] && r.value.passed && r.value.reasons == []
              && r.value.counts == hs[0].counts.(total := |performance|)
    ensures r.Ok? && r.value.enabled ==>
              var out := r.value.comparisons;
              && IsReclassified(Comparisons(performance), out)
              && WrittenBack(performance, rows, out) && ResultsWrittenBack(results, written, out)
              && Tallied(r.value.counts, out)
              && r.value.counts.improved + r.value.counts.stable + r.value.counts.regressed == r.value.counts.comparable
              && r.value.counts.inconclusive == r.value.counts.total - r.value.counts.comparable
              && (r.value.passed <==> r.value.gateEnabled ==>
                    hs[0].baselineStatus == "ok" && out != []
                    && (forall c :: c in out ==> c.baselineFound && c.classification != Regressed))
              && (forall x :: x in r.value.reasons <==> Blamed(hs[0], out, x))
  {
    rows, written := performance, results;
    if exists i :: 0 <= i < |hs| && hs[i].environment != hs[0].environment {
      r := Err("mixed benchmark environment across shards");
      return;
    }
    var enabled := exists i :: 0 <= i < |hs| && hs[i].enabled;
    if !enabled {
      r := Ok(Analysis(false, hs[0].counts.(total := |performance|), [], hs[0].gateEnabled, true, []));
      return;
    }
    if exists i :: 0 <= i < |hs| && (hs[i].baselinePath != hs[0].baselinePath
        || hs[i].baselineStatus != hs[0].baselineStatus || hs[i].procedure != hs[0].procedure
        || hs[i].config != hs[0].config || hs[i].gateEnabled != hs[0].gateEnabled) {
      r := Err("mixed benchmark settings across shards");
      return;
    }
    var cs := CollectComparisons(performance);
    var out := ReclassifyAll(cs);
    rows := WriteBack(performance, out);
    written := WriteResults(results, out);
    MergedCountsAddUp(cs, out);
    var counts := CountComparisons(out);
    var reasons := GateReasons(hs[0], out);
    r := Ok(Analysis(true, counts, out, hs[0].gateEnabled, reasons == [], reasons));
  }

  method GateReasons(first: Header, out: seq<Comparison>) returns (reasons: seq<string>)
    ensures reasons == [] <==>
              (first.gateEnabled ==>
                first.baselineStatus == "ok" && out != []
                && forall c :: c in out ==> c.baselineFound && c.classification != Regressed)
    ensures forall x :: x in reasons <==> Blamed(first, out, x)
  {
    reasons := [];
    if first.gateEnabled && first.baselineStatus != "ok" { reasons := reasons + ["baseline-" + first.baselineStatus]; }
    if first.gateEnabled && out == [] { reasons := reasons + ["no-benchmarks-executed"]; }
    if first.gateEnabled && exists c :: c in out && !c.baselineFound {
      reasons := reasons + ["benchmark-missing-from-baseline"];
    }
    if first.gateEnabled && exists c :: c in out && c.classification == Regressed {
      reasons := reasons + ["statistically-significant-practical-regression"];
    }
  }

  method CollectComparisons(performance: seq<Measurement>) returns (cs: seq<Comparison>)
    ensures cs == Comparisons(performance)
  {
    cs := [];
    for i := 0 to |performance|
      invariant cs == Comparisons(performance[..i])
    {
      FlatMapNext(performance, ComparisonOf, i);
      if performance[i].comparison.Some? { cs := cs + [performance[i].comparison.value]; }
    }
    assert performance[..|performance|] == performance;
  }

  method CountComparisons(out: seq<Comparison>) returns (counts: Counts)
    ensures Tallied(counts, out)
  {
    counts := Counts(|out|, 0, 0, 0, 0, 0, 0, 0);
    for i := 0 to |out|
      invariant counts.total == |out| && Tallied(counts.(total := i), out[..i])
    {
      var c := out[i];
      CountNext(out, i);
      if c.baselineFound {
        counts := counts.(baselineFound := counts.baselineFound + 1);
        if !c.environmentMatch { counts := counts.(environmentMismatches := counts.environmentMismatches + 1); }
      }
      if c.comparable { counts := counts.(comparable := counts.comparable + 1); }
      match c.classification
      case Improved => counts := counts.(improved := counts.improved + 1);
      case Stable => counts := counts.(stable := counts.stable + 1);
      case Inconclusive => counts := counts.(inconclusive := counts.inconclusive + 1);
      case Regressed => counts := counts.(regressed := counts.regressed + 1);
    }
    assert out[..|out|] == out;
  }

  lemma {:induction false} CountNext(out: seq<Comparison>, i: nat)
    requires i < |out|
    ensures forall p: Comparison -> bool :: Count(out[..i + 1], p) == Count(out[..i], p) + if p(out[i]) then 1 else 0
  {
    forall p: Comparison -> bool
      ensures Count(out[..i + 1], p) == Count(out[..i], p) + if p(out[i]) then 1 else 0
    {
      TakeNext(out, i);
      CountAppend(out[..i], [out[i]], p);
      CountOne(out[i], p);
    }
  }
}
