/** Files and summary of a merged artifact: acceptance as a condition on the shards. */
module CoverageArtifact {
  import opened Seqs
  import opened Records
  import opened Flattening
  import opened CoverageContract
  import opened Recompute
  import opened CoverageOrigins
  import opened CoverageMerge
  import opened CoverageSummary

  // ---------------------------------------------------------------- the condition

  /** Some eligible site keeps a completeness flag from holding vacuously: sites are measured, or it was not. */
  ghost predicate Measurable(sites: seq<Rec>, mode: bool) {
    exists r :: r in sites && IsEligible(r) && (mode || !IsInstrumented(r))
  }

  /** The functions with a property over all shards, each counted once. */
  function FunctionsWith(fs: seq<Rec>, q: Rec -> bool): set<(Key, Key)> {
    set f, fn | f in fs && fn in Kids(f, Functions) && q(fn) :: (KeyOf(f), KeyOf(fn))
  }

  /** Every function has a reason for not being instrumented. */
  ghost predicate AllFellBack(functions: seq<Rec>) {
    forall fn :: fn in functions ==> ReasonOf(fn) != "none"
  }

  /** What the shards' files and the first summary must satisfy for the merged summary to pass. */
  ghost predicate SummaryCondition(fs: seq<Rec>, first: Summary) {
    var eligible, instrumented := |FunctionsWith(fs, IsStatementEligible)|, |FunctionsWith(fs, IsStatementInstrumented)|;
    && Measurable(KidsOf(fs, Sites), first.statementMode)
    && Measurable(KidsOf(fs, Branches), first.branchMode)
    && instrumented <= eligible
    && (instrumented == eligible ==> first.statementMode && eligible > 0)
    && ("none" in first.fallbackCounts ==> AllFellBack(KidsOf(fs, Functions)))
  }

  // ---------------------------------------------------------------- sites

  lemma {:induction false} FlagMeaningful(sites: seq<Rec>, mode: bool)
    requires forall r :: r in sites && IsInstrumented(r) ==> IsEligible(r)
    ensures Measurable(sites, mode) <==>
            (Count(sites, IsInstrumented) == Count(sites, IsEligible) ==> mode && Count(sites, IsEligible) > 0)
  {
    CountsEqual(sites, IsInstrumented, IsEligible);
    NoneCounted(sites, IsEligible);
  }

  /** Every row of `a` has its metadata in `b`. */
  ghost predicate MetaWithin(a: seq<Rec>, b: seq<Rec>) {
    forall r :: r in a ==> exists s :: s in b && s.meta == r.meta
  }

  lemma {:induction false} MeasurableWithin(a: seq<Rec>, b: seq<Rec>, mode: bool)
    requires MetaWithin(a, b) && Measurable(a, mode)
    ensures Measurable(b, mode)
  {
    var r :| r in a && IsEligible(r) && (mode || !IsInstrumented(r));
    var s :| s in b && s.meta == r.meta;
  }

  /** What the rebuilt files list, the shards' files list. */
  lemma {:induction false} NothingNew(fs: seq<Rec>, slot: Slot)
    requires Consistent(fs, FileKind) && FileSlot(slot)
    ensures MetaWithin(KidsOf(Rebuilt(fs), slot), KidsOf(fs, slot))
  {
    forall x | x in KidsOf(Rebuilt(fs), slot)
      ensures exists c :: c in KidsOf(fs, slot) && c.meta == x.meta
    {
      var file := ChildParent(Rebuilt(fs), slot, x);
      var f, c := ChildOrigin(fs, file, slot, x);
      KidIn(fs, slot, c);
    }
  }

  /** And the other way round. */
  lemma {:induction false} NothingLost(fs: seq<Rec>, slot: Slot)
    requires Consistent(fs, FileKind) && FileSlot(slot)
    ensures MetaWithin(KidsOf(fs, slot), KidsOf(Rebuilt(fs), slot))
  {
    forall c | c in KidsOf(fs, slot)
      ensures exists x :: x in KidsOf(Rebuilt(fs), slot) && x.meta == c.meta
    {
      var f := ChildParent(fs, slot, c);
      var file, x := ChildKept(fs, f, slot, c);
      KidIn(Rebuilt(fs), slot, x);
    }
  }

  lemma {:induction false} SameMeasurable(fs: seq<Rec>, slot: Slot, mode: bool)
    requires Consistent(fs, FileKind) && (slot.Sites? || slot.Branches?)
    ensures Measurable(KidsOf(Rebuilt(fs), slot), mode) <==> Measurable(KidsOf(fs, slot), mode)
  {
    if Measurable(KidsOf(Rebuilt(fs), slot), mode) {
      NothingNew(fs, slot);
      MeasurableWithin(KidsOf(Rebuilt(fs), slot), KidsOf(fs, slot), mode);
    } else if Measurable(KidsOf(fs, slot), mode) {
      NothingLost(fs, slot);
      MeasurableWithin(KidsOf(fs, slot), KidsOf(Rebuilt(fs), slot), mode);
    }
  }

  // ---------------------------------------------------------------- functions

  /** A property of metadata alone. */
  ghost predicate OfMeta(q: Rec -> bool) {
    forall a: Rec, b: Rec :: a.meta == b.meta ==> q(a) == q(b)
  }

  lemma {:induction false} SameFunctions(fs: seq<Rec>, q: Rec -> bool)
    requires Consistent(fs, FileKind) && OfMeta(q)
    ensures FunctionsWith(Rebuilt(fs), q) == FunctionsWith(fs, q)
  {
    forall file, fn | file in Rebuilt(fs) && fn in Kids(file, Functions) && q(fn)
      ensures (KeyOf(file), KeyOf(fn)) in FunctionsWith(fs, q)
    {
      var f, c := ChildOrigin(fs, file, Functions, fn);
      assert q(c) && KeyOf(f) == KeyOf(file) && KeyOf(c) == KeyOf(fn);
    }
    forall f, c | f in fs && c in Kids(f, Functions) && q(c)
      ensures (KeyOf(f), KeyOf(c)) in FunctionsWith(Rebuilt(fs), q)
    {
      var file, fn := ChildKept(fs, f, Functions, c);
      assert q(fn) && KeyOf(f) == KeyOf(file) && KeyOf(c) == KeyOf(fn);
    }
  }

  function Tagged(k: Key, rows: seq<Rec>, q: Rec -> bool): set<(Key, Key)> {
    set r | r in rows && q(r) :: (k, KeyOf(r))
  }

  lemma {:induction false} TaggedCount(k: Key, rows: seq<Rec>, q: Rec -> bool)
    requires DistinctKeys(rows)
    ensures Count(rows, q) == |Tagged(k, rows, q)|
  {
    if rows != [] {
      var first, rest := rows[0], rows[1..];
      TaggedCount(k, rest, q);
      forall r | r in rest
        ensures KeyOf(r) != KeyOf(first)
      {
        var i :| 0 <= i < |rest| && rest[i] == r;
        assert rows[i + 1] == r;
      }
      assert rows == [first] + rest;
      assert Tagged(k, rows, q) == (if q(first) then {(k, KeyOf(first))} else {}) + Tagged(k, rest, q);
      assert (k, KeyOf(first)) !in Tagged(k, rest, q);
    }
  }

  /** Counting functions file by file counts each (path, function) pair once. */
  lemma {:induction false} FunctionCount(files: seq<Rec>, q: Rec -> bool)
    requires DistinctKeys(files) && forall f :: f in files ==> DistinctKeys(Kids(f, Functions))
    ensures Count(KidsOf(files, Functions), q) == |FunctionsWith(files, q)|
  {
    if files != [] {
      var f, rest := files[0], files[1..];
      FunctionCount(rest, q);
      assert f in files;
      TaggedCount(KeyOf(f), Kids(f, Functions), q);
      CountAppend(Kids(f, Functions), KidsOf(rest, Functions), q);
      SplitFunctions(files, q);
      assert |FunctionsWith(files, q)| == |Tagged(KeyOf(f), Kids(f, Functions), q)| + |FunctionsWith(rest, q)|;
    }
  }

  lemma {:induction false} SplitFunctions(files: seq<Rec>, q: Rec -> bool)
    requires files != [] && DistinctKeys(files)
    ensures FunctionsWith(files, q) == Tagged(KeyOf(files[0]), Kids(files[0], Functions), q) + FunctionsWith(files[1..], q)
    ensures Tagged(KeyOf(files[0]), Kids(files[0], Functions), q) !! FunctionsWith(files[1..], q)
  {
    var f, rest := files[0], files[1..];
    assert files == [f] + rest;
    forall g | g in rest
      ensures KeyOf(g) != KeyOf(f)
    {
      var i :| 0 <= i < |rest| && rest[i] == g;
      assert files[i + 1] == g;
    }
  }

  lemma {:induction false} RebuiltFunctionCount(fs: seq<Rec>, q: Rec -> bool)
    requires Consistent(fs, FileKind) && FilesOk(Rebuilt(fs)) && OfMeta(q)
    ensures Count(KidsOf(Rebuilt(fs), Functions), q) == |FunctionsWith(fs, q)|
  {
    forall f | f in Rebuilt(fs)
      ensures DistinctKeys(Kids(f, Functions))
    {
      assert FileOk(f);
    }
    FunctionCount(Rebuilt(fs), q);
    SameFunctions(fs, q);
  }

  lemma {:induction false} SameReasons(fs: seq<Rec>)
    requires Consistent(fs, FileKind)
    ensures Count(KidsOf(Rebuilt(fs), Functions), Because("none")) == 0 <==> AllFellBack(KidsOf(fs, Functions))
  {
    NoneUnexplained(KidsOf(Rebuilt(fs), Functions));
    if AllFellBack(KidsOf(fs, Functions)) {
      NothingNew(fs, Functions);
      ReasonsWithin(KidsOf(Rebuilt(fs), Functions), KidsOf(fs, Functions));
    } else if AllFellBack(KidsOf(Rebuilt(fs), Functions)) {
      NothingLost(fs, Functions);
      ReasonsWithin(KidsOf(fs, Functions), KidsOf(Rebuilt(fs), Functions));
    }
  }

  lemma {:induction false} NoneUnexplained(functions: seq<Rec>)
    ensures Count(functions, Because("none")) == 0 <==> AllFellBack(functions)
  {
    NoneCounted(functions, Because("none"));
    assert forall fn :: Because("none")(fn) <==> ReasonOf(fn) == "none";
  }

  lemma {:induction false} ReasonsWithin(a: seq<Rec>, b: seq<Rec>)
    requires MetaWithin(a, b) && AllFellBack(b)
    ensures AllFellBack(a)
  {
    forall fn | fn in a
      ensures ReasonOf(fn) != "none"
    {
      var g :| g in b && g.meta == fn.meta;
    }
  }

  // ---------------------------------------------------------------- the theorem

  lemma {:induction false} InstrumentedIsEligible(files: seq<Rec>, slot: Slot)
    requires All(files, FileOk) && (slot.Sites? || slot.Branches?)
    ensures forall r :: r in KidsOf(files, slot) && IsInstrumented(r) ==> IsEligible(r)
  {
    forall r | r in KidsOf(files, slot) && IsInstrumented(r)
      ensures IsEligible(r)
    {
      var f := ChildParent(files, slot, r);
      assert FileOk(f);
    }
  }

  lemma {:induction false} FlagsOfShards(fs: seq<Rec>, first: Summary)
    requires Consistent(fs, FileKind) && FilesOk(Rebuilt(fs))
    ensures var s := RecomputeSummary(Rebuilt(fs), first);
            var eligible, instrumented := |FunctionsWith(fs, IsStatementEligible)|, |FunctionsWith(fs, IsStatementInstrumented)|;
            && s.statementFunctionsEligible == eligible && s.statementFunctionsInstrumented == instrumented
            && (NeverVacuous(s) <==>
                  && Measurable(KidsOf(fs, Sites), first.statementMode)
                  && Measurable(KidsOf(fs, Branches), first.branchMode)
                  && (instrumented == eligible ==> first.statementMode && eligible > 0))
  {
    var out := Rebuilt(fs);
    TotalsAgree(out, first);
    InstrumentedIsEligible(out, Sites);
    InstrumentedIsEligible(out, Branches);
    FlagMeaningful(KidsOf(out, Sites), first.statementMode);
    FlagMeaningful(KidsOf(out, Branches), first.branchMode);
    SameMeasurable(fs, Sites, first.statementMode);
    SameMeasurable(fs, Branches, first.branchMode);
    RebuiltFunctionCount(fs, IsStatementEligible);
    RebuiltFunctionCount(fs, IsStatementInstrumented);
  }

  /** The recomputed summary passes the checker exactly when the shards satisfy the condition. */
  lemma {:induction false} MergedSummaryAccepted(fs: seq<Rec>, first: Summary)
    requires Consistent(fs, FileKind) && FilesOk(Rebuilt(fs))
    requires forall reason :: reason in first.fallbackCounts ==> reason in FALLBACKS
    ensures SummaryOk(RecomputeSummary(Rebuilt(fs), first), Rebuilt(fs)) <==> SummaryCondition(fs, first)
  {
    SummaryAccepted(Rebuilt(fs), first);
    FlagsOfShards(fs, first);
    SameReasons(fs);
  }

  /** Files and summary merged from checked, coherent shards pass the checker exactly when, path by path,
      the copies do and the shards satisfy the summary condition. */
  lemma {:induction false} MergedArtifactAccepted(shards: seq<seq<Rec>>, first: Summary)
    requires forall shard :: shard in shards ==> FilesOk(shard)
    requires forall reason :: reason in first.fallbackCounts ==> reason in FALLBACKS
    requires var fs := FlatMap(shards, Whole); Consistent(fs, FileKind) && Coherent(fs)
    ensures var fs := FlatMap(shards, Whole);
            FilesOk(Rebuilt(fs)) && SummaryOk(RecomputeSummary(Rebuilt(fs), first), Rebuilt(fs)) <==>
            (forall p :: p in Keys(fs) ==> PathAccepted(Copies(fs, p))) && SummaryCondition(fs, first)
  {
    MergedFilesAccepted(shards);
    if FilesOk(Rebuilt(FlatMap(shards, Whole))) { MergedSummaryAccepted(FlatMap(shards, Whole), first); }
  }

  /** Both modes are on, there is something to measure, and only eligible functions are instrumented. */
  ghost predicate FullyMeasured(fs: seq<Rec>, first: Summary) {
    && first.statementMode && first.branchMode && "none" !in first.fallbackCounts
    && (exists r :: r in KidsOf(fs, Sites) && IsEligible(r))
    && (exists r :: r in KidsOf(fs, Branches) && IsEligible(r))
    && (exists fn :: fn in KidsOf(fs, Functions) && IsStatementEligible(fn))
    && (forall fn :: fn in KidsOf(fs, Functions) && IsStatementInstrumented(fn) ==> IsStatementEligible(fn))
  }

  lemma {:induction false} FullyMeasuredSuffices(fs: seq<Rec>, first: Summary)
    requires FullyMeasured(fs, first)
    ensures SummaryCondition(fs, first)
  {
    var fn :| fn in KidsOf(fs, Functions) && IsStatementEligible(fn);
    var f := ChildParent(fs, Functions, fn);
    var eligible, instrumented := FunctionsWith(fs, IsStatementEligible), FunctionsWith(fs, IsStatementInstrumented);
    assert (KeyOf(f), KeyOf(fn)) in eligible;
    forall g, x | g in fs && x in Kids(g, Functions) && IsStatementInstrumented(x)
      ensures (KeyOf(g), KeyOf(x)) in eligible
    {
      KidIn(fs, Functions, x);
    }
    SizeAtMost(instrumented, eligible);
  }

  lemma {:induction false} SizeAtMost<T>(a: set<T>, b: set<T>)
    requires a <= b
    ensures |a| <= |b|
  {
    assert b == a + (b - a);
  }

  /** With both modes on and something to measure, every count of the merged artifact is what the
      checker recounts, so acceptance is decided path by path alone. */
  lemma {:induction false} MeasuredArtifactAccepted(shards: seq<seq<Rec>>, first: Summary)
    requires forall shard :: shard in shards ==> FilesOk(shard)
    requires forall reason :: reason in first.fallbackCounts ==> reason in FALLBACKS
    requires var fs := FlatMap(shards, Whole); Consistent(fs, FileKind) && Coherent(fs) && FullyMeasured(fs, first)
    ensures var fs := FlatMap(shards, Whole);
            FilesOk(Rebuilt(fs)) && SummaryOk(RecomputeSummary(Rebuilt(fs), first), Rebuilt(fs)) <==>
            forall p :: p in Keys(fs) ==> PathAccepted(Copies(fs, p))
  {
    MergedArtifactAccepted(shards, first);
    FullyMeasuredSuffices(FlatMap(shards, Whole), first);
  }

  /** A shard whose own summary passes while the merge of nothing but this shard does not: whenever one
      of its completeness flags would hold vacuously. */
  lemma {:induction false} VacuousFlagIsRejected(shard: seq<Rec>, modes: Summary)
    requires FilesOk(shard) && Consistent(shard, FileKind) && FilesOk(Rebuilt(shard))
    requires var functions := KidsOf(shard, Functions);
             Count(functions, IsStatementInstrumented) <= Count(functions, IsStatementEligible)
    requires !Measurable(KidsOf(shard, Sites), modes.statementMode) || !Measurable(KidsOf(shard, Branches), modes.branchMode)
    ensures var own := OwnSummary(shard, modes);
            SummaryOk(own, shard) && !SummaryOk(RecomputeSummary(Rebuilt(shard), own), Rebuilt(shard))
  {
    var own := OwnSummary(shard, modes);
    OwnSummaryAccepted(shard, modes);
    MergedSummaryAccepted(shard, own);
  }
}
