/** The recomputed summary against the checker's recount. */
module CoverageSummary {
  import opened Seqs
  import opened Records
  import opened Flattening
  import opened CoverageContract
  import opened Recompute

  /** Every total of the summary is what the checker recounts. */
  lemma {:induction false} TotalsAgree(files: seq<Rec>, first: Summary)
    requires All(files, FileOk)
    ensures TotalsOk(RecomputeSummary(files, first), files)
  {
    forall f | f in files
      ensures FileCounts(f)
    {
      assert FileOk(f);
    }
    TotalsOfCounted(files, first);
  }

  lemma {:induction false} BranchesOk(files: seq<Rec>)
    requires All(files, FileOk)
    ensures All(KidsOf(files, Branches), BranchOk)
  {
    forall b | b in KidsOf(files, Branches)
      ensures BranchOk(b)
    {
      var f := ChildParent(files, Branches, b);
      assert FileOk(f);
    }
  }

  lemma {:induction false} TwoEdgesEach(branches: seq<Rec>)
    requires All(branches, BranchOk)
    ensures Sum(branches, EdgesFoundIfEligible) == 2 * Count(branches, IsEligible)
  {
    if branches != [] {
      assert branches[0] in branches;
      TwoEdgesEach(branches[1..]);
    }
  }

  /** Each eligible branch site contributes its two edges to the denominator. */
  lemma {:induction false} BranchesAreTwicePerSite(files: seq<Rec>, first: Summary)
    requires All(files, FileOk)
    ensures var s := RecomputeSummary(files, first); s.branchesFound == 2 * s.branchSitesEligible
  {
    TotalsAgree(files, first);
    BranchesOk(files);
    TwoEdgesEach(KidsOf(files, Branches));
  }

  lemma {:induction false} HitEdgesAtMostTwo(b: Rec)
    requires BranchOk(b)
    ensures EdgesHitIfEligible(b) <= EdgesFoundIfEligible(b)
  {
    CountAtMost(Kids(b, Edges), IsHit, IsHit);
  }

  lemma {:induction false} BranchBounds(files: seq<Rec>)
    requires All(files, FileOk)
    ensures var branches := KidsOf(files, Branches);
            && Sum(branches, EdgesHitIfEligible) <= Sum(branches, EdgesFoundIfEligible)
            && Count(branches, IsInstrumented) <= Count(branches, IsEligible)
  {
    var branches := KidsOf(files, Branches);
    BranchesOk(files);
    forall b | b in branches
      ensures EdgesHitIfEligible(b) <= EdgesFoundIfEligible(b)
    {
      HitEdgesAtMostTwo(b);
    }
    SumAtMost(branches, EdgesHitIfEligible, EdgesFoundIfEligible);
    CountAtMost(branches, IsInstrumented, IsEligible);
  }

  lemma {:induction false} SiteBounds(files: seq<Rec>)
    requires All(files, FileOk)
    ensures var sites := KidsOf(files, Sites);
            && Count(sites, IsEligibleHit) <= Count(sites, IsEligible)
            && Count(sites, IsInstrumented) <= Count(sites, IsEligible)
  {
    var sites := KidsOf(files, Sites);
    forall r | r in sites && IsInstrumented(r)
      ensures IsEligible(r)
    {
      var f := ChildParent(files, Sites, r);
      assert FileOk(f);
    }
    CountAtMost(sites, IsInstrumented, IsEligible);
    CountAtMost(sites, IsEligibleHit, IsEligible);
  }

  lemma {:induction false} FunctionBounds(files: seq<Rec>)
    requires All(files, FileOk)
    ensures var functions := KidsOf(files, Functions);
            && Count(functions, IsHit) <= |functions|
            && Count(functions, IsFunctionInstrumented) <= Count(functions, IsFunctionEligible)
  {
    var functions := KidsOf(files, Functions);
    forall r | r in functions && IsFunctionInstrumented(r)
      ensures IsFunctionEligible(r)
    {
      var f := ChildParent(files, Functions, r);
      assert FileOk(f) && FunctionOk(r);
    }
    CountAtMost(functions, IsFunctionInstrumented, IsFunctionEligible);
    CountAtMost(functions, IsHit, IsHit);
  }

  /** Hits and instrumentation stay within their bounds; the one bound the checker does not secure
      function by function is that statement instrumentation is statement-eligible. */
  lemma {:induction false} BoundsAgree(files: seq<Rec>, first: Summary)
    requires All(files, FileOk)
    ensures var s := RecomputeSummary(files, first);
            BoundsOk(s) <==> s.statementFunctionsInstrumented <= s.statementFunctionsEligible
  {
    TotalsAgree(files, first);
    BranchBounds(files);
    SiteBounds(files);
    FunctionBounds(files);
    CountAtMost(KidsOf(files, Lines), IsHit, IsHit);
  }

  /** The producer flags completeness by plain equality; the checker also wants the mode on and
      something to measure. */
  predicate NeverVacuous(s: Summary) {
    && (s.statementSitesInstrumented == s.statementSitesFound ==> s.statementMode && s.statementSitesFound > 0)
    && (s.branchSitesInstrumented == s.branchSitesEligible ==> s.branchMode && s.branchSitesEligible > 0)
    && (s.statementFunctionsInstrumented == s.statementFunctionsEligible ==>
          s.statementMode && s.statementFunctionsEligible > 0)
  }

  /** The producer recounts the reason "none" if the first shard declared it; the checker keeps it at zero. */
  lemma {:induction false} FallbacksAgree(files: seq<Rec>, first: Summary)
    requires All(files, FileOk) && forall reason :: reason in first.fallbackCounts ==> reason in FALLBACKS
    ensures var functions := KidsOf(files, Functions);
            FallbacksOk(RecomputeSummary(files, first), functions) <==>
            ("none" in first.fallbackCounts ==> Count(functions, Because("none")) == 0)
  {
    var functions := KidsOf(files, Functions);
    var s := RecomputeSummary(files, first);
    forall f | f in functions
      ensures ReasonOf(f) in FALLBACKS
    {
      var file := ChildParent(files, Functions, f);
      assert FileOk(file) && FunctionOk(f);
    }
    assert s.fallbackCounts == RecomputeFallbacks(functions, first.fallbackCounts);
    forall f | f in functions && ReasonOf(f) != "none"
      ensures ReasonOf(f) in s.fallbackCounts
    {
      assert ReasonOf(f) in Reasons(functions);
    }
  }

  /** When the recomputed summary passes the checker, in terms of the rebuilt files. */
  lemma {:induction false} SummaryAccepted(files: seq<Rec>, first: Summary)
    requires All(files, FileOk) && forall reason :: reason in first.fallbackCounts ==> reason in FALLBACKS
    ensures var s := RecomputeSummary(files, first);
            SummaryOk(s, files) <==>
            && s.statementFunctionsInstrumented <= s.statementFunctionsEligible
            && NeverVacuous(s)
            && ("none" in first.fallbackCounts ==> Count(KidsOf(files, Functions), Because("none")) == 0)
  {
    TotalsAgree(files, first);
    BoundsAgree(files, first);
    FallbacksAgree(files, first);
  }

  /** The summary a shard writes of its own files: the recounted totals with the checker's flags. */
  function OwnSummary(files: seq<Rec>, first: Summary): Summary {
    var s := RecomputeSummary(files, first.(fallbackCounts := map[]));
    s.(statementSiteInstrumentationComplete :=
         Complete(s.statementMode, s.statementSitesInstrumented, s.statementSitesFound),
       branchInstrumentationComplete := Complete(s.branchMode, s.branchSitesInstrumented, s.branchSitesEligible),
       statementInstrumentationComplete :=
         Complete(s.statementMode, s.statementFunctionsInstrumented, s.statementFunctionsEligible))
  }

  lemma {:induction false} OwnSummaryAccepted(files: seq<Rec>, first: Summary)
    requires All(files, FileOk)
    requires var functions := KidsOf(files, Functions);
             Count(functions, IsStatementInstrumented) <= Count(functions, IsStatementEligible)
    ensures SummaryOk(OwnSummary(files, first), files)
  {
    var bare := first.(fallbackCounts := map[]);
    TotalsAgree(files, bare);
    BoundsAgree(files, bare);
    FallbacksAgree(files, bare);
  }
}
