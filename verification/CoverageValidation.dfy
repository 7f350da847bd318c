/** `validate_coverage_artifact` as the checker runs it: loop by loop, refusing exactly what the contract
    of an artifact's files and summary rules out. */
module CoverageValidation {
  import opened Seqs
  import opened Records
  import opened CoverageContract
  import opened Recompute

  // ---------------------------------------------------------------- rows

  /** The duplicate checks. */
  method CheckDistinct(rows: seq<Rec>) returns (ok: bool)
    ensures ok <==> DistinctKeys(rows)
  {
    var seen: set<Key> := {};
    for i := 0 to |rows|
      invariant DistinctKeys(rows[..i])
      invariant forall k :: k in seen <==> exists j :: 0 <= j < i && KeyOf(rows[j]) == k
    {
      if KeyOf(rows[i]) in seen { return false; }
      seen := seen + {KeyOf(rows[i])};
    }
    assert rows[..|rows|] == rows;
    ok := true;
  }

  /** `validate_hit_record` */
  method ValidateHits(r: Rec) returns (ok: bool)
    ensures ok <==> HitOk(r)
  {
    ok := r.hits.Some? && r.covered == (r.hits.value > 0);
  }

  method ValidateLine(r: Rec) returns (ok: bool)
    ensures ok <==> LineOk(r)
  {
    if !r.meta.LineMeta? || r.derived != map[] { return false; }
    ok := ValidateHits(r);
  }

  method ValidateLines(rows: seq<Rec>) returns (ok: bool)
    ensures ok <==> DistinctKeys(rows) && All(rows, LineOk)
  {
    for i := 0 to |rows|
      invariant forall j :: 0 <= j < i ==> LineOk(rows[j])
    {
      ok := ValidateLine(rows[i]);
      if !ok { return; }
    }
    ok := CheckDistinct(rows);
  }

  /** `validate_site` for a statement. */
  method ValidateSite(r: Rec) returns (ok: bool)
    ensures ok <==> SiteOk(r)
  {
    if !r.meta.SiteMeta? { return false; }
    if r.meta.instrumented && !r.meta.eligible { return false; }
    ok := ValidateHits(r);
    if ok && !r.meta.instrumented && r.hits.value > 0 { return false; }
  }

  method ValidateSites(rows: seq<Rec>) returns (ok: bool)
    ensures ok <==> All(rows, SiteOk)
  {
    for i := 0 to |rows|
      invariant forall j :: 0 <= j < i ==> SiteOk(rows[j])
    {
      ok := ValidateSite(rows[i]);
      if !ok { return; }
    }
    ok := true;
  }

  method ValidateEdge(e: Rec, instrumented: bool) returns (ok: bool)
    ensures ok <==> EdgeOk(e, instrumented)
  {
    if !e.meta.EdgeMeta? { return false; }
    if e.meta.index != 0 && e.meta.index != 1 { return false; }
    if e.meta.index == 0 && e.meta.edgeLabel != "true" { return false; }
    if e.meta.index == 1 && e.meta.edgeLabel != "false" { return false; }
    ok := ValidateHits(e);
    if ok && !instrumented && e.hits.value > 0 { return false; }
  }

  /** `validate_site` for a branch. */
  method ValidateBranch(r: Rec) returns (ok: bool)
    ensures ok <==> BranchShape(r) && BranchFresh(r)
  {
    if !r.meta.BranchMeta? { return false; }
    if r.meta.instrumented && !r.meta.eligible { return false; }
    var edges := Kids(r, Edges);
    if |edges| != 2 { return false; }
    ok := ValidateEdge(edges[0], r.meta.instrumented);
    if !ok { return; }
    ok := ValidateEdge(edges[1], r.meta.instrumented);
    if !ok { return; }
    if edges[0].meta.index == edges[1].meta.index || edges[0].meta.edgeId == edges[1].meta.edgeId { return false; }
    var taken := CountHits(edges);
    var found := if r.meta.eligible then 2 else 0;
    var hit := if r.meta.eligible then taken else 0;
    ok := EdgesFound in r.derived && r.derived[EdgesFound] == found
          && EdgesHit in r.derived && r.derived[EdgesHit] == hit;
  }

  method ValidateBranches(rows: seq<Rec>) returns (ok: bool)
    ensures ok <==> All(rows, BranchShape) && All(rows, BranchFresh)
  {
    for i := 0 to |rows|
      invariant forall j :: 0 <= j < i ==> BranchShape(rows[j]) && BranchFresh(rows[j])
    {
      ok := ValidateBranch(rows[i]);
      if !ok { return; }
    }
    ok := true;
  }

  // ---------------------------------------------------------------- counts

  /** `sum(row["edgesFound"] for row in branches if row["eligible"])`, and the same for `edgesHit`. */
  method SumEdges(branches: seq<Rec>) returns (found: nat, hit: nat)
    ensures found == Sum(branches, EdgesFoundIfEligible) && hit == Sum(branches, EdgesHitIfEligible)
  {
    found, hit := 0, 0;
    for i := 0 to |branches|
      invariant found == Sum(branches[..i], EdgesFoundIfEligible) && hit == Sum(branches[..i], EdgesHitIfEligible)
    {
      SumNext(branches, i, EdgesFoundIfEligible);
      SumNext(branches, i, EdgesHitIfEligible);
      var m, shown := branches[i].meta, branches[i].derived;
      if (m.SiteMeta? || m.BranchMeta?) && m.eligible {
        if EdgesFound in shown { found := found + shown[EdgesFound]; }
        if EdgesHit in shown { hit := hit + shown[EdgesHit]; }
      }
    }
    assert branches[..|branches|] == branches;
  }

  /** `row[name] == expected` */
  predicate Counted(row: Rec, name: Field, expected: nat) { name in row.derived && row.derived[name] == expected }

  method CheckFunctionCounts(f: Rec) returns (ok: bool)
    ensures ok <==> FunctionCounts(f)
  {
    var statements, sites, branches := Kids(f, Statements), Kids(f, Sites), Kids(f, Branches);
    var statementHit := CountHits(statements);
    var sitesFound, sitesInstrumented, sitesHit := CountSites(sites);
    var branchesEligible, branchesInstrumented, _ := CountSites(branches);
    var branchFound, branchHit := SumEdges(branches);
    ok := Counted(f, StatementFound, |statements|) && Counted(f, StatementHit, statementHit)
          && Counted(f, StatementSitesFound, sitesFound) && Counted(f, StatementSitesHit, sitesHit)
          && Counted(f, StatementSitesInstrumented, sitesInstrumented)
          && Counted(f, BranchSitesEligible, branchesEligible)
          && Counted(f, BranchSitesInstrumented, branchesInstrumented)
          && Counted(f, BranchFound, branchFound) && Counted(f, BranchHit, branchHit);
  }

  method CheckFileCounts(f: Rec) returns (ok: bool)
    ensures ok <==> FileCounts(f)
  {
    var functions, lines, sites, branches := Kids(f, Functions), Kids(f, Lines), Kids(f, Sites), Kids(f, Branches);
    var functionHit := CountHits(functions);
    var _, _, _, functionsInstrumented := CountFunctions(functions);
    var lineHit := CountHits(lines);
    var sitesEligible, sitesInstrumented, sitesHit := CountSites(sites);
    var branchesEligible, branchesInstrumented, _ := CountSites(branches);
    var branchFound, branchHit := SumEdges(branches);
    ok := Counted(f, FunctionFound, |functions|) && Counted(f, FunctionHit, functionHit)
          && Counted(f, StatementFunctionsInstrumented, functionsInstrumented)
          && Counted(f, LineFound, |lines|) && Counted(f, LineHit, lineHit)
          && Counted(f, StatementSitesEligible, sitesEligible)
          && Counted(f, StatementSitesInstrumented, sitesInstrumented)
          && Counted(f, StatementSitesHit, sitesHit) && Counted(f, BranchSitesEligible, branchesEligible)
          && Counted(f, BranchSitesInstrumented, branchesInstrumented)
          && Counted(f, BranchFound, branchFound) && Counted(f, BranchHit, branchHit);
  }

  // ---------------------------------------------------------------- functions and files

  method ValidateFunction(f: Rec) returns (ok: bool)
    ensures ok <==> FunctionOk(f)
  {
    if !f.meta.FunctionMeta? { return false; }
    ok := ValidateHits(f);
    if !ok { return; }
    if f.meta.functionInstrumented && !f.meta.functionEligible { return false; }
    if f.meta.fallbackReason !in {"none", "statement_mode_disabled", "source_not_loaded",
                                  "function_wrapper_unavailable", "rewrite_rejected"} { return false; }
    ok := ValidateLines(Kids(f, Statements));
    if !ok { return; }
    ok := ValidateSites(Kids(f, Sites));
    if !ok { return; }
    ok := ValidateBranches(Kids(f, Branches));
    if !ok { return; }
    ok := CheckFunctionCounts(f);
  }

  method ValidateFunctions(functions: seq<Rec>) returns (ok: bool)
    ensures ok <==> DistinctKeys(functions) && All(functions, FunctionOk)
  {
    for i := 0 to |functions|
      invariant forall j :: 0 <= j < i ==> FunctionOk(functions[j])
    {
      ok := ValidateFunction(functions[i]);
      if !ok { return; }
    }
    ok := CheckDistinct(functions);
  }

  /** `[row for item in items for row in item[slot]]` */
  method Collect(items: seq<Rec>, slot: Slot) returns (rows: seq<Rec>)
    ensures rows == KidsOf(items, slot)
  {
    rows := [];
    for i := 0 to |items|
      invariant rows == KidsOf(items[..i], slot)
    {
      FlatMapNext(items, KidsAt(slot), i);
      rows := rows + Kids(items[i], slot);
    }
    assert items[..|items|] == items;
  }

  /** `{row[key]: row for row in rows}` */
  method MapRows(rows: seq<Rec>) returns (table: map<Key, Rec>)
    ensures table == RowMap(rows)
  {
    table := map[];
    for i := 0 to |rows|
      invariant table == RowMap(rows[..i])
    {
      assert rows[..i + 1][..i] == rows[..i];
      table := table[KeyOf(rows[i]) := rows[i]];
    }
    assert rows[..|rows|] == rows;
  }

  /** File-level rows of one kind against the rows of the functions. */
  method CompareRows(functions: seq<Rec>, slot: Slot, rows: seq<Rec>) returns (ok: bool)
    ensures ok <==> RowMap(KidsOf(functions, slot)) == RowMap(rows)
  {
    var embedded := Collect(functions, slot);
    var inner := MapRows(embedded);
    var public := MapRows(rows);
    ok := inner == public;
  }

  method CompareViews(f: Rec) returns (ok: bool)
    ensures ok <==> TwoViews(f)
  {
    ok := CompareRows(Kids(f, Functions), Statements, Kids(f, Lines));
    if !ok { return; }
    ok := CompareRows(Kids(f, Functions), Sites, Kids(f, Sites));
    if !ok { return; }
    ok := CompareRows(Kids(f, Functions), Branches, Kids(f, Branches));
  }

  method ValidateFile(f: Rec) returns (ok: bool)
    ensures ok <==> FileOk(f)
  {
    if !f.meta.FileMeta? || f.meta.path == "" { return false; }
    ok := ValidateFunctions(Kids(f, Functions));
    if !ok { return; }
    ok := ValidateLines(Kids(f, Lines));
    if !ok { return; }
    ok := ValidateSites(Kids(f, Sites));
    if !ok { return; }
    ok := ValidateBranches(Kids(f, Branches));
    if !ok { return; }
    ok := CompareViews(f);
    if !ok { return; }
    ok := CheckFileCounts(f);
  }

  /** The `files` part of the artifact. */
  method ValidateFiles(files: seq<Rec>) returns (ok: bool)
    ensures ok <==> FilesOk(files)
  {
    for i := 0 to |files|
      invariant forall j :: 0 <= j < i ==> FileOk(files[j])
    {
      ok := ValidateFile(files[i]);
      if !ok { return; }
    }
    ok := CheckDistinct(files);
    if !ok { return; }
    var sites := Collect(files, Sites);
    var branches := Collect(files, Branches);
    ok := CheckDistinct(sites + branches);
    if !ok { return; }
    var edges := Collect(branches, Edges);
    ok := CheckDistinct(edges);
  }

  // ---------------------------------------------------------------- the summary

  /** The recount of the totals. */
  method CheckTotals(s: Summary, files: seq<Rec>) returns (ok: bool)
    ensures ok <==> TotalsOk(s, files)
  {
    var functions := Collect(files, Functions);
    var lines := Collect(files, Lines);
    var sites := Collect(files, Sites);
    var branches := Collect(files, Branches);
    var loaded, withStatements := CountFiles(files);
    var functionsHit := CountHits(functions);
    var functionsEligible, functionsInstrumented, statementEligible, statementInstrumented := CountFunctions(functions);
    var linesHit := CountHits(lines);
    var sitesEligible, sitesInstrumented, sitesHit := CountSites(sites);
    var branchesEligible, branchesInstrumented, _ := CountSites(branches);
    var branchesFound, branchesHit := SumEdges(branches);
    ok := s.filesFound == |files| && s.filesLoaded == loaded && s.filesWithStatements == withStatements
          && s.functionsFound == |functions| && s.functionsHit == functionsHit
          && s.functionsEligible == functionsEligible && s.functionsInstrumented == functionsInstrumented
          && s.statementFunctionsEligible == statementEligible && s.statementFunctionsInstrumented == statementInstrumented
          && s.linesFound == |lines| && s.linesHit == linesHit
          && s.statementSitesFound == sitesEligible && s.statementSitesInstrumented == sitesInstrumented
          && s.statementSitesHit == sitesHit
          && s.branchSitesEligible == branchesEligible && s.branchSitesInstrumented == branchesInstrumented
          && s.branchesFound == branchesFound && s.branchesHit == branchesHit;
  }

  /** `validate_summary`: no count exceeds what it is measured against, and a flag says complete exactly
      when its mode is on and all of a non-empty set was measured. */
  method ValidateSummary(s: Summary) returns (ok: bool)
    ensures ok <==> BoundsOk(s) && FlagsOk(s) && forall reason :: reason in s.fallbackCounts ==> reason in FALLBACKS
  {
    if s.linesHit > s.linesFound || s.functionsHit > s.functionsFound || s.statementSitesHit > s.statementSitesFound
       || s.statementSitesInstrumented > s.statementSitesFound || s.branchesHit > s.branchesFound
       || s.branchSitesInstrumented > s.branchSitesEligible || s.functionsInstrumented > s.functionsEligible
       || s.statementFunctionsInstrumented > s.statementFunctionsEligible {
      return false;
    }
    if s.statementSiteInstrumentationComplete !=
       (s.statementMode && s.statementSitesFound > 0 && s.statementSitesInstrumented == s.statementSitesFound) {
      return false;
    }
    if s.branchInstrumentationComplete !=
       (s.branchMode && s.branchSitesEligible > 0 && s.branchSitesInstrumented == s.branchSitesEligible) {
      return false;
    }
    if s.statementInstrumentationComplete !=
       (s.statementMode && s.statementFunctionsEligible > 0
        && s.statementFunctionsInstrumented == s.statementFunctionsEligible) {
      return false;
    }
    ok := forall reason | reason in s.fallbackCounts :: reason in {
      "none", "statement_mode_disabled", "source_not_loaded", "function_wrapper_unavailable", "rewrite_rejected"};
  }

  /** What the checker's own tally holds after some functions. */
  ghost predicate Tallied(counts: map<string, nat>, declared: set<string>, functions: seq<Rec>) {
    && counts.Keys == declared + Reasons(functions)
    && forall reason :: reason in counts ==>
         counts[reason] == if reason == "none" then 0 else Count(functions, Because(reason))
  }

  /** One more function: a reason other than "none" is counted once more. */
  ghost predicate OneMore(counts: map<string, nat>, f: Rec, next: map<string, nat>) {
    next == if ReasonOf(f) == "none" then counts
            else counts[ReasonOf(f) := (if ReasonOf(f) in counts then counts[ReasonOf(f)] else 0) + 1]
  }

  lemma {:induction false} TallyNext(
      counts: map<string, nat>, declared: set<string>, functions: seq<Rec>, i: nat, next: map<string, nat>)
    requires i < |functions| && Tallied(counts, declared, functions[..i]) && OneMore(counts, functions[i], next)
    ensures Tallied(next, declared, functions[..i + 1])
  {
    ReasonsNext(functions, i);
    forall other | other in next && other != "none"
      ensures next[other] == Count(functions[..i + 1], Because(other))
    {
      CountNext(functions, i, Because(other));
      if other !in counts { NoneBecause(functions[..i], other); }
    }
  }

  lemma {:induction false} ReasonsNext(functions: seq<Rec>, i: nat)
    requires i < |functions|
    ensures Reasons(functions[..i + 1]) ==
            Reasons(functions[..i]) + if ReasonOf(functions[i]) == "none" then {} else {ReasonOf(functions[i])}
  {
    TakeNext(functions, i);
  }

  lemma {:induction false} NoneBecause(functions: seq<Rec>, reason: string)
    requires reason != "none" && reason !in Reasons(functions)
    ensures Count(functions, Because(reason)) == 0
  {
    NoneCounted(functions, Because(reason));
  }

  method CountReason(counts: map<string, nat>, f: Rec) returns (next: map<string, nat>)
    ensures OneMore(counts, f, next)
  {
    next := counts;
    if f.meta.FunctionMeta? && f.meta.fallbackReason != "none" {
      var reason := f.meta.fallbackReason;
      if reason !in next { next := next[reason := 0]; }
      next := next[reason := next[reason] + 1];
    }
  }

  /** Declared reasons start at zero, others when they first occur. */
  method TallyReasons(declared: map<string, nat>, functions: seq<Rec>) returns (counts: map<string, nat>)
    ensures Tallied(counts, declared.Keys, functions)
  {
    counts := map reason | reason in declared :: 0;
    for i := 0 to |functions|
      invariant Tallied(counts, declared.Keys, functions[..i])
    {
      var next := CountReason(counts, functions[i]);
      TallyNext(counts, declared.Keys, functions, i, next);
      counts := next;
    }
    assert functions[..|functions|] == functions;
  }

  /** The tally of the reasons, compared with the declared one. */
  method CheckFallbacks(s: Summary, functions: seq<Rec>) returns (ok: bool)
    ensures ok <==> Tallied(s.fallbackCounts, s.fallbackCounts.Keys, functions)
  {
    var counts := TallyReasons(s.fallbackCounts, functions);
    ok := s.fallbackCounts == counts;
    if Tallied(s.fallbackCounts, s.fallbackCounts.Keys, functions) { OneTally(s.fallbackCounts, counts, functions); }
  }

  lemma {:induction false} OneTally(a: map<string, nat>, b: map<string, nat>, functions: seq<Rec>)
    requires Tallied(a, a.Keys, functions) && Tallied(b, a.Keys, functions)
    ensures a == b
  {}

  /** `validate_coverage_artifact`, as far as files and summary go. */
  method ValidateArtifact(s: Summary, files: seq<Rec>) returns (ok: bool)
    ensures ok <==> FilesOk(files) && SummaryOk(s, files)
  {
    ok := ValidateSummary(s);
    if !ok { return; }
    ok := ValidateFiles(files);
    if !ok { return; }
    ok := CheckTotals(s, files);
    if !ok { return; }
    var functions := Collect(files, Functions);
    ok := CheckFallbacks(s, functions);
  }
}
