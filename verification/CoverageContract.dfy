/** The independent checker of a coverage artifact (`validate_coverage_artifact`). */
module CoverageContract {
  import opened Seqs
  import opened Records

  // ---------------------------------------------------------------- counting

  predicate IsHit(r: Rec) { r.hits.Some? && r.hits.value > 0 }

  predicate IsSite(r: Rec) { r.meta.SiteMeta? || r.meta.BranchMeta? }

  predicate IsEligible(r: Rec) { IsSite(r) && r.meta.eligible }

  predicate IsInstrumented(r: Rec) { IsSite(r) && r.meta.instrumented }

  predicate IsEligibleHit(r: Rec) { IsEligible(r) && IsHit(r) }

  function Shown(r: Rec, field: Field): nat {
    if field in r.derived then r.derived[field] else 0
  }

  predicate Shows(r: Rec, field: Field, n: nat) {
    field in r.derived && r.derived[field] == n
  }

  function EdgesFoundIfEligible(r: Rec): nat { if IsEligible(r) then Shown(r, EdgesFound) else 0 }

  function EdgesHitIfEligible(r: Rec): nat { if IsEligible(r) then Shown(r, EdgesHit) else 0 }

  function HitEdges(r: Rec): nat { Count(Kids(r, Edges), IsHit) }

  // ---------------------------------------------------------------- records

  /** `validate_hit_record`. */
  predicate HitOk(r: Rec) {
    r.hits.Some? && r.covered == (r.hits.value > 0)
  }

  predicate LineOk(r: Rec) { r.meta.LineMeta? && HitOk(r) && r.derived == map[] }

  predicate SiteOk(r: Rec) {
    && r.meta.SiteMeta?
    && (r.meta.instrumented ==> r.meta.eligible)
    && HitOk(r)
    && (!r.meta.instrumented ==> r.hits.value == 0)
  }

  predicate EdgeOk(e: Rec, instrumented: bool) {
    && e.meta.EdgeMeta? && e.meta.index < 2
    && e.meta.edgeLabel == (if e.meta.index == 0 then "true" else "false")
    && HitOk(e)
    && (!instrumented ==> e.hits.value == 0)
  }

  /** Everything `validate_site` checks of a branch except its two aggregates. */
  predicate BranchShape(r: Rec) {
    && r.meta.BranchMeta?
    && (r.meta.instrumented ==> r.meta.eligible)
    && var es := Kids(r, Edges);
       && |es| == 2
       && EdgeOk(es[0], r.meta.instrumented) && EdgeOk(es[1], r.meta.instrumented)
       && es[0].meta.index != es[1].meta.index
       && es[0].meta.edgeId != es[1].meta.edgeId
  }

  /** The aggregates of a branch agree with its edges. */
  predicate BranchFresh(r: Rec) {
    && Shows(r, EdgesFound, if IsEligible(r) then 2 else 0)
    && Shows(r, EdgesHit, if IsEligible(r) then HitEdges(r) else 0)
  }

  predicate BranchOk(r: Rec) { BranchShape(r) && BranchFresh(r) }

  const FALLBACKS: set<string> :=
    {"none", "statement_mode_disabled", "source_not_loaded", "function_wrapper_unavailable", "rewrite_rejected"}

  ghost predicate All(rs: seq<Rec>, q: Rec -> bool) {
    forall r :: r in rs ==> q(r)
  }

  /** What is checked of a function apart from aggregates. */
  ghost predicate FunctionShape(f: Rec) {
    && f.meta.FunctionMeta? && HitOk(f)
    && (f.meta.functionInstrumented ==> f.meta.functionEligible)
    && f.meta.fallbackReason in FALLBACKS
    && DistinctKeys(Kids(f, Statements)) && All(Kids(f, Statements), LineOk)
    && All(Kids(f, Sites), SiteOk)
    && All(Kids(f, Branches), BranchShape)
  }

  predicate FunctionCounts(f: Rec) {
    var statements, sites, branches := Kids(f, Statements), Kids(f, Sites), Kids(f, Branches);
    && Shows(f, StatementFound, |statements|)
    && Shows(f, StatementHit, Count(statements, IsHit))
    && Shows(f, StatementSitesFound, Count(sites, IsEligible))
    && Shows(f, StatementSitesHit, Count(sites, IsEligibleHit))
    && Shows(f, StatementSitesInstrumented, Count(sites, IsInstrumented))
    && Shows(f, BranchSitesEligible, Count(branches, IsEligible))
    && Shows(f, BranchSitesInstrumented, Count(branches, IsInstrumented))
    && Shows(f, BranchFound, Sum(branches, EdgesFoundIfEligible))
    && Shows(f, BranchHit, Sum(branches, EdgesHitIfEligible))
  }

  ghost predicate FunctionOk(f: Rec) {
    FunctionShape(f) && All(Kids(f, Branches), BranchFresh) && FunctionCounts(f)
  }

  predicate IsStatementInstrumented(f: Rec) { f.meta.FunctionMeta? && f.meta.statementInstrumented }

  /** What is checked of a file apart from aggregates. */
  ghost predicate FileShape(f: Rec) {
    && f.meta.FileMeta? && f.meta.path != ""
    && DistinctKeys(Kids(f, Functions)) && All(Kids(f, Functions), FunctionShape)
    && DistinctKeys(Kids(f, Lines)) && All(Kids(f, Lines), LineOk)
    && All(Kids(f, Sites), SiteOk)
    && All(Kids(f, Branches), BranchShape)
  }

  predicate FileCounts(f: Rec) {
    var functions, lines, sites, branches := Kids(f, Functions), Kids(f, Lines), Kids(f, Sites), Kids(f, Branches);
    && Shows(f, FunctionFound, |functions|)
    && Shows(f, FunctionHit, Count(functions, IsHit))
    && Shows(f, StatementFunctionsInstrumented, Count(functions, IsStatementInstrumented))
    && Shows(f, LineFound, |lines|)
    && Shows(f, LineHit, Count(lines, IsHit))
    && Shows(f, StatementSitesEligible, Count(sites, IsEligible))
    && Shows(f, StatementSitesInstrumented, Count(sites, IsInstrumented))
    && Shows(f, StatementSitesHit, Count(sites, IsEligibleHit))
    && Shows(f, BranchSitesEligible, Count(branches, IsEligible))
    && Shows(f, BranchSitesInstrumented, Count(branches, IsInstrumented))
    && Shows(f, BranchFound, Sum(branches, EdgesFoundIfEligible))
    && Shows(f, BranchHit, Sum(branches, EdgesHitIfEligible))
  }

  /** `{row[key]: row for row in rows}`: the last row of a key wins. */
  function RowMap(rows: seq<Rec>): map<Key, Rec> {
    if rows == [] then map[]
    else RowMap(rows[..|rows| - 1])[KeyOf(rows[|rows| - 1]) := rows[|rows| - 1]]
  }

  /** The file-level rows are the rows of the functions. */
  predicate TwoViews(f: Rec) {
    && RowMap(KidsOf(Kids(f, Functions), Statements)) == RowMap(Kids(f, Lines))
    && RowMap(KidsOf(Kids(f, Functions), Sites)) == RowMap(Kids(f, Sites))
    && RowMap(KidsOf(Kids(f, Functions), Branches)) == RowMap(Kids(f, Branches))
  }

  ghost predicate FileOk(f: Rec) {
    && FileShape(f)
    && All(Kids(f, Functions), FunctionOk)
    && All(Kids(f, Branches), BranchFresh)
    && TwoViews(f)
    && FileCounts(f)
  }

  /** The `files` part of the artifact. */
  ghost predicate FilesOk(files: seq<Rec>) {
    && All(files, FileOk)
    && DistinctKeys(files)
    && DistinctKeys(KidsOf(files, Sites) + KidsOf(files, Branches))
    && DistinctKeys(KidsOf(KidsOf(files, Branches), Edges))
  }

  // ---------------------------------------------------------------- the summary

  datatype Summary = Summary(
    filesFound: nat, filesLoaded: nat, filesWithStatements: nat,
    functionsFound: nat, functionsHit: nat, functionsEligible: nat, functionsInstrumented: nat,
    statementFunctionsEligible: nat, statementFunctionsInstrumented: nat,
    linesFound: nat, linesHit: nat,
    statementSitesFound: nat, statementSitesHit: nat, statementSitesInstrumented: nat,
    branchesFound: nat, branchesHit: nat, branchSitesEligible: nat, branchSitesInstrumented: nat,
    statementMode: bool, branchMode: bool,
    statementSiteInstrumentationComplete: bool, branchInstrumentationComplete: bool,
    statementInstrumentationComplete: bool,
    fallbackCounts: map<string, nat>)

  predicate IsLoaded(f: Rec) { f.meta.FileMeta? && f.meta.loaded }

  predicate HasStatements(f: Rec) { Shown(f, LineFound) > 0 }

  predicate IsFunctionEligible(f: Rec) { f.meta.FunctionMeta? && f.meta.functionEligible }

  predicate IsFunctionInstrumented(f: Rec) { f.meta.FunctionMeta? && f.meta.functionInstrumented }

  predicate IsStatementEligible(f: Rec) { f.meta.FunctionMeta? && f.meta.statementEligible }

  /** `aggregate`: every total is what a recount of the files gives. */
  predicate TotalsOk(s: Summary, files: seq<Rec>) {
    var functions, lines := KidsOf(files, Functions), KidsOf(files, Lines);
    var sites, branches := KidsOf(files, Sites), KidsOf(files, Branches);
    && s.filesFound == |files|
    && s.filesLoaded == Count(files, IsLoaded)
    && s.filesWithStatements == Count(files, HasStatements)
    && s.functionsFound == |functions|
    && s.functionsHit == Count(functions, IsHit)
    && s.functionsEligible == Count(functions, IsFunctionEligible)
    && s.functionsInstrumented == Count(functions, IsFunctionInstrumented)
    && s.statementFunctionsEligible == Count(functions, IsStatementEligible)
    && s.statementFunctionsInstrumented == Count(functions, IsStatementInstrumented)
    && s.linesFound == |lines|
    && s.linesHit == Count(lines, IsHit)
    && s.statementSitesFound == Count(sites, IsEligible)
    && s.statementSitesInstrumented == Count(sites, IsInstrumented)
    && s.statementSitesHit == Count(sites, IsEligibleHit)
    && s.branchSitesEligible == Count(branches, IsEligible)
    && s.branchSitesInstrumented == Count(branches, IsInstrumented)
    && s.branchesFound == Sum(branches, EdgesFoundIfEligible)
    && s.branchesHit == Sum(branches, EdgesHitIfEligible)
  }

  /** No measured count exceeds what it is measured against. */
  predicate BoundsOk(s: Summary) {
    && s.linesHit <= s.linesFound
    && s.functionsHit <= s.functionsFound
    && s.statementSitesHit <= s.statementSitesFound
    && s.statementSitesInstrumented <= s.statementSitesFound
    && s.branchesHit <= s.branchesFound
    && s.branchSitesInstrumented <= s.branchSitesEligible
    && s.functionsInstrumented <= s.functionsEligible
    && s.statementFunctionsInstrumented <= s.statementFunctionsEligible
  }

  predicate Complete(mode: bool, measured: nat, eligible: nat) {
    mode && eligible > 0 && measured == eligible
  }

  predicate FlagsOk(s: Summary) {
    && s.statementSiteInstrumentationComplete
       == Complete(s.statementMode, s.statementSitesInstrumented, s.statementSitesFound)
    && s.branchInstrumentationComplete
       == Complete(s.branchMode, s.branchSitesInstrumented, s.branchSitesEligible)
    && s.statementInstrumentationComplete
       == Complete(s.statementMode, s.statementFunctionsInstrumented, s.statementFunctionsEligible)
  }

  function ReasonOf(f: Rec): string { if f.meta.FunctionMeta? then f.meta.fallbackReason else "none" }

  function Because(reason: string): Rec -> bool { (f: Rec) => ReasonOf(f) == reason }

  /** The checker's own tally: the declared reasons at zero, then one for every fallback. */
  ghost predicate FallbacksOk(s: Summary, functions: seq<Rec>) {
    && (forall reason :: reason in s.fallbackCounts ==> reason in FALLBACKS)
    && (forall f :: f in functions && ReasonOf(f) != "none" ==> ReasonOf(f) in s.fallbackCounts)
    && forall reason :: reason in s.fallbackCounts ==>
         s.fallbackCounts[reason] == if reason == "none" then 0 else Count(functions, Because(reason))
  }

  ghost predicate SummaryOk(s: Summary, files: seq<Rec>) {
    TotalsOk(s, files) && BoundsOk(s) && FlagsOk(s) && FallbacksOk(s, KidsOf(files, Functions))
  }
}
