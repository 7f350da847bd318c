/** What the recomputed coverage numbers count, said of the fields of the rows. */
module CoverageCounts {
  import opened Seqs
  import opened Records
  import opened CoverageContract
  import opened Recompute

  // ---------------------------------------------------------------- positions in one list

  ghost function Hit(rows: seq<Rec>): set<nat> {
    set i: nat | i < |rows| && rows[i].hits.Some? && rows[i].hits.value > 0
  }

  ghost function Eligible(sites: seq<Rec>): set<nat> {
    set i: nat | i < |sites| && (sites[i].meta.SiteMeta? || sites[i].meta.BranchMeta?) && sites[i].meta.eligible
  }

  ghost function Instrumented(sites: seq<Rec>): set<nat> {
    set i: nat | i < |sites| && (sites[i].meta.SiteMeta? || sites[i].meta.BranchMeta?) && sites[i].meta.instrumented
  }

  lemma {:induction false} HitCounted(rows: seq<Rec>)
    ensures Count(rows, IsHit) == |Hit(rows)|
  {
    CountedAt(rows, IsHit);
    assert Positions(rows, |rows|, IsHit) == Hit(rows);
  }

  lemma {:induction false} SitesCounted(sites: seq<Rec>)
    ensures Count(sites, IsEligible) == |Eligible(sites)|
    ensures Count(sites, IsInstrumented) == |Instrumented(sites)|
    ensures Count(sites, IsEligibleHit) == |Eligible(sites) * Hit(sites)|
  {
    CountedAt(sites, IsEligible);
    CountedAt(sites, IsInstrumented);
    CountedAt(sites, IsEligibleHit);
    assert Positions(sites, |sites|, IsEligible) == Eligible(sites);
    assert Positions(sites, |sites|, IsInstrumented) == Instrumented(sites);
    assert Positions(sites, |sites|, IsEligibleHit) == Eligible(sites) * Hit(sites);
  }

  /** The edges of eligible branches, by the positions of branch and edge. */
  ghost function EligibleEdges(branches: seq<Rec>, n: nat): set<(nat, nat)>
    requires n <= |branches|
  {
    set i: nat, j: nat | i < n && i in Eligible(branches) && j < |Kids(branches[i], Edges)| :: (i, j)
  }

  /** Those of them that were taken. */
  ghost function TakenEdges(branches: seq<Rec>, n: nat): set<(nat, nat)>
    requires n <= |branches|
  {
    set i: nat, j: nat | i < n && i in Eligible(branches) && j in Hit(Kids(branches[i], Edges)) :: (i, j)
  }

  ghost function Tagged(i: nat, js: set<nat>): set<(nat, nat)> { set j | j in js :: (i, j) }

  lemma {:induction false} TaggedSize(i: nat, js: set<nat>)
    ensures |Tagged(i, js)| == |js|
    decreases |js|
  {
    if js == {} {
      assert Tagged(i, js) == {};
    } else {
      var j :| j in js;
      TaggedSize(i, js - {j});
      assert Tagged(i, js) == Tagged(i, js - {j}) + {(i, j)};
    }
  }

  ghost function Below(n: nat): (s: set<nat>)
    ensures |s| == n && forall i: nat :: i in s <==> i < n
  {
    if n == 0 then {} else Below(n - 1) + {n - 1}
  }

  lemma {:induction false} EligibleEdgesCounted(branches: seq<Rec>, n: nat)
    requires n <= |branches|
    ensures Sum(branches[..n], EdgeCountIfEligible) == |EligibleEdges(branches, n)|
  {
    if n == 0 {
      assert EligibleEdges(branches, 0) == {};
    } else {
      EligibleEdgesCounted(branches, n - 1);
      SumNext(branches, n - 1, EdgeCountIfEligible);
      TaggedSize(n - 1, Below(|Kids(branches[n - 1], Edges)|));
      NextEligible(branches, n);
    }
  }

  lemma {:induction false} EligibleEdge(branches: seq<Rec>, n: nat, p: (nat, nat))
    requires n <= |branches|
    ensures p in EligibleEdges(branches, n) <==>
            p.0 < n && p.0 in Eligible(branches) && p.1 < |Kids(branches[p.0], Edges)|
  {}

  lemma {:induction false} TaggedMember(i: nat, js: set<nat>, p: (nat, nat))
    ensures p in Tagged(i, js) <==> p.0 == i && p.1 in js
  {}

  lemma {:induction false} NextEligible(branches: seq<Rec>, n: nat)
    requires 0 < n <= |branches|
    ensures var mine := Tagged(n - 1, Below(|Kids(branches[n - 1], Edges)|));
            && EligibleEdges(branches, n - 1) !! mine
            && EligibleEdges(branches, n) ==
               EligibleEdges(branches, n - 1) + (if n - 1 in Eligible(branches) then mine else {})
  {
    var mine := Tagged(n - 1, Below(|Kids(branches[n - 1], Edges)|));
    forall p
      ensures p in EligibleEdges(branches, n) <==>
              p in EligibleEdges(branches, n - 1) || (n - 1 in Eligible(branches) && p in mine)
      ensures p in mine ==> p !in EligibleEdges(branches, n - 1)
    {
      EligibleEdge(branches, n, p);
      EligibleEdge(branches, n - 1, p);
      TaggedMember(n - 1, Below(|Kids(branches[n - 1], Edges)|), p);
    }
  }

  lemma {:induction false} TakenEdgesCounted(branches: seq<Rec>, n: nat)
    requires n <= |branches|
    ensures Sum(branches[..n], HitEdgesIfEligible) == |TakenEdges(branches, n)|
  {
    if n == 0 {
      assert TakenEdges(branches, 0) == {};
    } else {
      TakenEdgesCounted(branches, n - 1);
      SumNext(branches, n - 1, HitEdgesIfEligible);
      HitCounted(Kids(branches[n - 1], Edges));
      TaggedSize(n - 1, Hit(Kids(branches[n - 1], Edges)));
      NextTaken(branches, n);
    }
  }

  lemma {:induction false} TakenEdge(branches: seq<Rec>, n: nat, p: (nat, nat))
    requires n <= |branches|
    ensures p in TakenEdges(branches, n) <==>
            p.0 < n && p.0 in Eligible(branches) && p.1 in Hit(Kids(branches[p.0], Edges))
  {}

  lemma {:induction false} NextTaken(branches: seq<Rec>, n: nat)
    requires 0 < n <= |branches|
    ensures var mine := Tagged(n - 1, Hit(Kids(branches[n - 1], Edges)));
            && TakenEdges(branches, n - 1) !! mine
            && TakenEdges(branches, n) ==
               TakenEdges(branches, n - 1) + (if n - 1 in Eligible(branches) then mine else {})
  {
    var mine := Tagged(n - 1, Hit(Kids(branches[n - 1], Edges)));
    forall p
      ensures p in TakenEdges(branches, n) <==>
              p in TakenEdges(branches, n - 1) || (n - 1 in Eligible(branches) && p in mine)
      ensures p in mine ==> p !in TakenEdges(branches, n - 1)
    {
      TakenEdge(branches, n, p);
      TakenEdge(branches, n - 1, p);
      TaggedMember(n - 1, Hit(Kids(branches[n - 1], Edges)), p);
    }
  }

  // ---------------------------------------------------------------- functions

  /** What the aggregates of a rebuilt function count. */
  lemma {:induction false} FunctionCountsMean(f: Rec)
    ensures var statements, sites, branches := Kids(f, Statements), Kids(f, Sites), Kids(f, Branches);
            var g := RecomputeFunction(f);
            && g.covered == (f.hits.Some? && f.hits.value > 0)
            && Shows(g, StatementFound, |statements|) && Shows(g, StatementHit, |Hit(statements)|)
            && Shows(g, StatementSitesFound, |Eligible(sites)|)
            && Shows(g, StatementSitesInstrumented, |Instrumented(sites)|)
            && Shows(g, StatementSitesHit, |Eligible(sites) * Hit(sites)|)
            && Shows(g, BranchSitesEligible, |Eligible(branches)|)
            && Shows(g, BranchSitesInstrumented, |Instrumented(branches)|)
            && Shows(g, BranchFound, |EligibleEdges(branches, |branches|)|)
            && Shows(g, BranchHit, |TakenEdges(branches, |branches|)|)
  {
    FunctionShows(f);
    HitCounted(Kids(f, Statements));
    SitesCounted(Kids(f, Sites));
    SitesCounted(Kids(f, Branches));
    AllEdgesCounted(Kids(f, Branches));
  }

  lemma {:induction false} FunctionShows(f: Rec)
    ensures var statements, sites, branches := Kids(f, Statements), Kids(f, Sites), Kids(f, Branches);
            var g := RecomputeFunction(f);
            && Shows(g, StatementFound, |statements|) && Shows(g, StatementHit, Count(statements, IsHit))
            && Shows(g, StatementSitesFound, Count(sites, IsEligible))
            && Shows(g, StatementSitesInstrumented, Count(sites, IsInstrumented))
            && Shows(g, StatementSitesHit, Count(sites, IsEligibleHit))
            && Shows(g, BranchSitesEligible, Count(branches, IsEligible))
            && Shows(g, BranchSitesInstrumented, Count(branches, IsInstrumented))
            && Shows(g, BranchFound, Sum(branches, EdgeCountIfEligible))
            && Shows(g, BranchHit, Sum(branches, HitEdgesIfEligible))
  {}

  lemma {:induction false} AllEdgesCounted(branches: seq<Rec>)
    ensures Sum(branches, EdgeCountIfEligible) == |EligibleEdges(branches, |branches|)|
    ensures Sum(branches, HitEdgesIfEligible) == |TakenEdges(branches, |branches|)|
  {
    EligibleEdgesCounted(branches, |branches|);
    TakenEdgesCounted(branches, |branches|);
    assert branches[..|branches|] == branches;
  }

  /** What the two aggregates of a rebuilt file-level branch count. */
  lemma {:induction false} BranchCountsMean(b: Rec)
    ensures var g, edges := RecomputeBranch(b), Kids(b, Edges);
            && Shows(g, EdgesHit, |Hit(edges)|)
            && Shows(g, EdgesFound, if (b.meta.SiteMeta? || b.meta.BranchMeta?) && b.meta.eligible then |edges| else 0)
  {
    HitCounted(Kids(b, Edges));
  }

  // ---------------------------------------------------------------- files

  ghost function StatementInstrumented(functions: seq<Rec>): set<nat> {
    set i: nat | i < |functions| && functions[i].meta.FunctionMeta? && functions[i].meta.statementInstrumented
  }

  ghost function StatementEligible(functions: seq<Rec>): set<nat> {
    set i: nat | i < |functions| && functions[i].meta.FunctionMeta? && functions[i].meta.statementEligible
  }

  ghost function FunctionInstrumented(functions: seq<Rec>): set<nat> {
    set i: nat | i < |functions| && functions[i].meta.FunctionMeta? && functions[i].meta.functionInstrumented
  }

  ghost function FunctionEligible(functions: seq<Rec>): set<nat> {
    set i: nat | i < |functions| && functions[i].meta.FunctionMeta? && functions[i].meta.functionEligible
  }

  lemma {:induction false} FunctionsCounted(functions: seq<Rec>)
    ensures Count(functions, IsStatementInstrumented) == |StatementInstrumented(functions)|
    ensures Count(functions, IsStatementEligible) == |StatementEligible(functions)|
    ensures Count(functions, IsFunctionInstrumented) == |FunctionInstrumented(functions)|
    ensures Count(functions, IsFunctionEligible) == |FunctionEligible(functions)|
  {
    CountedAt(functions, IsStatementInstrumented);
    CountedAt(functions, IsStatementEligible);
    CountedAt(functions, IsFunctionInstrumented);
    CountedAt(functions, IsFunctionEligible);
    assert Positions(functions, |functions|, IsStatementInstrumented) == StatementInstrumented(functions);
    assert Positions(functions, |functions|, IsStatementEligible) == StatementEligible(functions);
    assert Positions(functions, |functions|, IsFunctionInstrumented) == FunctionInstrumented(functions);
    assert Positions(functions, |functions|, IsFunctionEligible) == FunctionEligible(functions);
  }

  /** What the aggregates of a rebuilt file count, over the lists it then has. */
  lemma {:induction false} FileCountsMean(f: Rec)
    ensures var g := RecomputeFile(f);
            var functions, lines, sites, branches := Kids(g, Functions), Kids(g, Lines), Kids(g, Sites), Kids(g, Branches);
            && Shows(g, FunctionFound, |functions|) && Shows(g, FunctionHit, |Hit(functions)|)
            && Shows(g, StatementFunctionsInstrumented, |StatementInstrumented(functions)|)
            && Shows(g, LineFound, |lines|) && Shows(g, LineHit, |Hit(lines)|)
            && Shows(g, StatementSitesEligible, |Eligible(sites)|)
            && Shows(g, StatementSitesInstrumented, |Instrumented(sites)|)
            && Shows(g, StatementSitesHit, |Eligible(sites) * Hit(sites)|)
            && Shows(g, BranchSitesEligible, |Eligible(branches)|)
            && Shows(g, BranchSitesInstrumented, |Instrumented(branches)|)
            && Shows(g, BranchFound, |EligibleEdges(branches, |branches|)|)
            && Shows(g, BranchHit, |TakenEdges(branches, |branches|)|)
  {
    var g := RecomputeFile(f);
    RebuiltCounts(f);
    ListsCounted(Kids(g, Functions), Kids(g, Lines), Kids(g, Sites), Kids(g, Branches));
    ShownTotals(g, FileTotals(Kids(g, Functions), Kids(g, Lines), Kids(g, Sites), Kids(g, Branches)));
  }

  lemma {:induction false} ShownTotals(g: Rec, totals: map<Field, nat>)
    requires forall field :: field in totals ==> Shows(g, field, totals[field])
    requires totals == FileTotals(Kids(g, Functions), Kids(g, Lines), Kids(g, Sites), Kids(g, Branches))
    ensures var functions, lines, sites, branches := Kids(g, Functions), Kids(g, Lines), Kids(g, Sites), Kids(g, Branches);
            && Shows(g, FunctionFound, |functions|) && Shows(g, FunctionHit, Count(functions, IsHit))
            && Shows(g, StatementFunctionsInstrumented, Count(functions, IsStatementInstrumented))
            && Shows(g, LineFound, |lines|) && Shows(g, LineHit, Count(lines, IsHit))
            && Shows(g, StatementSitesEligible, Count(sites, IsEligible))
            && Shows(g, StatementSitesInstrumented, Count(sites, IsInstrumented))
            && Shows(g, StatementSitesHit, Count(sites, IsEligibleHit))
            && Shows(g, BranchSitesEligible, Count(branches, IsEligible))
            && Shows(g, BranchSitesInstrumented, Count(branches, IsInstrumented))
            && Shows(g, BranchFound, Sum(branches, EdgeCountIfEligible))
            && Shows(g, BranchHit, Sum(branches, HitEdgesIfEligible))
  {
    assert FunctionFound in totals && FunctionHit in totals && StatementFunctionsInstrumented in totals;
    assert LineFound in totals && LineHit in totals && StatementSitesEligible in totals;
    assert StatementSitesInstrumented in totals && StatementSitesHit in totals;
    assert BranchSitesEligible in totals && BranchSitesInstrumented in totals;
    assert BranchFound in totals && BranchHit in totals;
  }

  lemma {:induction false} ListsCounted(functions: seq<Rec>, lines: seq<Rec>, sites: seq<Rec>, branches: seq<Rec>)
    ensures Count(functions, IsHit) == |Hit(functions)| && Count(lines, IsHit) == |Hit(lines)|
    ensures Count(functions, IsStatementInstrumented) == |StatementInstrumented(functions)|
    ensures Count(sites, IsEligible) == |Eligible(sites)| && Count(sites, IsInstrumented) == |Instrumented(sites)|
    ensures Count(sites, IsEligibleHit) == |Eligible(sites) * Hit(sites)|
    ensures Count(branches, IsEligible) == |Eligible(branches)| && Count(branches, IsInstrumented) == |Instrumented(branches)|
    ensures Sum(branches, EdgeCountIfEligible) == |EligibleEdges(branches, |branches|)|
    ensures Sum(branches, HitEdgesIfEligible) == |TakenEdges(branches, |branches|)|
  {
    HitCounted(functions);
    HitCounted(lines);
    FunctionsCounted(functions);
    SitesCounted(sites);
    SitesCounted(branches);
    AllEdgesCounted(branches);
  }

  // ---------------------------------------------------------------- the summary

  ghost function Loaded(files: seq<Rec>): set<nat> {
    set i: nat | i < |files| && files[i].meta.FileMeta? && files[i].meta.loaded
  }

  ghost function WithLines(files: seq<Rec>): set<nat> {
    set i: nat | i < |files| && Kids(files[i], Lines) != []
  }

  /** What the totals of the recomputed summary count, over all rows of the rebuilt files. */
  lemma {:induction false} SummaryCountsMean(files: seq<Rec>, first: Summary)
    ensures var out := Each(files, RecomputeFile);
            var s := RecomputeSummary(out, first);
            var functions, lines := KidsOf(out, Functions), KidsOf(out, Lines);
            var sites, branches := KidsOf(out, Sites), KidsOf(out, Branches);
            && s.filesFound == |files| && s.filesLoaded == |Loaded(out)| && s.filesWithStatements == |WithLines(out)|
            && s.functionsFound == |functions| && s.functionsHit == |Hit(functions)|
            && s.functionsEligible == |FunctionEligible(functions)|
            && s.functionsInstrumented == |FunctionInstrumented(functions)|
            && s.statementFunctionsEligible == |StatementEligible(functions)|
            && s.statementFunctionsInstrumented == |StatementInstrumented(functions)|
            && s.linesFound == |lines| && s.linesHit == |Hit(lines)|
            && s.statementSitesFound == |Eligible(sites)|
            && s.statementSitesInstrumented == |Instrumented(sites)|
            && s.statementSitesHit == |Eligible(sites) * Hit(sites)|
            && s.branchSitesEligible == |Eligible(branches)|
            && s.branchSitesInstrumented == |Instrumented(branches)|
            && s.branchesFound == |EligibleEdges(branches, |branches|)|
            && s.branchesHit == |TakenEdges(branches, |branches|)|
  {
    var out := Each(files, RecomputeFile);
    RebuiltTotals(files, first);
    ListsCounted(KidsOf(out, Functions), KidsOf(out, Lines), KidsOf(out, Sites), KidsOf(out, Branches));
    FunctionsCounted(KidsOf(out, Functions));
    FilesCounted(files);
    BranchTotals(files);
  }

  lemma {:induction false} FilesCounted(files: seq<Rec>)
    ensures var out := Each(files, RecomputeFile);
            Count(out, IsLoaded) == |Loaded(out)| && Count(out, HasStatements) == |WithLines(out)|
  {
    var out := Each(files, RecomputeFile);
    LoadedCounted(out);
    forall i: nat | i < |out|
      ensures HasStatements(out[i]) <==> Kids(out[i], Lines) != []
    {
      LinesShown(files[i]);
    }
    LinedCounted(out);
  }

  lemma {:induction false} LoadedCounted(files: seq<Rec>)
    ensures Count(files, IsLoaded) == |Loaded(files)|
  {
    CountedAt(files, IsLoaded);
    assert Positions(files, |files|, IsLoaded) == Loaded(files);
  }

  lemma {:induction false} LinedCounted(files: seq<Rec>)
    requires forall i: nat :: i < |files| ==> (HasStatements(files[i]) <==> Kids(files[i], Lines) != [])
    ensures Count(files, HasStatements) == |WithLines(files)|
  {
    CountedAt(files, HasStatements);
    assert Positions(files, |files|, HasStatements) == WithLines(files);
  }

  lemma {:induction false} LinesShown(f: Rec)
    ensures HasStatements(RecomputeFile(f)) <==> Kids(RecomputeFile(f), Lines) != []
  {
    FileCountsMean(f);
  }

  /** The rebuilt branches show the edges they have. */
  lemma {:induction false} BranchTotals(files: seq<Rec>)
    ensures var branches := KidsOf(Each(files, RecomputeFile), Branches);
            && Sum(branches, EdgesFoundIfEligible) == Sum(branches, EdgeCountIfEligible)
            && Sum(branches, EdgesHitIfEligible) == Sum(branches, HitEdgesIfEligible)
  {
    if files != [] {
      var f, rest := files[0], files[1..];
      BranchTotals(rest);
      assert Each(files, RecomputeFile)[1..] == Each(rest, RecomputeFile);
      var mine := Kids(RecomputeFile(f), Branches);
      assert mine == Each(Kids(f, Branches), RecomputeBranch);
      RebuiltBranches(Kids(f, Branches));
      var others := KidsOf(Each(rest, RecomputeFile), Branches);
      SumAppend(mine, others, EdgesFoundIfEligible);
      SumAppend(mine, others, EdgeCountIfEligible);
      SumAppend(mine, others, EdgesHitIfEligible);
      SumAppend(mine, others, HitEdgesIfEligible);
    }
  }
}
