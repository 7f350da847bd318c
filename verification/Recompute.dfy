/** `recompute_coverage`: the producer rebuilds the aggregates of a merged artifact. */
module Recompute {
  import opened Seqs
  import opened Records
  import opened CoverageContract

  function EdgeCountIfEligible(r: Rec): nat { if IsEligible(r) then |Kids(r, Edges)| else 0 }

  function HitEdgesIfEligible(r: Rec): nat { if IsEligible(r) then HitEdges(r) else 0 }

  function Hits(r: Rec): nat { if r.hits.Some? then r.hits.value else 0 }

  /** Only the file-level branches get fresh edge aggregates. */
  function RecomputeBranch(b: Rec): Rec {
    b.(derived := b.derived[EdgesFound := EdgeCountIfEligible(b)][EdgesHit := HitEdges(b)])
  }

  function RecomputeFunction(f: Rec): Rec {
    var statements, sites, branches := Kids(f, Statements), Kids(f, Sites), Kids(f, Branches);
    f.(covered := Hits(f) > 0,
       derived := f.derived + map[
         StatementFound := |statements|,
         StatementHit := Count(statements, IsHit),
         StatementSitesFound := Count(sites, IsEligible),
         StatementSitesInstrumented := Count(sites, IsInstrumented),
         StatementSitesHit := Count(sites, IsEligibleHit),
         BranchSitesEligible := Count(branches, IsEligible),
         BranchSitesInstrumented := Count(branches, IsInstrumented),
         BranchFound := Sum(branches, EdgeCountIfEligible),
         BranchHit := Sum(branches, HitEdgesIfEligible)])
  }

  function Each(rs: seq<Rec>, g: Rec -> Rec): (r: seq<Rec>)
    ensures |r| == |rs| && forall i :: 0 <= i < |rs| ==> r[i] == g(rs[i])
  {
    seq(|rs|, (i: nat) requires i < |rs| => g(rs[i]))
  }

  function FileTotals(functions: seq<Rec>, lines: seq<Rec>, sites: seq<Rec>, branches: seq<Rec>): map<Field, nat> {
    map[
      FunctionFound := |functions|,
      FunctionHit := Count(functions, IsHit),
      StatementFunctionsInstrumented := Count(functions, IsStatementInstrumented),
      LineFound := |lines|,
      LineHit := Count(lines, IsHit),
      StatementSitesEligible := Count(sites, IsEligible),
      StatementSitesInstrumented := Count(sites, IsInstrumented),
      StatementSitesHit := Count(sites, IsEligibleHit),
      BranchSitesEligible := Count(branches, IsEligible),
      BranchSitesInstrumented := Count(branches, IsInstrumented),
      BranchFound := Sum(branches, EdgeCountIfEligible),
      BranchHit := Sum(branches, HitEdgesIfEligible)]
  }

  function RecomputeFile(f: Rec): Rec {
    var functions, branches := Each(Kids(f, Functions), RecomputeFunction), Each(Kids(f, Branches), RecomputeBranch);
    f.(kids := f.kids[Functions := functions][Branches := branches],
       derived := f.derived + FileTotals(functions, Kids(f, Lines), Kids(f, Sites), branches))
  }

  function ShownAt(field: Field): Rec -> nat { (f: Rec) => Shown(f, field) }

  /** `summary.update(...)` over the recomputed files; the modes come from the first shard. */
  function RecomputeSummary(files: seq<Rec>, first: Summary): Summary {
    var functions := KidsOf(files, Functions);
    var statementFunctionsEligible := Count(functions, IsStatementEligible);
    var statementFunctionsInstrumented := Count(functions, IsStatementInstrumented);
    var statementSitesFound := Sum(files, ShownAt(StatementSitesEligible));
    var statementSitesInstrumented := Sum(files, ShownAt(StatementSitesInstrumented));
    var branchSitesEligible := Sum(files, ShownAt(BranchSitesEligible));
    var branchSitesInstrumented := Sum(files, ShownAt(BranchSitesInstrumented));
    Summary(
      |files|, Count(files, IsLoaded), Count(files, HasStatements),
      Sum(files, ShownAt(FunctionFound)), Sum(files, ShownAt(FunctionHit)),
      Count(functions, IsFunctionEligible), Count(functions, IsFunctionInstrumented),
      statementFunctionsEligible, statementFunctionsInstrumented,
      Sum(files, ShownAt(LineFound)), Sum(files, ShownAt(LineHit)),
      statementSitesFound, Sum(files, ShownAt(StatementSitesHit)), statementSitesInstrumented,
      Sum(files, ShownAt(BranchFound)), Sum(files, ShownAt(BranchHit)),
      branchSitesEligible, branchSitesInstrumented,
      first.statementMode, first.branchMode,
      statementSitesFound == statementSitesInstrumented,
      branchSitesEligible == branchSitesInstrumented,
      statementFunctionsEligible == statementFunctionsInstrumented,
      RecomputeFallbacks(functions, first.fallbackCounts))
  }

  function Reasons(functions: seq<Rec>): set<string> {
    set f | f in functions && ReasonOf(f) != "none" :: ReasonOf(f)
  }

  function RecomputeFallbacks(functions: seq<Rec>, declared: map<string, nat>): map<string, nat> {
    map reason | reason in declared.Keys + Reasons(functions) :: Count(functions, Because(reason))
  }

  // ---------------------------------------------------------------- the procedure

  /** `sum(int(row.get("hits", 0)) > 0 for row in rows)` */
  method CountHits(rows: seq<Rec>) returns (n: nat)
    ensures n == Count(rows, IsHit)
  {
    n := 0;
    for i := 0 to |rows|
      invariant n == Count(rows[..i], IsHit)
    {
      CountNext(rows, i, IsHit);
      if rows[i].hits.Some? && rows[i].hits.value > 0 { n := n + 1; }
    }
    assert rows[..|rows|] == rows;
  }

  /** How many sites are eligible, instrumented, and eligible and hit. */
  method CountSites(sites: seq<Rec>) returns (eligible: nat, instrumented: nat, hit: nat)
    ensures eligible == Count(sites, IsEligible) && instrumented == Count(sites, IsInstrumented)
    ensures hit == Count(sites, IsEligibleHit)
  {
    eligible, instrumented, hit := 0, 0, 0;
    for i := 0 to |sites|
      invariant eligible == Count(sites[..i], IsEligible) && instrumented == Count(sites[..i], IsInstrumented)
      invariant hit == Count(sites[..i], IsEligibleHit)
    {
      CountNext(sites, i, IsEligible);
      CountNext(sites, i, IsInstrumented);
      CountNext(sites, i, IsEligibleHit);
      var m := sites[i].meta;
      if m.SiteMeta? || m.BranchMeta? {
        if m.eligible {
          eligible := eligible + 1;
          if sites[i].hits.Some? && sites[i].hits.value > 0 { hit := hit + 1; }
        }
        if m.instrumented { instrumented := instrumented + 1; }
      }
    }
    assert sites[..|sites|] == sites;
  }

  /** The edges of eligible branches, and those that were taken. */
  method CountEdges(branches: seq<Rec>) returns (found: nat, hit: nat)
    ensures found == Sum(branches, EdgeCountIfEligible) && hit == Sum(branches, HitEdgesIfEligible)
  {
    found, hit := 0, 0;
    for i := 0 to |branches|
      invariant found == Sum(branches[..i], EdgeCountIfEligible) && hit == Sum(branches[..i], HitEdgesIfEligible)
    {
      SumNext(branches, i, EdgeCountIfEligible);
      SumNext(branches, i, HitEdgesIfEligible);
      var m := branches[i].meta;
      if (m.SiteMeta? || m.BranchMeta?) && m.eligible {
        var taken := CountHits(Kids(branches[i], Edges));
        found, hit := found + |Kids(branches[i], Edges)|, hit + taken;
      }
    }
    assert branches[..|branches|] == branches;
  }

  /** How many functions were hit, are eligible and instrumented, and are so for statements. */
  method CountFunctions(functions: seq<Rec>)
    returns (eligible: nat, instrumented: nat, statementEligible: nat, statementInstrumented: nat)
    ensures eligible == Count(functions, IsFunctionEligible) && instrumented == Count(functions, IsFunctionInstrumented)
    ensures statementEligible == Count(functions, IsStatementEligible)
    ensures statementInstrumented == Count(functions, IsStatementInstrumented)
  {
    eligible, instrumented, statementEligible, statementInstrumented := 0, 0, 0, 0;
    for i := 0 to |functions|
      invariant eligible == Count(functions[..i], IsFunctionEligible)
      invariant instrumented == Count(functions[..i], IsFunctionInstrumented)
      invariant statementEligible == Count(functions[..i], IsStatementEligible)
      invariant statementInstrumented == Count(functions[..i], IsStatementInstrumented)
    {
      CountNext(functions, i, IsFunctionEligible);
      CountNext(functions, i, IsFunctionInstrumented);
      CountNext(functions, i, IsStatementEligible);
      CountNext(functions, i, IsStatementInstrumented);
      var m := functions[i].meta;
      if m.FunctionMeta? {
        if m.functionEligible { eligible := eligible + 1; }
        if m.functionInstrumented { instrumented := instrumented + 1; }
        if m.statementEligible { statementEligible := statementEligible + 1; }
        if m.statementInstrumented { statementInstrumented := statementInstrumented + 1; }
      }
    }
    assert functions[..|functions|] == functions;
  }

  /** The two aggregates of a branch are written over what it inherited. */
  method UpdateBranch(b: Rec) returns (out: Rec)
    ensures out == RecomputeBranch(b)
  {
    var eligible := (b.meta.SiteMeta? || b.meta.BranchMeta?) && b.meta.eligible;
    var hit := CountHits(Kids(b, Edges));
    out := b.(derived := b.derived[EdgesFound := if eligible then |Kids(b, Edges)| else 0]);
    out := out.(derived := out.derived[EdgesHit := hit]);
  }

  method UpdateFunction(f: Rec) returns (out: Rec)
    ensures out == RecomputeFunction(f)
  {
    var statements, sites, branches := Kids(f, Statements), Kids(f, Sites), Kids(f, Branches);
    var statementHit := CountHits(statements);
    var sitesFound, sitesInstrumented, sitesHit := CountSites(sites);
    var branchesEligible, branchesInstrumented, _ := CountSites(branches);
    var branchFound, branchHit := CountEdges(branches);
    out := f.(covered := f.hits.Some? && f.hits.value > 0,
              derived := f.derived + map[
                StatementFound := |statements|, StatementHit := statementHit, StatementSitesFound := sitesFound,
                StatementSitesInstrumented := sitesInstrumented, StatementSitesHit := sitesHit,
                BranchSitesEligible := branchesEligible, BranchSitesInstrumented := branchesInstrumented,
                BranchFound := branchFound, BranchHit := branchHit]);
  }

  /** The function, branch and file aggregates of one file. */
  method UpdateFile(file: Rec) returns (out: Rec)
    ensures out == RecomputeFile(file)
    ensures CountsItsRows(out)
  {
    var functions := UpdateFunctions(Kids(file, Functions));
    var branches := UpdateBranches(Kids(file, Branches));
    var totals := CountFile(functions, Kids(file, Lines), Kids(file, Sites), branches);
    out := file.(kids := file.kids[Functions := functions][Branches := branches],
                 derived := file.derived + totals);
    RebuiltCounts(file);
  }

  method UpdateFunctions(rs: seq<Rec>) returns (out: seq<Rec>)
    ensures out == Each(rs, RecomputeFunction)
  {
    out := [];
    for i := 0 to |rs|
      invariant |out| == i && forall j :: 0 <= j < i ==> out[j] == RecomputeFunction(rs[j])
    {
      var f := UpdateFunction(rs[i]);
      out := out + [f];
    }
  }

  method UpdateBranches(rs: seq<Rec>) returns (out: seq<Rec>)
    ensures out == Each(rs, RecomputeBranch)
  {
    out := [];
    for i := 0 to |rs|
      invariant |out| == i && forall j :: 0 <= j < i ==> out[j] == RecomputeBranch(rs[j])
    {
      var b := UpdateBranch(rs[i]);
      out := out + [b];
    }
  }

  method CountFile(functions: seq<Rec>, lines: seq<Rec>, sites: seq<Rec>, branches: seq<Rec>) returns (totals: map<Field, nat>)
    ensures totals == FileTotals(functions, lines, sites, branches)
  {
    var functionHit := CountHits(functions);
    var _, _, _, functionsInstrumented := CountFunctions(functions);
    var lineHit := CountHits(lines);
    var sitesEligible, sitesInstrumented, sitesHit := CountSites(sites);
    var branchesEligible, branchesInstrumented, _ := CountSites(branches);
    var branchFound, branchHit := CountEdges(branches);
    totals := map[
      FunctionFound := |functions|, FunctionHit := functionHit, StatementFunctionsInstrumented := functionsInstrumented,
      LineFound := |lines|, LineHit := lineHit,
      StatementSitesEligible := sitesEligible, StatementSitesInstrumented := sitesInstrumented, StatementSitesHit := sitesHit,
      BranchSitesEligible := branchesEligible, BranchSitesInstrumented := branchesInstrumented,
      BranchFound := branchFound, BranchHit := branchHit];
  }

  /** `sum(file[field] for file in files)` */
  method SumField(files: seq<Rec>, field: Field) returns (n: nat)
    ensures n == Sum(files, ShownAt(field))
  {
    n := 0;
    for i := 0 to |files|
      invariant n == Sum(files[..i], ShownAt(field))
    {
      SumNext(files, i, ShownAt(field));
      if field in files[i].derived { n := n + files[i].derived[field]; }
    }
    assert files[..|files|] == files;
  }

  /** The loaded files, and those with lines. */
  method CountFiles(files: seq<Rec>) returns (loaded: nat, withStatements: nat)
    ensures loaded == Count(files, IsLoaded) && withStatements == Count(files, HasStatements)
  {
    loaded, withStatements := 0, 0;
    for i := 0 to |files|
      invariant loaded == Count(files[..i], IsLoaded) && withStatements == Count(files[..i], HasStatements)
    {
      CountNext(files, i, IsLoaded);
      CountNext(files, i, HasStatements);
      if files[i].meta.FileMeta? && files[i].meta.loaded { loaded := loaded + 1; }
      if LineFound in files[i].derived && files[i].derived[LineFound] > 0 { withStatements := withStatements + 1; }
    }
    assert files[..|files|] == files;
  }

  /** `{reason: count of functions with it}` for the declared reasons and those that occur. */
  method CountReasons(functions: seq<Rec>, declared: map<string, nat>) returns (counts: map<string, nat>)
    ensures counts == RecomputeFallbacks(functions, declared)
  {
    var occurring := OccurringReasons(functions);
    counts := map reason | reason in declared.Keys + occurring :: 0;
    for i := 0 to |functions|
      invariant counts.Keys == declared.Keys + occurring
      invariant ReasonsCounted(functions[..i], counts)
    {
      var reason := if functions[i].meta.FunctionMeta? then functions[i].meta.fallbackReason else "none";
      ReasonsNext(functions, i, counts, reason);
      if reason in counts { counts := counts[reason := counts[reason] + 1]; }
    }
    assert functions[..|functions|] == functions;
    AllReasonsCounted(functions, declared, counts);
  }

  method OccurringReasons(functions: seq<Rec>) returns (reasons: set<string>)
    ensures reasons == Reasons(functions)
  {
    reasons := set f | f in functions && f.meta.FunctionMeta? && f.meta.fallbackReason != "none" :: f.meta.fallbackReason;
  }

  lemma {:induction false} AllReasonsCounted(functions: seq<Rec>, declared: map<string, nat>, counts: map<string, nat>)
    requires counts.Keys == declared.Keys + Reasons(functions) && ReasonsCounted(functions, counts)
    ensures counts == RecomputeFallbacks(functions, declared)
  {}

  ghost predicate ReasonsCounted(functions: seq<Rec>, counts: map<string, nat>) {
    forall reason :: reason in counts ==> counts[reason] == Count(functions, Because(reason))
  }

  lemma {:induction false} ReasonsNext(functions: seq<Rec>, i: nat, counts: map<string, nat>, reason: string)
    requires i < |functions| && ReasonsCounted(functions[..i], counts) && reason == ReasonOf(functions[i])
    ensures ReasonsCounted(functions[..i + 1], if reason in counts then counts[reason := counts[reason] + 1] else counts)
  {
    forall other | other in counts
      ensures Count(functions[..i + 1], Because(other)) == counts[other] + if other == reason then 1 else 0
    {
      CountNext(functions, i, Because(other));
    }
  }

  /** `recompute_coverage`: the totals of the summary, added up file by file, are what a recount of all
      the rebuilt rows gives, whatever the files were. */
  method RecomputeCoverage(files: seq<Rec>, first: Summary) returns (out: seq<Rec>, summary: Summary)
    ensures out == Each(files, RecomputeFile)
    ensures summary == RecomputeSummary(out, first)
    ensures TotalsOk(summary, out)
  {
    out := UpdateFiles(files);
    summary := AddUp(out, first);
    RebuiltTotals(files, first);
  }

  method UpdateFiles(files: seq<Rec>) returns (out: seq<Rec>)
    ensures out == Each(files, RecomputeFile)
  {
    out := [];
    for i := 0 to |files|
      invariant |out| == i && forall j :: 0 <= j < i ==> out[j] == RecomputeFile(files[j])
    {
      var file := UpdateFile(files[i]);
      out := out + [file];
    }
  }

  method AddUp(files: seq<Rec>, first: Summary) returns (s: Summary)
    ensures s == RecomputeSummary(files, first)
  {
    var functions := KidsOf(files, Functions);
    var loaded, withStatements := CountFiles(files);
    var functionsFound := SumField(files, FunctionFound);
    var functionsHit := SumField(files, FunctionHit);
    var functionsEligible, functionsInstrumented, statementEligible, statementInstrumented := CountFunctions(functions);
    var linesFound := SumField(files, LineFound);
    var linesHit := SumField(files, LineHit);
    var sitesFound := SumField(files, StatementSitesEligible);
    var sitesHit := SumField(files, StatementSitesHit);
    var sitesInstrumented := SumField(files, StatementSitesInstrumented);
    var branchesFound := SumField(files, BranchFound);
    var branchesHit := SumField(files, BranchHit);
    var branchSites := SumField(files, BranchSitesEligible);
    var branchSitesInstrumented := SumField(files, BranchSitesInstrumented);
    var fallbacks := CountReasons(functions, first.fallbackCounts);
    s := Summary(
      |files|, loaded, withStatements,
      functionsFound, functionsHit, functionsEligible, functionsInstrumented,
      statementEligible, statementInstrumented,
      linesFound, linesHit, sitesFound, sitesHit, sitesInstrumented,
      branchesFound, branchesHit, branchSites, branchSitesInstrumented,
      first.statementMode, first.branchMode,
      sitesFound == sitesInstrumented, branchSites == branchSitesInstrumented, statementEligible == statementInstrumented,
      fallbacks);
  }

  // ---------------------------------------------------------------- counting lemmas

  lemma {:induction false} SumSame(rs: seq<Rec>, v: Rec -> nat, w: Rec -> nat)
    requires forall r :: r in rs ==> v(r) == w(r)
    ensures Sum(rs, v) == Sum(rs, w)
  {
    if rs != [] {
      assert rs[0] in rs;
      SumSame(rs[1..], v, w);
    }
  }

  lemma {:induction false} CountAtMost(rs: seq<Rec>, q: Rec -> bool, p: Rec -> bool)
    requires forall r :: r in rs && q(r) ==> p(r)
    ensures Count(rs, q) <= Count(rs, p) <= |rs|
  {
    if rs != [] {
      assert rs[0] in rs;
      CountAtMost(rs[1..], q, p);
    }
  }

  lemma {:induction false} SumAtMost(rs: seq<Rec>, v: Rec -> nat, w: Rec -> nat)
    requires forall r :: r in rs ==> v(r) <= w(r)
    ensures Sum(rs, v) <= Sum(rs, w)
  {
    if rs != [] {
      assert rs[0] in rs;
      SumAtMost(rs[1..], v, w);
    }
  }

  function Size(slot: Slot): Rec -> nat { (f: Rec) => |Kids(f, slot)| }

  function CountIn(slot: Slot, q: Rec -> bool): Rec -> nat { (f: Rec) => Count(Kids(f, slot), q) }

  function SumIn(slot: Slot, v: Rec -> nat): Rec -> nat { (f: Rec) => Sum(Kids(f, slot), v) }

  /** Totals over files are counts over the concatenation of their rows. */
  lemma {:induction false} TotalsOverFiles(files: seq<Rec>, slot: Slot, q: Rec -> bool, v: Rec -> nat)
    ensures |KidsOf(files, slot)| == Sum(files, Size(slot))
    ensures Count(KidsOf(files, slot), q) == Sum(files, CountIn(slot, q))
    ensures Sum(KidsOf(files, slot), v) == Sum(files, SumIn(slot, v))
  {
    if files != [] {
      TotalsOverFiles(files[1..], slot, q, v);
      CountAppend(Kids(files[0], slot), KidsOf(files[1..], slot), q);
      SumAppend(Kids(files[0], slot), KidsOf(files[1..], slot), v);
    }
  }

  /** A total that every file shows correctly adds up to the count over all rows. */
  lemma {:induction false} ShownCount(files: seq<Rec>, field: Field, slot: Slot, q: Rec -> bool)
    requires forall f :: f in files ==> Shows(f, field, Count(Kids(f, slot), q))
    ensures Sum(files, ShownAt(field)) == Count(KidsOf(files, slot), q)
  {
    SumSame(files, ShownAt(field), CountIn(slot, q));
    TotalsOverFiles(files, slot, q, Size(slot));
  }

  lemma {:induction false} ShownSize(files: seq<Rec>, field: Field, slot: Slot)
    requires forall f :: f in files ==> Shows(f, field, |Kids(f, slot)|)
    ensures Sum(files, ShownAt(field)) == |KidsOf(files, slot)|
  {
    SumSame(files, ShownAt(field), Size(slot));
    TotalsOverFiles(files, slot, IsHit, Size(slot));
  }

  lemma {:induction false} ShownSum(files: seq<Rec>, field: Field, slot: Slot, v: Rec -> nat)
    requires forall f :: f in files ==> Shows(f, field, Sum(Kids(f, slot), v))
    ensures Sum(files, ShownAt(field)) == Sum(KidsOf(files, slot), v)
  {
    SumSame(files, ShownAt(field), SumIn(slot, v));
    TotalsOverFiles(files, slot, IsHit, v);
  }

  // ---------------------------------------------------------------- rebuilt files

  /** Every aggregate a file shows is the count of its rows. */
  predicate CountsItsRows(g: Rec) {
    var totals := FileTotals(Kids(g, Functions), Kids(g, Lines), Kids(g, Sites), Kids(g, Branches));
    forall field :: field in totals ==> Shows(g, field, totals[field])
  }

  lemma {:induction false} RebuiltCounts(f: Rec)
    ensures CountsItsRows(RecomputeFile(f))
  {
    var g := RecomputeFile(f);
    assert g.derived == f.derived + FileTotals(Kids(g, Functions), Kids(g, Lines), Kids(g, Sites), Kids(g, Branches));
  }

  /** After the update the edge counts that branches show are those of their edges. */
  lemma {:induction false} RebuiltBranches(bs: seq<Rec>)
    ensures var out := Each(bs, RecomputeBranch);
            && Sum(out, EdgeCountIfEligible) == Sum(out, EdgesFoundIfEligible)
            && Sum(out, HitEdgesIfEligible) == Sum(out, EdgesHitIfEligible)
  {
    var out := Each(bs, RecomputeBranch);
    forall b | b in out
      ensures EdgeCountIfEligible(b) == EdgesFoundIfEligible(b) && HitEdgesIfEligible(b) == EdgesHitIfEligible(b)
    {
      var i :| 0 <= i < |out| && out[i] == b;
      assert Kids(RecomputeBranch(bs[i]), Edges) == Kids(bs[i], Edges);
    }
    SumSame(out, EdgeCountIfEligible, EdgesFoundIfEligible);
    SumSame(out, HitEdgesIfEligible, EdgesHitIfEligible);
  }

  lemma {:induction false} RebuiltFileCounts(f: Rec)
    ensures FileCounts(RecomputeFile(f))
  {
    var g := RecomputeFile(f);
    RebuiltCounts(f);
    assert Kids(g, Branches) == Each(Kids(f, Branches), RecomputeBranch);
    RebuiltBranches(Kids(f, Branches));
    TotalsAreCounts(g, FileTotals(Kids(g, Functions), Kids(g, Lines), Kids(g, Sites), Kids(g, Branches)));
  }

  lemma {:induction false} TotalsAreCounts(g: Rec, totals: map<Field, nat>)
    requires totals == FileTotals(Kids(g, Functions), Kids(g, Lines), Kids(g, Sites), Kids(g, Branches))
    requires forall field :: field in totals ==> Shows(g, field, totals[field])
    requires Sum(Kids(g, Branches), EdgeCountIfEligible) == Sum(Kids(g, Branches), EdgesFoundIfEligible)
    requires Sum(Kids(g, Branches), HitEdgesIfEligible) == Sum(Kids(g, Branches), EdgesHitIfEligible)
    ensures FileCounts(g)
  {
    assert FunctionFound in totals && FunctionHit in totals && StatementFunctionsInstrumented in totals;
    assert LineFound in totals && LineHit in totals && StatementSitesEligible in totals;
    assert StatementSitesInstrumented in totals && StatementSitesHit in totals;
    assert BranchSitesEligible in totals && BranchSitesInstrumented in totals;
    assert BranchFound in totals && BranchHit in totals;
  }

  /** Totals over files that show the counts of their rows are counts over all rows. */
  lemma {:induction false} TotalsOfCounted(files: seq<Rec>, first: Summary)
    requires forall f :: f in files ==> FileCounts(f)
    ensures TotalsOk(RecomputeSummary(files, first), files)
  {
    ShownSize(files, FunctionFound, Functions);
    ShownCount(files, FunctionHit, Functions, IsHit);
    ShownSize(files, LineFound, Lines);
    ShownCount(files, LineHit, Lines, IsHit);
    ShownCount(files, StatementSitesEligible, Sites, IsEligible);
    ShownCount(files, StatementSitesInstrumented, Sites, IsInstrumented);
    ShownCount(files, StatementSitesHit, Sites, IsEligibleHit);
    ShownCount(files, BranchSitesEligible, Branches, IsEligible);
    ShownCount(files, BranchSitesInstrumented, Branches, IsInstrumented);
    ShownSum(files, BranchFound, Branches, EdgesFoundIfEligible);
    ShownSum(files, BranchHit, Branches, EdgesHitIfEligible);
  }

  lemma {:induction false} RebuiltTotals(files: seq<Rec>, first: Summary)
    ensures var out := Each(files, RecomputeFile); TotalsOk(RecomputeSummary(out, first), out)
  {
    var out := Each(files, RecomputeFile);
    forall f | f in out
      ensures FileCounts(f)
    {
      var i :| 0 <= i < |out| && out[i] == f;
      RebuiltFileCounts(files[i]);
    }
    TotalsOfCounted(out, first);
  }
}
