/** The differential harness: verdict maps that lose no test case, and their comparison. */
module Verdicts {
  import opened Orders
  import opened Seqs
  import opened Text

  datatype Case = Case(suite: string, name: string, status: string)

  function KeyOf(c: Case): string { c.suite + " :: " + c.name }

  /** The name tried for the n-th occurrence: the key itself, then the key with a number. */
  function Candidate(key: string, n: nat): string
    requires n >= 1
  {
    if n == 1 then key else key + " #" + Decimal(n)
  }

  lemma {:induction false} CandidatesDiffer(key: string, m: nat, n: nat)
    requires 1 <= m < n
    ensures Candidate(key, m) != Candidate(key, n)
  {
    if Candidate(key, m) == Candidate(key, n) {
      if m > 1 {
        assert Candidate(key, m)[|key| + 2..] == Decimal(m) && Candidate(key, n)[|key| + 2..] == Decimal(n);
        DecimalInjective(m, n);
      }
    }
  }

  /** The first `n` candidates are all taken. */
  ghost predicate Taken(key: string, n: nat, result: map<string, string>) {
    forall k :: 1 <= k <= n ==> Candidate(key, k) in result
  }

  /** More names than entries cannot be taken: this bounds the search for a free name. */
  lemma {:induction false} TakenAtMost(key: string, n: nat, result: map<string, string>)
    requires Taken(key, n, result)
    ensures n <= |result|
  {
    var names := seq(n, (i: nat) => Candidate(key, i + 1));
    forall i, j | 0 <= i < j < n
      ensures names[i] != names[j]
    {
      CandidatesDiffer(key, i + 1, j + 1);
    }
    DistinctSize(names);
    forall x | x in Elements(names)
      ensures x in result.Keys
    {
      var i :| 0 <= i < n && names[i] == x;
    }
    SubsetAtMost(Elements(names), result.Keys);
    assert |result.Keys| == |result|;
  }

  /** The inner loop: the first free name. */
  method FreeName(key: string, result: map<string, string>) returns (unique: string, occurrence: nat)
    ensures occurrence >= 1 && unique == Candidate(key, occurrence)
    ensures unique !in result && Taken(key, occurrence - 1, result)
  {
    occurrence := 1;
    unique := key;
    while unique in result
      invariant occurrence >= 1 && unique == Candidate(key, occurrence)
      invariant Taken(key, occurrence - 1, result)
      decreases |result| + 1 - occurrence
    {
      assert Taken(key, occurrence, result);
      TakenAtMost(key, occurrence, result);
      occurrence := occurrence + 1;
      unique := key + " #" + Decimal(occurrence);
    }
  }

  ghost predicate IsCandidate(name: string, c: Case) {
    exists n :: n >= 1 && name == Candidate(KeyOf(c), n)
  }

  /** `names[i]` is the entry of case `i`. */
  ghost predicate Named(cases: seq<Case>, names: seq<string>, result: map<string, string>) {
    && |names| == |cases|
    && Distinct(names)
    && result.Keys == Elements(names)
    && (forall i :: 0 <= i < |cases| ==> result[names[i]] == cases[i].status)
    && (forall i :: 0 <= i < |cases| ==> IsCandidate(names[i], cases[i]))
  }

  /** A case whose own name is still free gets it. */
  ghost predicate PlainIfFree(cases: seq<Case>, names: seq<string>) {
    |names| == |cases| &&
    forall i :: 0 <= i < |cases| && KeyOf(cases[i]) !in names[..i] ==> names[i] == KeyOf(cases[i])
  }

  /** `verdicts`: every test case has an entry of its own, even when names already end in numbers. */
  method MapVerdicts(cases: seq<Case>) returns (result: map<string, string>, names: seq<string>)
    ensures Named(cases, names, result)
    ensures |result| == |cases|
    ensures PlainIfFree(cases, names)
  {
    result, names := map[], [];
    for i := 0 to |cases|
      invariant Named(cases[..i], names, result)
      invariant PlainIfFree(cases[..i], names)
    {
      var c := cases[i];
      var key := c.suite + " :: " + c.name;
      var unique, occurrence := FreeName(key, result);
      assert occurrence > 1 ==> KeyOf(c) in Elements(names) by {
        assert occurrence > 1 ==> Candidate(KeyOf(c), 1) in result;
      }
      TakeNext(cases, i);
      AddPlain(cases[..i], names, c, unique);
      AddName(cases[..i], names, result, c, unique, occurrence);
      result := result[unique := c.status];
      names := names + [unique];
    }
    assert cases[..|cases|] == cases;
    DistinctSize(names);
    assert |result.Keys| == |result|;
  }

  lemma {:induction false} AddName(
      cases: seq<Case>, names: seq<string>, result: map<string, string>, c: Case, unique: string, n: nat)
    requires Named(cases, names, result) && unique !in result && n >= 1 && unique == Candidate(KeyOf(c), n)
    ensures Named(cases + [c], names + [unique], result[unique := c.status])
  {
    var all, next, entries := cases + [c], names + [unique], result[unique := c.status];
    assert unique !in Elements(names);
    forall i, j | 0 <= i < j < |next|
      ensures next[i] != next[j]
    {
      assert names[i] in names;
    }
    forall x
      ensures x in entries.Keys <==> x in Elements(next)
    {
      assert x in next <==> x in names || x == unique;
      assert x in Elements(names) <==> x in result.Keys;
    }
    forall i | 0 <= i < |all|
      ensures next[i] in entries && entries[next[i]] == all[i].status
      ensures IsCandidate(next[i], all[i])
    {
      if i < |cases| { assert names[i] in names; }
    }
  }

  lemma {:induction false} AddPlain(cases: seq<Case>, names: seq<string>, c: Case, unique: string)
    requires PlainIfFree(cases, names) && (KeyOf(c) in names || unique == KeyOf(c))
    ensures PlainIfFree(cases + [c], names + [unique])
  {
    var all, next := cases + [c], names + [unique];
    forall i | 0 <= i < |all| && KeyOf(all[i]) !in next[..i]
      ensures next[i] == KeyOf(all[i])
    {
      assert next[..i] == names[..i];
      if i == |cases| { assert names[..i] == names; }
    }
  }

  // ---------------------------------------------------------------- comparison

  datatype Difference = Difference(test: string, upstream: string, resq: string)

  /** What a result map says of a test: its status there, or "absent". */
  predicate Shows(result: map<string, string>, test: string, status: string) {
    (test in result && status == result[test]) || (test !in result && status == "absent")
  }

  /** A test that one of the frameworks ran and on which they disagree, a missing result being "absent". */
  predicate RealDifference(upstream: map<string, string>, resq: map<string, string>, d: Difference) {
    && (d.test in upstream || d.test in resq)
    && Shows(upstream, d.test, d.upstream) && Shows(resq, d.test, d.resq) && d.upstream != d.resq
  }

  predicate DifferenceLe(a: Difference, b: Difference) {
    if a.test != b.test then StrLe(a.test, b.test)
    else if a.upstream != b.upstream then StrLe(a.upstream, b.upstream)
    else StrLe(a.resq, b.resq)
  }

  lemma {:induction false} DifferenceLeTransitive(a: Difference, b: Difference, c: Difference)
    requires DifferenceLe(a, b) && DifferenceLe(b, c)
    ensures DifferenceLe(a, c)
  {
    StrLeTotal(a.test, b.test);
    StrLeTotal(b.test, c.test);
    StrLeTotal(a.upstream, b.upstream);
    StrLeTotal(b.upstream, c.upstream);
    if a.test != b.test || b.test != c.test {
      StrLeTransitive(a.test, b.test, c.test);
      if a.test == c.test { StrLeAntisymmetric(a.test, b.test); }
    } else if a.upstream != b.upstream || b.upstream != c.upstream {
      StrLeTransitive(a.upstream, b.upstream, c.upstream);
      if a.upstream == c.upstream { StrLeAntisymmetric(a.upstream, b.upstream); }
    } else {
      StrLeTransitive(a.resq, b.resq, c.resq);
    }
  }

  lemma {:induction false} DifferenceLeTotal(a: Difference, b: Difference)
    ensures DifferenceLe(a, b) || DifferenceLe(b, a)
    ensures DifferenceLe(a, b) && DifferenceLe(b, a) ==> a == b
  {
    StrLeTotal(a.test, b.test);
    StrLeTotal(a.upstream, b.upstream);
    StrLeTotal(a.resq, b.resq);
    if DifferenceLe(a, b) && DifferenceLe(b, a) {
      if a.test != b.test { StrLeAntisymmetric(a.test, b.test); }
      else if a.upstream != b.upstream { StrLeAntisymmetric(a.upstream, b.upstream); }
      else { StrLeAntisymmetric(a.resq, b.resq); }
    }
  }

  lemma {:induction false} DifferenceLeIsTotalOrder()
    ensures TotalOrder(DifferenceLe)
  {
    forall a: Difference, b: Difference
      ensures DifferenceLe(a, b) || DifferenceLe(b, a)
      ensures DifferenceLe(a, b) && DifferenceLe(b, a) ==> a == b
    {
      DifferenceLeTotal(a, b);
    }
    forall a: Difference, b: Difference, c: Difference | DifferenceLe(a, b) && DifferenceLe(b, c)
      ensures DifferenceLe(a, c)
    {
      DifferenceLeTransitive(a, b, c);
    }
  }

  method Differences(upstream: map<string, string>, resq: map<string, string>) returns (observed: set<Difference>)
    ensures forall d :: d in observed <==> RealDifference(upstream, resq, d)
  {
    observed := set t | t in upstream.Keys + resq.Keys
        && (if t in upstream then upstream[t] else "absent") != (if t in resq then resq[t] else "absent") ::
      Difference(t, if t in upstream then upstream[t] else "absent", if t in resq then resq[t] else "absent");
  }

  /** `compare`: what differs without being listed, and what is listed without differing, both sorted. */
  method Compare(upstream: map<string, string>, resq: map<string, string>, expected: seq<Difference>)
    returns (unexpected: seq<Difference>, stale: seq<Difference>)
    ensures forall d :: d in unexpected <==> RealDifference(upstream, resq, d) && d !in expected
    ensures forall d :: d in stale <==> d in expected && !RealDifference(upstream, resq, d)
    ensures SortedBy(unexpected, DifferenceLe) && SortedBy(stale, DifferenceLe)
    ensures Distinct(unexpected) && Distinct(stale)
  {
    DifferenceLeIsTotalOrder();
    var observed := Differences(upstream, resq);
    var listed := Elements(expected);
    SortedSetLists(observed - listed, DifferenceLe);
    SortedSetLists(listed - observed, DifferenceLe);
    unexpected := SortedSet(observed - listed, DifferenceLe);
    stale := SortedSet(listed - observed, DifferenceLe);
  }

  /** Reports are in the order of the tests, then of the upstream results, then of the others. */
  lemma {:induction false} ReportOrder(s: seq<Difference>, i: nat, j: nat)
    requires SortedBy(s, DifferenceLe) && i < j < |s|
    ensures StrLe(s[i].test, s[j].test)
    ensures s[i].test == s[j].test ==> StrLe(s[i].upstream, s[j].upstream)
    ensures s[i].test == s[j].test && s[i].upstream == s[j].upstream ==> StrLe(s[i].resq, s[j].resq)
  {
    StrLeTotal(s[i].test, s[j].test);
    StrLeTotal(s[i].upstream, s[j].upstream);
    assert DifferenceLe(s[i], s[j]);
  }

  /** Nothing to report means that the listed differences are the real ones: every test on which the two
      frameworks disagree, tests that one of them lacks included, and no other. */
  lemma {:induction false} SilenceIsAgreement(
      upstream: map<string, string>, resq: map<string, string>, expected: seq<Difference>,
      unexpected: seq<Difference>, stale: seq<Difference>)
    requires forall d :: d in unexpected <==> RealDifference(upstream, resq, d) && d !in expected
    requires forall d :: d in stale <==> d in expected && !RealDifference(upstream, resq, d)
    ensures unexpected == [] && stale == [] <==> forall d :: d in expected <==> RealDifference(upstream, resq, d)
  {
    if unexpected != [] { assert unexpected[0] in unexpected; }
    if stale != [] { assert stale[0] in stale; }
  }
}
