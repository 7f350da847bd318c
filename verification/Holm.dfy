/** The Holm step-down correction of `holm_adjust`, and why it is the right one:
    it is closed testing with Bonferroni local tests. */
module Holm {
  import Orders


  function Min(a: real, b: real): real { if a <= b then a else b }

  function Max(a: real, b: real): real { if a <= b then b else a }

  /** `n * x`, as repeated addition so that proofs about it stay linear. */
  function Times(n: nat, x: real): real {
    if n == 0 then 0.0 else x + Times(n - 1, x)
  }

  lemma {:induction false} TimesIsProduct(n: nat, x: real)
    ensures Times(n, x) == n as real * x
  {
    if n > 0 {
      TimesIsProduct(n - 1, x);
      var m := (n - 1) as real;
      assert n as real == m + 1.0;
      assert (m + 1.0) * x == m * x + x;
    }
  }

  lemma {:induction false} TimesMonotone(m: nat, n: nat, x: real)
    requires m <= n && x >= 0.0
    ensures Times(m, x) <= Times(n, x)
  {
    if m < n { TimesMonotone(m, n - 1, x); }
  }

  lemma {:induction false} TimesMonotoneIn(n: nat, x: real, y: real)
    requires x <= y
    ensures Times(n, x) <= Times(n, y)
  {
    if n > 0 { TimesMonotoneIn(n - 1, x, y); }
  }

  // ---------------------------------------------------------------- closed testing

  ghost function Indices(n: nat): (s: set<nat>)
    ensures forall i: nat :: i in s <==> i < n
    ensures |s| == n
  {
    if n == 0 then {} else Indices(n - 1) + {n - 1}
  }

  /** `S` is an intersection hypothesis of the family that includes hypothesis `i`. */
  ghost predicate Family(p: seq<real>, i: nat, S: set<nat>) {
    i in S && S <= Indices(|p|)
  }

  /** The Bonferroni p-value of `S`, |S| times its smallest member, is at most `v`. */
  ghost predicate LocalAtMost(p: seq<real>, S: set<nat>, v: real)
    requires S <= Indices(|p|)
  {
    exists j :: j in S && Times(|S|, p[j]) <= v
  }

  /** ... and at least `v`. */
  ghost predicate LocalAtLeast(p: seq<real>, S: set<nat>, v: real)
    requires S <= Indices(|p|)
  {
    forall j :: j in S ==> v <= Times(|S|, p[j])
  }

  /** `v` is the closed-testing adjusted value of hypothesis `i`:
      the largest local p-value over all families containing `i`. */
  ghost predicate IsClosedMaximum(p: seq<real>, i: nat, v: real) {
    && (forall S :: Family(p, i, S) ==> LocalAtMost(p, S, v))
    && (exists S :: Family(p, i, S) && LocalAtLeast(p, S, v))
  }

  ghost predicate IsHolm(p: seq<real>, adjusted: seq<real>) {
    && |adjusted| == |p|
    && forall i: nat :: i < |p| ==> HolmAt(p, i, adjusted[i])
  }

  ghost predicate HolmAt(p: seq<real>, i: nat, adjusted: real) {
    exists v :: IsClosedMaximum(p, i, v) && adjusted == Min(1.0, v)
  }

  // ---------------------------------------------------------------- the step-down loop

  ghost predicate Permutation(order: seq<nat>, n: nat) {
    && |order| == n
    && (forall r :: 0 <= r < n ==> order[r] < n)
    && (forall r, s :: 0 <= r < s < n ==> order[r] != order[s])
  }

  ghost predicate Ascending(p: seq<real>, order: seq<nat>)
    requires forall r :: 0 <= r < |order| ==> order[r] < |p|
  {
    forall r, s :: 0 <= r < s < |order| ==> p[order[r]] <= p[order[s]]
  }

  /** `sorted(range(n), key=p.__getitem__)`: some order that sorts the p-values.
      Nothing below depends on how it arranges equal ones. */
  method SortIndices(p: seq<real>) returns (order: seq<nat>)
    ensures Permutation(order, |p|) && Ascending(p, order)
  {
    order := [];
    for k := 0 to |p|
      invariant Permutation(order, k) && Ascending(p, order)
    {
      var at := k;
      while at > 0 && p[order[at - 1]] > p[k]
        invariant at <= k
        invariant forall r :: at <= r < k ==> p[order[r]] > p[k]
      {
        at := at - 1;
      }
      InsertKeepsOrder(p, order, k, at);
      order := Insert(order, k, at);
    }
  }

  function Insert(order: seq<nat>, k: nat, at: nat): seq<nat>
    requires at <= |order|
  {
    order[..at] + [k] + order[at..]
  }

  lemma {:induction false} InsertKeepsOrder(p: seq<real>, order: seq<nat>, k: nat, at: nat)
    requires k < |p| && Permutation(order, k) && Ascending(p, order) && at <= k
    requires at > 0 ==> p[order[at - 1]] <= p[k]
    requires forall r :: at <= r < k ==> p[k] <= p[order[r]]
    ensures Permutation(Insert(order, k, at), k + 1) && Ascending(p, Insert(order, k, at))
  {
    var now := Insert(order, k, at);
    assert forall r :: 0 <= r <= k ==> now[r] == if r < at then order[r] else if r == at then k else order[r - 1];
    forall r, s | 0 <= r < s <= k
      ensures now[r] != now[s] && p[now[r]] <= p[now[s]]
    {
      if r < at && s == at {
        assert p[order[r]] <= p[order[at - 1]];
      } else if r >= at {
        assert s > at && (r > at ==> p[order[r - 1]] <= p[order[s - 1]]);
      }
    }
  }

  /** The running maximum after ranks 0..r. */
  ghost function Running(p: seq<real>, order: seq<nat>, r: nat): (v: real)
    requires Permutation(order, |p|) && r <= |p|
  {
    if r == 0 then 0.0
    else Max(Running(p, order, r - 1), Times(|p| - (r - 1), p[order[r - 1]]))
  }

  /** The values written so far are the clipped running maxima of their ranks. */
  ghost predicate Written(p: seq<real>, order: seq<nat>, a: seq<real>, ranks: nat)
    requires Permutation(order, |p|) && |a| == |p| && ranks <= |p|
  {
    forall s :: 0 <= s < ranks ==> a[order[s]] == Min(1.0, Running(p, order, s + 1))
  }

  method HolmAdjust(p: seq<real>) returns (adjusted: seq<real>)
    requires forall i :: 0 <= i < |p| ==> p[i] >= 0.0
    ensures IsHolm(p, adjusted)
  {
    var order := SortIndices(p);
    var a := new real[|p|](_ => 0.0);
    var running := 0.0;
    for rank := 0 to |p|
      invariant running == Running(p, order, rank)
      invariant Written(p, order, a[..], rank)
    {
      var index := order[rank];
      running := Max(running, Times(|p| - rank, p[index]));
      ghost var before := a[..];
      a[index] := Min(1.0, running);
      assert a[..] == before[index := Min(1.0, running)];
      assert forall s :: 0 <= s < rank ==> order[s] != index;
    }
    adjusted := a[..];
    RunningMaximaAreHolm(p, order, adjusted);
  }

  lemma {:induction false} RunningMaximaAreHolm(p: seq<real>, order: seq<nat>, adjusted: seq<real>)
    requires forall i :: 0 <= i < |p| ==> p[i] >= 0.0
    requires Permutation(order, |p|) && Ascending(p, order) && |adjusted| == |p|
    requires Written(p, order, adjusted, |p|)
    ensures IsHolm(p, adjusted)
  {
    forall i: nat | i < |p|
      ensures HolmAt(p, i, adjusted[i])
    {
      var r := RankOf(order, |p|, i);
      RunningIsClosedMaximum(p, order, r);
      var v := Running(p, order, r + 1);
      assert IsClosedMaximum(p, i, v) && adjusted[i] == Min(1.0, v);
    }
  }

  /** Every index has a rank. */
  lemma {:induction false} RankOf(order: seq<nat>, n: nat, i: nat) returns (r: nat)
    requires Permutation(order, n) && i < n
    ensures r < n && order[r] == i
  {
    if forall s :: 0 <= s < n ==> order[s] != i {
      var image := set s: nat | s < n :: order[s];
      ImageSize(order, n);
      assert image <= Indices(n) - {i};
      Orders.SubsetAtMost(image, Indices(n) - {i});
      assert false;
    }
    r :| 0 <= r < n && order[r] == i;
  }

  lemma {:induction false} ImageSize(order: seq<nat>, n: nat)
    requires n <= |order|
    requires forall r, s :: 0 <= r < s < n ==> order[r] != order[s]
    ensures |set s: nat | s < n :: order[s]| == n
  {
    var image := set s: nat | s < n :: order[s];
    if n > 0 {
      ImageSize(order, n - 1);
      var smaller := set s: nat | s < n - 1 :: order[s];
      forall x
        ensures x in image <==> x in smaller + {order[n - 1]}
      {
        if x in image {
          var s: nat :| s < n && order[s] == x;
          assert s < n - 1 || s == n - 1;
        }
      }
      assert image == smaller + {order[n - 1]};
      assert order[n - 1] !in smaller;
    }
  }

  /** The hypotheses from rank `k` on form the worst family starting at `k`. */
  ghost function Tail(order: seq<nat>, k: nat): set<nat>
    requires k <= |order|
  {
    set s: nat | k <= s < |order| :: order[s]
  }

  lemma {:induction false} TailSize(order: seq<nat>, n: nat, k: nat)
    requires Permutation(order, n) && k <= n
    ensures |Tail(order, k)| == n - k && Tail(order, k) <= Indices(n)
    decreases n - k
  {
    if k < n {
      TailSize(order, n, k + 1);
      TailStep(order, n, k);
    } else {
      assert Tail(order, k) == {};
    }
  }

  lemma {:induction false} TailStep(order: seq<nat>, n: nat, k: nat)
    requires Permutation(order, n) && k < n
    ensures Tail(order, k) == Tail(order, k + 1) + {order[k]} && order[k] !in Tail(order, k + 1)
  {}

  /** The running maximum is attained at one of the ranks passed so far ... */
  lemma {:induction false} RunningAttained(p: seq<real>, order: seq<nat>, r: nat) returns (k: nat)
    requires forall i :: 0 <= i < |p| ==> p[i] >= 0.0
    requires Permutation(order, |p|) && r < |p|
    ensures k <= r && Running(p, order, r + 1) == Times(|p| - k, p[order[k]])
  {
    k := r;
    var here := Times(|p| - r, p[order[r]]);
    TimesMonotone(0, |p| - r, p[order[r]]);
    if r > 0 && Running(p, order, r) > here {
      k := RunningAttained(p, order, r - 1);
    }
  }

  /** ... and bounds the candidate value of each of them. */
  lemma {:induction false} RunningBounds(p: seq<real>, order: seq<nat>, r: nat, k: nat)
    requires Permutation(order, |p|) && k <= r < |p|
    ensures Times(|p| - k, p[order[k]]) <= Running(p, order, r + 1)
  {
    if k < r { RunningBounds(p, order, r - 1, k); }
  }

  /** The lowest rank occurring in a family. */
  lemma {:induction false} FirstRank(p: seq<real>, order: seq<nat>, S: set<nat>, r: nat) returns (k: nat)
    requires Permutation(order, |p|) && r < |p| && order[r] in S && S <= Indices(|p|)
    ensures k <= r && order[k] in S && S <= Tail(order, k)
  {
    k := 0;
    while order[k] !in S
      invariant k <= r && forall s :: 0 <= s < k ==> order[s] !in S
      decreases r - k
    {
      k := k + 1;
    }
    forall i | i in S
      ensures i in Tail(order, k)
    {
      var s := RankOf(order, |p|, i);
    }
  }

  /** No family with this hypothesis has a local p-value above the running maximum ... */
  lemma {:induction false} RunningDominates(p: seq<real>, order: seq<nat>, r: nat, S: set<nat>)
    requires forall i :: 0 <= i < |p| ==> p[i] >= 0.0
    requires Permutation(order, |p|) && r < |p| && Family(p, order[r], S)
    ensures LocalAtMost(p, S, Running(p, order, r + 1))
  {
    var k := FirstRank(p, order, S, r);
    TailSize(order, |p|, k);
    Orders.SubsetAtMost(S, Tail(order, k));
    TimesMonotone(|S|, |p| - k, p[order[k]]);
    RunningBounds(p, order, r, k);
  }

  /** ... and one of the tails attains it. */
  lemma {:induction false} RunningReached(p: seq<real>, order: seq<nat>, r: nat) returns (S: set<nat>)
    requires forall i :: 0 <= i < |p| ==> p[i] >= 0.0
    requires Permutation(order, |p|) && Ascending(p, order) && r < |p|
    ensures Family(p, order[r], S) && LocalAtLeast(p, S, Running(p, order, r + 1))
  {
    var k := RunningAttained(p, order, r);
    S := Tail(order, k);
    TailSize(order, |p|, k);
    forall j | j in S
      ensures Running(p, order, r + 1) <= Times(|S|, p[j])
    {
      var s: nat :| k <= s < |order| && order[s] == j;
      assert p[order[k]] <= p[j];
      TimesMonotoneIn(|S|, p[order[k]], p[j]);
    }
  }

  lemma {:induction false} RunningIsClosedMaximum(p: seq<real>, order: seq<nat>, r: nat)
    requires forall i :: 0 <= i < |p| ==> p[i] >= 0.0
    requires Permutation(order, |p|) && Ascending(p, order) && r < |p|
    ensures IsClosedMaximum(p, order[r], Running(p, order, r + 1))
  {
    forall S | Family(p, order[r], S)
      ensures LocalAtMost(p, S, Running(p, order, r + 1))
    {
      RunningDominates(p, order, r, S);
    }
    var S := RunningReached(p, order, r);
  }

  // ---------------------------------------------------------------- what it means

  /** Rejecting at level `alpha` is rejecting every family that contains the hypothesis. */
  lemma {:induction false} RejectionIsClosedTesting(p: seq<real>, adjusted: seq<real>, i: nat, alpha: real)
    requires IsHolm(p, adjusted) && i < |p| && alpha < 1.0
    ensures adjusted[i] <= alpha <==> forall S :: Family(p, i, S) ==> LocalAtMost(p, S, alpha)
  {
    assert HolmAt(p, i, adjusted[i]);
    var v :| IsClosedMaximum(p, i, v) && adjusted[i] == Min(1.0, v);
    if adjusted[i] <= alpha {
      forall S | Family(p, i, S)
        ensures LocalAtMost(p, S, alpha)
      {
        assert LocalAtMost(p, S, v);
      }
    }
    if forall S :: Family(p, i, S) ==> LocalAtMost(p, S, alpha) {
      var S :| Family(p, i, S) && LocalAtLeast(p, S, v);
      assert LocalAtMost(p, S, alpha);
    }
  }

  /** An adjusted value never falls below the raw one nor above plain Bonferroni. */
  lemma {:induction false} AdjustedBounds(p: seq<real>, adjusted: seq<real>, i: nat)
    requires IsHolm(p, adjusted) && i < |p| && 0.0 <= p[i] <= 1.0
    ensures p[i] <= adjusted[i] <= Min(1.0, |p| as real * p[i])
  {
    AdjustedAboveRaw(p, adjusted, i);
    AdjustedBelowBonferroni(p, adjusted, i);
    TimesIsProduct(|p|, p[i]);
  }

  lemma {:induction false} AdjustedAboveRaw(p: seq<real>, adjusted: seq<real>, i: nat)
    requires IsHolm(p, adjusted) && i < |p| && p[i] <= 1.0
    ensures p[i] <= adjusted[i]
  {
    assert HolmAt(p, i, adjusted[i]);
    var v :| IsClosedMaximum(p, i, v) && adjusted[i] == Min(1.0, v);
    var alone: set<nat> := {i};
    assert |alone| == 1 && Family(p, i, alone);
    assert LocalAtMost(p, alone, v);
    assert Times(1, p[i]) == p[i] + Times(0, p[i]);
  }

  lemma {:induction false} AdjustedAtMostOne(p: seq<real>, adjusted: seq<real>, i: nat)
    requires IsHolm(p, adjusted) && i < |p|
    ensures adjusted[i] <= 1.0
  {
    assert HolmAt(p, i, adjusted[i]);
  }

  lemma {:induction false} AdjustedBelowBonferroni(p: seq<real>, adjusted: seq<real>, i: nat)
    requires IsHolm(p, adjusted) && i < |p| && 0.0 <= p[i]
    ensures adjusted[i] <= Min(1.0, Times(|p|, p[i]))
  {
    assert HolmAt(p, i, adjusted[i]);
    var v :| IsClosedMaximum(p, i, v) && adjusted[i] == Min(1.0, v);
    var S :| Family(p, i, S) && LocalAtLeast(p, S, v);
    Orders.SubsetAtMost(S, Indices(|p|));
    TimesMonotone(|S|, |p|, p[i]);
  }

  /** `f` places the family `p` inside the family `q`. */
  ghost predicate Embeds(p: seq<real>, q: seq<real>, f: seq<nat>) {
    && |f| == |p|
    && (forall i :: 0 <= i < |p| ==> f[i] < |q| && p[i] == q[f[i]])
    && (forall i, j :: 0 <= i < j < |p| ==> f[i] != f[j])
  }

  ghost function Image(f: seq<nat>, S: set<nat>): set<nat>
    requires S <= Indices(|f|)
  {
    set s | s in S :: f[s]
  }

  lemma {:induction false} SameSizeImage(f: seq<nat>, S: set<nat>)
    requires S <= Indices(|f|)
    requires forall i, j :: 0 <= i < j < |f| ==> f[i] != f[j]
    ensures |Image(f, S)| == |S|
    decreases |S|
  {
    if S != {} {
      var x :| x in S;
      var rest := S - {x};
      SameSizeImage(f, rest);
      assert Image(f, S) == Image(f, rest) + {f[x]};
      assert f[x] !in Image(f, rest);
    } else {
      assert Image(f, S) == {};
    }
  }

  /** Growing the family never lowers an adjusted value. */
  lemma {:induction false} LargerFamilyAdjustsMore(p: seq<real>, q: seq<real>, f: seq<nat>,
                                adjustedP: seq<real>, adjustedQ: seq<real>, i: nat)
    requires IsHolm(p, adjustedP) && IsHolm(q, adjustedQ)
    requires Embeds(p, q, f) && i < |p|
    ensures adjustedP[i] <= adjustedQ[f[i]]
  {
    assert HolmAt(p, i, adjustedP[i]) && HolmAt(q, f[i], adjustedQ[f[i]]);
    var v :| IsClosedMaximum(p, i, v) && adjustedP[i] == Min(1.0, v);
    var w :| IsClosedMaximum(q, f[i], w) && adjustedQ[f[i]] == Min(1.0, w);
    var S :| Family(p, i, S) && LocalAtLeast(p, S, v);
    FamilyGrows(p, q, f, i, S);
    LocalGrows(p, q, f, S, v, w);
  }

  lemma {:induction false} FamilyGrows(p: seq<real>, q: seq<real>, f: seq<nat>, i: nat, S: set<nat>)
    requires Embeds(p, q, f) && i < |p| && Family(p, i, S)
    ensures Family(q, f[i], Image(f, S))
  {}

  lemma {:induction false} LocalGrows(p: seq<real>, q: seq<real>, f: seq<nat>, S: set<nat>, v: real, w: real)
    requires Embeds(p, q, f) && S <= Indices(|p|) && Image(f, S) <= Indices(|q|)
    requires LocalAtLeast(p, S, v) && LocalAtMost(q, Image(f, S), w)
    ensures v <= w
  {
    var T := Image(f, S);
    SameSizeImage(f, S);
    var t :| t in T && Times(|T|, q[t]) <= w;
    var s :| s in S && f[s] == t;
    assert v <= Times(|S|, p[s]);
  }

  /** Renaming the hypotheses renames the adjusted values: the order in which
      equal p-values were sorted cannot be seen in the result. */
  lemma {:induction false} PermutationEquivariant(p: seq<real>, q: seq<real>, f: seq<nat>,
                               adjustedP: seq<real>, adjustedQ: seq<real>, i: nat)
    requires IsHolm(p, adjustedP) && IsHolm(q, adjustedQ)
    requires |p| == |q| && Embeds(p, q, f) && i < |p|
    ensures adjustedP[i] == adjustedQ[f[i]]
  {
    LargerFamilyAdjustsMore(p, q, f, adjustedP, adjustedQ, i);
    var g := Inverse(f);
    assert Embeds(q, p, g) by {
      forall k: nat | k < |q|
        ensures g[k] < |p| && q[k] == p[g[k]]
      {
        assert f[g[k]] == k;
      }
      forall k, l | 0 <= k < l < |q|
        ensures g[k] != g[l]
      {
        assert f[g[k]] == k && f[g[l]] == l;
      }
    }
    LargerFamilyAdjustsMore(q, p, g, adjustedQ, adjustedP, f[i]);
    assert f[g[f[i]]] == f[i];
    assert g[f[i]] == i;
  }

  ghost function Inverse(f: seq<nat>): (g: seq<nat>)
    requires Permutation(f, |f|)
    ensures |g| == |f| && forall k: nat :: k < |f| ==> g[k] < |f| && f[g[k]] == k
  {
    seq(|f|, (k: nat) requires k < |f| => RankAt(f, k))
  }

  ghost function RankAt(f: seq<nat>, k: nat): (r: nat)
    requires Permutation(f, |f|) && k < |f|
    ensures r < |f| && f[r] == k
  {
    assert exists r: nat :: r < |f| && f[r] == k by { var r := RankOf(f, |f|, k); }
    var r: nat :| r < |f| && f[r] == k; r
  }

  /** Adjusted values keep the order of the raw ones; ties stay ties. */
  lemma {:induction false} AdjustmentKeepsOrder(p: seq<real>, adjusted: seq<real>, i: nat, j: nat)
    requires IsHolm(p, adjusted) && i < |p| && j < |p| && p[i] <= p[j]
    ensures adjusted[i] <= adjusted[j]
    ensures p[i] == p[j] ==> adjusted[i] == adjusted[j]
  {
    AdjustedBelow(p, adjusted, i, j);
    if p[i] == p[j] { AdjustedBelow(p, adjusted, j, i); }
  }

  lemma {:induction false} AdjustedBelow(p: seq<real>, adjusted: seq<real>, i: nat, j: nat)
    requires IsHolm(p, adjusted) && i < |p| && j < |p| && p[i] <= p[j]
    ensures adjusted[i] <= adjusted[j]
  {
    assert HolmAt(p, i, adjusted[i]) && HolmAt(p, j, adjusted[j]);
    var v :| IsClosedMaximum(p, i, v) && adjusted[i] == Min(1.0, v);
    var w :| IsClosedMaximum(p, j, w) && adjusted[j] == Min(1.0, w);
    var S :| Family(p, i, S) && LocalAtLeast(p, S, v);
    ExchangedFamily(p, i, j, S, v, w);
  }

  /** Replacing a hypothesis by one with a larger p-value does not lower the local p-value. */
  lemma {:induction false} ExchangedFamily(p: seq<real>, i: nat, j: nat, S: set<nat>, v: real, w: real)
    requires i < |p| && j < |p| && p[i] <= p[j]
    requires Family(p, i, S) && LocalAtLeast(p, S, v) && IsClosedMaximum(p, j, w)
    ensures v <= w
  {
    var T := Exchange(S, i, j);
    assert Family(p, j, T);
    assert LocalAtMost(p, T, w);
    var t :| t in T && Times(|T|, p[t]) <= w;
    if t in S {
      assert v <= Times(|S|, p[t]);
    } else {
      assert v <= Times(|S|, p[i]);
      TimesMonotoneIn(|S|, p[i], p[j]);
    }
  }

  ghost function Exchange(S: set<nat>, i: nat, j: nat): (T: set<nat>)
    requires i in S
    ensures |T| == |S| && j in T && forall t :: t in T ==> t in S || t == j
  {
    if j in S then S
    else
      assert |S - {i}| == |S| - 1;
      S - {i} + {j}
  }
}
