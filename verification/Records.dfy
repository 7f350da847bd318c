/** The keyed tree merge of coverage records (`merge_records`) as an algebra.

    A record is metadata, an optional hit counter, derived fields and child
    lists. Records with equal keys are merged: metadata must agree, hits add
    up, derived fields are inherited from the first record, children merge
    recursively. */
module Records {
  import opened Orders
  import opened Seqs
  import opened Text

  // ---------------------------------------------------------------- records

  /** The metadata of a record: every field that is neither a hit count, a derived field nor a child list. */
  datatype Meta =
    | FileMeta(path: string, loaded: bool)
    | FunctionMeta(name: string, line: nat, functionEligible: bool, functionInstrumented: bool,
                   statementEligible: bool, statementInstrumented: bool, fallbackReason: string)
    | LineMeta(lineNo: nat)
    | SiteMeta(siteId: string, function_: string, eligible: bool, instrumented: bool, rest: string)
    | BranchMeta(siteId: string, function_: string, eligible: bool, instrumented: bool, rest: string)
    | EdgeMeta(edgeId: string, index: nat, edgeLabel: string)
    | MetricMeta(contextId: string, metricId: string, metricKind: MetricKind, file: string, function_: string,
                 site: string, edgeIndex: int)

  datatype MetricKind = FunctionMetric | StatementMetric | BranchMetric

  /** The tuple of key fields a record is grouped by. */
  datatype Key = TextKey(text: string) | NameLineKey(name: string, line: nat) | LineKey(lineNo: nat)

  function MetaKey(m: Meta): Key {
    match m
    case FileMeta(path, _) => TextKey(path)
    case FunctionMeta(name, line, _, _, _, _, _) => NameLineKey(name, line)
    case LineMeta(lineNo) => LineKey(lineNo)
    case SiteMeta(siteId, _, _, _, _) => TextKey(siteId)
    case BranchMeta(siteId, _, _, _, _) => TextKey(siteId)
    case EdgeMeta(edgeId, _, _) => TextKey(edgeId)
    case MetricMeta(_, metricId, _, _, _, _, _) => TextKey(metricId)
  }

  /** `canonical(key)`: the JSON text of the key tuple. */
  function Canonical(k: Key): string {
    match k
    case TextKey(text) => "[" + Quote(text) + "]"
    case NameLineKey(name, line) => "[" + Quote(name) + "," + Decimal(line) + "]"
    case LineKey(lineNo) => "[" + Decimal(lineNo) + "]"
  }

  function AfterBracket(k: Key): (r: string)
    ensures Canonical(k) == "[" + r
    ensures r != "" && (r[0] == '"' <==> !k.LineKey?)
  {
    match k
    case TextKey(text) =>
      assert "[" + Quote(text) + "]" == "[" + (Quote(text) + "]");
      Quote(text) + "]"
    case NameLineKey(name, line) =>
      assert "[" + Quote(name) + "," + Decimal(line) + "]" == "[" + (Quote(name) + ("," + Decimal(line) + "]"));
      Quote(name) + ("," + Decimal(line) + "]")
    case LineKey(lineNo) =>
      assert "[" + Decimal(lineNo) + "]" == "[" + (Decimal(lineNo) + "]");
      assert Decimal(lineNo)[0] in Decimal(lineNo);
      Decimal(lineNo) + "]"
  }

  lemma {:induction false} CanonicalInjective(a: Key, b: Key)
    requires Canonical(a) == Canonical(b)
    ensures a == b
  {
    var x, y := AfterBracket(a), AfterBracket(b);
    assert Canonical(a)[1..] == x && Canonical(b)[1..] == y;
    match a
    case LineKey(m) =>
      assert x[..|x| - 1] == Decimal(m) && y[..|y| - 1] == Decimal(b.lineNo);
      DecimalInjective(m, b.lineNo);
    case TextKey(s) =>
      match b {
        case TextKey(t) => QuotePrefixFree(s, t, "]", "]");
        case NameLineKey(t, m) => QuotePrefixFree(s, t, "]", "," + Decimal(m) + "]");
      }
    case NameLineKey(s, m) =>
      match b {
        case TextKey(t) => QuotePrefixFree(s, t, "," + Decimal(m) + "]", "]");
        case NameLineKey(t, n) =>
          var u, v := "," + Decimal(m) + "]", "," + Decimal(n) + "]";
          QuotePrefixFree(s, t, u, v);
          assert u[1..|u| - 1] == Decimal(m) && v[1..|v| - 1] == Decimal(n);
          DecimalInjective(m, n);
      }
  }

  /** The identity of a record: its path, name and line, line number, or identifier. */
  predicate SameIdentity(a: Meta, b: Meta) {
    match (a, b)
    case (FileMeta(p, _), FileMeta(q, _)) => p == q
    case (FunctionMeta(f, m, _, _, _, _, _), FunctionMeta(g, n, _, _, _, _, _)) => f == g && m == n
    case (LineMeta(m), LineMeta(n)) => m == n
    case (SiteMeta(x, _, _, _, _), SiteMeta(y, _, _, _, _)) => x == y
    case (BranchMeta(x, _, _, _, _), BranchMeta(y, _, _, _, _)) => x == y
    case (EdgeMeta(x, _, _), EdgeMeta(y, _, _)) => x == y
    case (MetricMeta(_, x, _, _, _, _, _), MetricMeta(_, y, _, _, _, _, _)) => x == y
    case _ => false
  }

  predicate SameType(a: Meta, b: Meta) {
    || (a.FileMeta? && b.FileMeta?) || (a.FunctionMeta? && b.FunctionMeta?) || (a.LineMeta? && b.LineMeta?)
    || (a.SiteMeta? && b.SiteMeta?) || (a.BranchMeta? && b.BranchMeta?) || (a.EdgeMeta? && b.EdgeMeta?)
    || (a.MetricMeta? && b.MetricMeta?)
  }

  /** Records of one type are merged exactly when they have the same identity. */
  lemma {:induction false} KeysMean(a: Meta, b: Meta)
    requires SameType(a, b)
    ensures Canonical(MetaKey(a)) == Canonical(MetaKey(b)) <==> SameIdentity(a, b)
  {
    if Canonical(MetaKey(a)) == Canonical(MetaKey(b)) { CanonicalInjective(MetaKey(a), MetaKey(b)); }
  }

  predicate KeyLe(a: Key, b: Key) {
    StrLe(Canonical(a), Canonical(b))
  }

  lemma {:induction false} KeyLeIsTotalOrder()
    ensures TotalOrder(KeyLe)
  {
    forall a, b
      ensures KeyLe(a, b) || KeyLe(b, a)
      ensures KeyLe(a, b) && KeyLe(b, a) ==> a == b
    {
      StrLeTotal(Canonical(a), Canonical(b));
      if KeyLe(a, b) && KeyLe(b, a) {
        StrLeAntisymmetric(Canonical(a), Canonical(b));
        CanonicalInjective(a, b);
      }
    }
    forall a, b, c | KeyLe(a, b) && KeyLe(b, c)
      ensures KeyLe(a, c)
    {
      StrLeTransitive(Canonical(a), Canonical(b), Canonical(c));
    }
  }

  datatype Slot = Functions | Lines | Sites | Branches | Statements | Edges

  /** Which child lists a record has (FILE_SPEC, FUNCTION_SPEC, BRANCH_SPEC, or none). */
  datatype Kind = FileKind | FunctionKind | BranchKind | LeafKind

  function Slots(kind: Kind): set<Slot> {
    match kind
    case FileKind => {Functions, Lines, Sites, Branches}
    case FunctionKind => {Statements, Sites, Branches}
    case BranchKind => {Edges}
    case LeafKind => {}
  }

  function ChildKind(slot: Slot): Kind {
    match slot
    case Functions => FunctionKind
    case Branches => BranchKind
    case _ => LeafKind
  }

  function Depth(kind: Kind): nat {
    match kind
    case FileKind => 3
    case FunctionKind => 2
    case BranchKind => 1
    case LeafKind => 0
  }

  /** The aggregates that `merge_records` leaves alone and `recompute_coverage` rewrites. */
  datatype Field =
    | FunctionFound | FunctionHit | StatementFunctionsInstrumented | LineFound | LineHit
    | StatementSitesEligible | StatementSitesInstrumented | StatementSitesHit | StatementSitesFound
    | StatementFound | StatementHit
    | BranchSitesEligible | BranchSitesInstrumented | BranchFound | BranchHit
    | EdgesFound | EdgesHit

  datatype Rec = Rec(meta: Meta, hits: Option<nat>, covered: bool, derived: map<Field, nat>, kids: map<Slot, seq<Rec>>)

  function KeyOf(r: Rec): Key { MetaKey(r.meta) }

  function Kids(r: Rec, slot: Slot): seq<Rec> {
    if slot in r.kids then r.kids[slot] else []
  }

  function KidsAt(slot: Slot): Rec -> seq<Rec> { (r: Rec) => Kids(r, slot) }

  /** The children of all the items, in order. */
  function KidsOf(items: seq<Rec>, slot: Slot): seq<Rec> { FlatMap(items, KidsAt(slot)) }

  function Pick(k: Key): Rec -> seq<Rec> { (r: Rec) => if KeyOf(r) == k then [r] else [] }

  /** The records with key `k`, in order. */
  function Group(rs: seq<Rec>, k: Key): seq<Rec> { FlatMap(rs, Pick(k)) }

  function Keys(rs: seq<Rec>): set<Key> { set r | r in rs :: KeyOf(r) }

  function SortedKeys(rs: seq<Rec>): (keys: seq<Key>)
    ensures forall k :: k in keys <==> k in Keys(rs)
  {
    KeyLeIsTotalOrder();
    SortedSetLists(Keys(rs), KeyLe);
    SortedSet(Keys(rs), KeyLe)
  }

  lemma {:induction false} SortedKeysSorted(rs: seq<Rec>)
    ensures SortedBy(SortedKeys(rs), KeyLe) && Distinct(SortedKeys(rs))
    ensures |SortedKeys(rs)| == |Keys(rs)|
  {
    KeyLeIsTotalOrder();
    SortedSetLists(Keys(rs), KeyLe);
  }

  function Plus(a: Option<nat>, b: Option<nat>): Option<nat> {
    if a.None? then b else if b.None? then a else Some(a.value + b.value)
  }

  /** The sum of the hit counters, if any record has one. */
  function TotalHits(items: seq<Rec>): Option<nat> {
    if items == [] then None else Plus(items[0].hits, TotalHits(items[1..]))
  }

  lemma {:induction false} GroupMember(rs: seq<Rec>, k: Key, r: Rec)
    ensures r in Group(rs, k) <==> r in rs && KeyOf(r) == k
  {
    FlatMapMember(rs, Pick(k), r);
    if r in rs && KeyOf(r) == k { assert r in Pick(k)(r); }
  }

  lemma {:induction false} GroupOfKey(rs: seq<Rec>, k: Key)
    ensures k in Keys(rs) <==> Group(rs, k) != []
  {
    if k in Keys(rs) {
      var r :| r in rs && KeyOf(r) == k;
      GroupMember(rs, k, r);
    }
    if Group(rs, k) != [] {
      GroupMember(rs, k, Group(rs, k)[0]);
    }
  }

  // ---------------------------------------------------------------- what the merge produces

  /** One output record: the first item's metadata and derived fields, everybody's hits and children. */
  function MergedGroup(items: seq<Rec>, kind: Kind): Rec
    requires items != []
    decreases Depth(kind), 1
  {
    var total := TotalHits(items);
    Rec(items[0].meta, total, if total.Some? then total.value > 0 else items[0].covered, items[0].derived,
        MergedKids(items, kind))
  }

  function MergedKids(items: seq<Rec>, kind: Kind): (kids: map<Slot, seq<Rec>>)
    decreases Depth(kind), 0
  {
    map slot | slot in Slots(kind) :: Merged(KidsOf(items, slot), ChildKind(slot))
  }

  /** One output record per key, in canonical key order. */
  function Merged(rs: seq<Rec>, kind: Kind): (r: seq<Rec>)
    ensures |r| == |SortedKeys(rs)|
    decreases Depth(kind), 2
  {
    var keys := SortedKeys(rs);
    seq(|keys|, (i: nat) requires i < |keys| => GroupOfKey(rs, keys[i]); MergedGroup(Group(rs, keys[i]), kind))
  }

  /** Records that share a key, at any depth of the tree, carry the same metadata. */
  ghost predicate Consistent(rs: seq<Rec>, kind: Kind)
    decreases Depth(kind), 1
  {
    forall k :: k in Keys(rs) ==> ConsistentGroup(Group(rs, k), kind)
  }

  ghost predicate ConsistentGroup(items: seq<Rec>, kind: Kind)
    decreases Depth(kind), 0
  {
    && SameMeta(items)
    && forall slot :: slot in Slots(kind) ==> Consistent(KidsOf(items, slot), ChildKind(slot))
  }

  ghost predicate SameMeta(items: seq<Rec>) {
    forall i, j :: 0 <= i < |items| && 0 <= j < |items| ==> items[i].meta == items[j].meta
  }

  // ---------------------------------------------------------------- keys of the output

  ghost predicate DistinctKeys(rs: seq<Rec>) {
    forall i, j :: 0 <= i < j < |rs| ==> KeyOf(rs[i]) != KeyOf(rs[j])
  }

  lemma {:induction false} GroupOfDistinct(rs: seq<Rec>, i: nat)
    requires DistinctKeys(rs) && i < |rs|
    ensures Group(rs, KeyOf(rs[i])) == [rs[i]]
  {
    var k := KeyOf(rs[i]);
    if i == 0 {
      forall r | r in rs[1..]
        ensures KeyOf(r) != k
      {
        var j :| 0 <= j < |rs[1..]| && rs[1..][j] == r;
        assert rs[j + 1] == r;
      }
      NothingPicked(rs[1..], k);
    } else {
      GroupOfDistinct(rs[1..], i - 1);
      assert KeyOf(rs[0]) != k;
    }
  }

  lemma {:induction false} NothingPicked(rs: seq<Rec>, k: Key)
    requires forall r :: r in rs ==> KeyOf(r) != k
    ensures Group(rs, k) == []
  {
    GroupOfKey(rs, k);
    assert k !in Keys(rs);
  }

  lemma {:induction false} MergedAt(rs: seq<Rec>, kind: Kind, i: nat)
    requires i < |SortedKeys(rs)|
    ensures Group(rs, SortedKeys(rs)[i]) != []
    ensures Merged(rs, kind)[i] == MergedGroup(Group(rs, SortedKeys(rs)[i]), kind)
    ensures KeyOf(Merged(rs, kind)[i]) == SortedKeys(rs)[i]
  {
    var k := SortedKeys(rs)[i];
    GroupOfKey(rs, k);
    GroupMember(rs, k, Group(rs, k)[0]);
  }

  /** The output has exactly the distinct keys of the input, once each and sorted. */
  lemma {:induction false} MergedKeys(rs: seq<Rec>, kind: Kind)
    ensures Keys(Merged(rs, kind)) == Keys(rs)
    ensures DistinctKeys(Merged(rs, kind))
    ensures SortedKeys(Merged(rs, kind)) == SortedKeys(rs)
  {
    var keys, m := SortedKeys(rs), Merged(rs, kind);
    SortedKeysSorted(rs);
    forall i: nat | i < |keys|
      ensures KeyOf(m[i]) == keys[i]
    {
      MergedAt(rs, kind, i);
    }
    KeysListed(m, keys);
    assert Keys(m) == Keys(rs);
  }

  lemma {:induction false} KeysListed(m: seq<Rec>, keys: seq<Key>)
    requires |m| == |keys| && forall i :: 0 <= i < |m| ==> KeyOf(m[i]) == keys[i]
    ensures forall k :: k in Keys(m) <==> k in keys
  {
    forall k
      ensures k in Keys(m) <==> k in keys
    {
      if k in keys {
        var i: nat :| i < |keys| && keys[i] == k;
        assert m[i] in m;
      }
    }
  }

  /** Looking a key up in the output gives the merge of its group. */
  lemma {:induction false} GroupOfMerged(rs: seq<Rec>, kind: Kind, k: Key)
    ensures k in Keys(rs) ==> Group(rs, k) != [] && Group(Merged(rs, kind), k) == [MergedGroup(Group(rs, k), kind)]
    ensures k !in Keys(rs) ==> Group(Merged(rs, kind), k) == []
  {
    MergedKeys(rs, kind);
    if k in Keys(rs) {
      var i: nat :| i < |SortedKeys(rs)| && SortedKeys(rs)[i] == k;
      MergedAt(rs, kind, i);
      GroupOfDistinct(Merged(rs, kind), i);
    } else {
      GroupOfKey(Merged(rs, kind), k);
    }
  }

  /** Two merges are equal as soon as their keys and their groups' merges are. */
  lemma {:induction false} MergedEqual(a: seq<Rec>, b: seq<Rec>, kind: Kind)
    requires Keys(a) == Keys(b)
    requires forall k :: k in Keys(a) ==>
               Group(a, k) != [] && Group(b, k) != [] && MergedGroup(Group(a, k), kind) == MergedGroup(Group(b, k), kind)
    ensures Merged(a, kind) == Merged(b, kind)
  {
    assert SortedKeys(a) == SortedKeys(b);
    forall i: nat | i < |SortedKeys(a)|
      ensures Merged(a, kind)[i] == Merged(b, kind)[i]
    {
      MergedAt(a, kind, i);
      MergedAt(b, kind, i);
    }
  }

  lemma {:induction false} KeysAppend(a: seq<Rec>, b: seq<Rec>)
    ensures Keys(a + b) == Keys(a) + Keys(b)
  {
    assert forall r :: r in a + b <==> r in a || r in b;
  }

  lemma {:induction false} TotalHitsAppend(a: seq<Rec>, b: seq<Rec>)
    ensures TotalHits(a + b) == Plus(TotalHits(a), TotalHits(b))
  {
    if a == [] {
      assert a + b == b;
    } else {
      TotalHitsAppend(a[1..], b);
      assert (a + b)[1..] == a[1..] + b;
    }
  }

  lemma {:induction false} TotalHitsOfOne(m: Rec)
    ensures TotalHits([m]) == m.hits
  {
    assert [m][1..] == [];
  }

  // ---------------------------------------------------------------- merging merged records again

  /** Merging what was already merged with further records is merging everything at once. */
  lemma {:induction false} MergeAbsorbs(a: seq<Rec>, b: seq<Rec>, kind: Kind)
    ensures Merged(Merged(a, kind) + b, kind) == Merged(a + b, kind)
    decreases Depth(kind), 1
  {
    var m := Merged(a, kind);
    MergedKeys(a, kind);
    KeysAppend(a, b);
    KeysAppend(m, b);
    forall k | k in Keys(a + b)
      ensures Group(m + b, k) != [] && Group(a + b, k) != []
      ensures MergedGroup(Group(m + b, k), kind) == MergedGroup(Group(a + b, k), kind)
    {
      GroupOfKey(m + b, k);
      GroupOfKey(a + b, k);
      FlatMapAppend(a, b, Pick(k));
      FlatMapAppend(m, b, Pick(k));
      GroupOfMerged(a, kind, k);
      GroupOfKey(a, k);
      if k in Keys(a) {
        GroupAbsorbs(Group(a, k), Group(b, k), kind);
      }
    }
    MergedEqual(m + b, a + b, kind);
  }

  lemma {:induction false} GroupAbsorbs(items: seq<Rec>, more: seq<Rec>, kind: Kind)
    requires items != []
    ensures MergedGroup([MergedGroup(items, kind)] + more, kind) == MergedGroup(items + more, kind)
    decreases Depth(kind), 0
  {
    var m := MergedGroup(items, kind);
    TotalHitsAppend([m], more);
    TotalHitsAppend(items, more);
    TotalHitsOfOne(m);
    forall slot | slot in Slots(kind)
      ensures Merged(KidsOf([m] + more, slot), ChildKind(slot)) == Merged(KidsOf(items + more, slot), ChildKind(slot))
    {
      KidsAppend(items, more, slot);
      KidsAppend([m], more, slot);
      KidsOfOne(m, slot);
      ChildrenAreShallower(kind, slot);
      MergeAbsorbs(KidsOf(items, slot), KidsOf(more, slot), ChildKind(slot));
    }
    GroupsEqual([m] + more, items + more, kind);
  }

  lemma {:induction false} KidsAppend(a: seq<Rec>, b: seq<Rec>, slot: Slot)
    ensures KidsOf(a + b, slot) == KidsOf(a, slot) + KidsOf(b, slot)
  {
    FlatMapAppend(a, b, KidsAt(slot));
  }

  lemma {:induction false} KidsOfOne(m: Rec, slot: Slot)
    ensures KidsOf([m], slot) == Kids(m, slot)
  {
    FlatMapSnoc([], m, KidsAt(slot));
    assert [] + [m] == [m];
  }

  /** What a group contributes: its first record's fields, its total, its children. */
  lemma {:induction false} GroupsEqual(x: seq<Rec>, y: seq<Rec>, kind: Kind)
    requires x != [] && y != []
    requires x[0].meta == y[0].meta && x[0].derived == y[0].derived && TotalHits(x) == TotalHits(y)
    requires TotalHits(x).None? ==> x[0].covered == y[0].covered
    requires forall slot :: slot in Slots(kind) ==>
               Merged(KidsOf(x, slot), ChildKind(slot)) == Merged(KidsOf(y, slot), ChildKind(slot))
    ensures MergedGroup(x, kind) == MergedGroup(y, kind)
  {
    MergedKidsEqual(x, y, kind);
  }

  lemma {:induction false} MergedKidsEqual(x: seq<Rec>, y: seq<Rec>, kind: Kind)
    requires forall slot :: slot in Slots(kind) ==>
               Merged(KidsOf(x, slot), ChildKind(slot)) == Merged(KidsOf(y, slot), ChildKind(slot))
    ensures MergedKids(x, kind) == MergedKids(y, kind)
  {}

  lemma {:induction false} ChildrenAreShallower(kind: Kind, slot: Slot)
    requires slot in Slots(kind)
    ensures Depth(ChildKind(slot)) < Depth(kind)
  {}

  /** Acceptance is absorbed too: a later merge rejects exactly what one merge would have rejected. */
  lemma {:induction false} ConsistencyAbsorbs(a: seq<Rec>, b: seq<Rec>, kind: Kind)
    requires Consistent(a, kind)
    ensures Consistent(Merged(a, kind) + b, kind) <==> Consistent(a + b, kind)
    decreases Depth(kind), 1
  {
    var m := Merged(a, kind);
    MergedKeys(a, kind);
    KeysAppend(a, b);
    KeysAppend(m, b);
    forall k | k in Keys(a + b)
      ensures ConsistentGroup(Group(m + b, k), kind) <==> ConsistentGroup(Group(a + b, k), kind)
    {
      FlatMapAppend(a, b, Pick(k));
      FlatMapAppend(m, b, Pick(k));
      GroupOfMerged(a, kind, k);
      GroupOfKey(a, k);
      if k in Keys(a) {
        GroupConsistencyAbsorbs(Group(a, k), Group(b, k), kind);
      } else {
        assert Group(m, k) == Group(a, k);
      }
    }
  }

  lemma {:induction false} GroupConsistencyAbsorbs(items: seq<Rec>, more: seq<Rec>, kind: Kind)
    requires items != [] && ConsistentGroup(items, kind)
    ensures ConsistentGroup([MergedGroup(items, kind)] + more, kind) <==> ConsistentGroup(items + more, kind)
    decreases Depth(kind), 0
  {
    var m := MergedGroup(items, kind);
    SameMetaAppend([m], more);
    SameMetaAppend(items, more);
    forall slot | slot in Slots(kind)
      ensures Consistent(KidsOf([m] + more, slot), ChildKind(slot)) <==>
              Consistent(KidsOf(items + more, slot), ChildKind(slot))
    {
      KidsAppend(items, more, slot);
      KidsAppend([m], more, slot);
      KidsOfOne(m, slot);
      ChildrenAreShallower(kind, slot);
      ConsistencyAbsorbs(KidsOf(items, slot), KidsOf(more, slot), ChildKind(slot));
    }
  }

  lemma {:induction false} SameMetaAppend(items: seq<Rec>, more: seq<Rec>)
    requires items != [] && SameMeta(items)
    ensures SameMeta(items + more) <==> forall j :: 0 <= j < |more| ==> more[j].meta == items[0].meta
  {
    var all := items + more;
    if SameMeta(all) {
      forall j | 0 <= j < |more|
        ensures more[j].meta == items[0].meta
      {
        assert all[|items| + j].meta == all[0].meta;
      }
    }
    if forall j :: 0 <= j < |more| ==> more[j].meta == items[0].meta {
      forall i | 0 <= i < |all|
        ensures all[i].meta == items[0].meta
      {
        if i >= |items| { assert all[i] == more[i - |items|]; }
      }
    }
  }

  /** A rejected part makes the whole rejected. */
  lemma {:induction false} ConsistencyOfPrefix(a: seq<Rec>, b: seq<Rec>, kind: Kind)
    requires Consistent(a + b, kind)
    ensures Consistent(a, kind)
    decreases Depth(kind)
  {
    KeysAppend(a, b);
    forall k | k in Keys(a)
      ensures ConsistentGroup(Group(a, k), kind)
    {
      FlatMapAppend(a, b, Pick(k));
      var x, y := Group(a, k), Group(b, k);
      assert ConsistentGroup(x + y, kind);
      assert SameMeta(x) by {
        assert forall i :: 0 <= i < |x| ==> (x + y)[i] == x[i];
      }
      forall slot | slot in Slots(kind)
        ensures Consistent(KidsOf(x, slot), ChildKind(slot))
      {
        KidsAppend(x, y, slot);
        ChildrenAreShallower(kind, slot);
        ConsistencyOfPrefix(KidsOf(x, slot), KidsOf(y, slot), ChildKind(slot));
      }
    }
  }

  // ---------------------------------------------------------------- conservation of hits

  /** A place in the tree. */
  datatype Path = At(key: Key) | Into(key: Key, slot: Slot, rest: Path)

  /** All the hits recorded at a place, over all records that reach it. */
  function HitsAt(rs: seq<Rec>, kind: Kind, p: Path): Option<nat>
    decreases p
  {
    match p
    case At(k) => TotalHits(Group(rs, k))
    case Into(k, slot, rest) =>
      if slot in Slots(kind) then HitsAt(KidsOf(Group(rs, k), slot), ChildKind(slot), rest) else None
  }

  predicate PathIn(rs: seq<Rec>, kind: Kind, p: Path)
    decreases p
  {
    match p
    case At(k) => k in Keys(rs)
    case Into(k, slot, rest) => slot in Slots(kind) && PathIn(KidsOf(Group(rs, k), slot), ChildKind(slot), rest)
  }

  /** Merging moves no hits and invents or loses no place. */
  lemma {:induction false} MergeConservesHits(rs: seq<Rec>, kind: Kind, p: Path)
    ensures HitsAt(Merged(rs, kind), kind, p) == HitsAt(rs, kind, p)
    ensures PathIn(Merged(rs, kind), kind, p) == PathIn(rs, kind, p)
    decreases p
  {
    MergedKeys(rs, kind);
    match p
    case At(k) =>
      GroupTotal(rs, kind, k);
    case Into(k, slot, rest) =>
      if slot in Slots(kind) {
        GroupChildren(rs, kind, k, slot);
        MergeConservesHits(KidsOf(Group(rs, k), slot), ChildKind(slot), rest);
      }
  }

  lemma {:induction false} GroupTotal(rs: seq<Rec>, kind: Kind, k: Key)
    ensures TotalHits(Group(Merged(rs, kind), k)) == TotalHits(Group(rs, k))
  {
    GroupOfMerged(rs, kind, k);
    GroupOfKey(rs, k);
    if k in Keys(rs) { TotalHitsOfOne(MergedGroup(Group(rs, k), kind)); }
  }

  lemma {:induction false} GroupChildren(rs: seq<Rec>, kind: Kind, k: Key, slot: Slot)
    requires slot in Slots(kind)
    ensures KidsOf(Group(Merged(rs, kind), k), slot) == Merged(KidsOf(Group(rs, k), slot), ChildKind(slot))
  {
    GroupOfMerged(rs, kind, k);
    GroupOfKey(rs, k);
    if k in Keys(rs) {
      KidsOfOne(MergedGroup(Group(rs, k), kind), slot);
    } else {
      assert KidsOf([], slot) == [];
      NothingMerged(ChildKind(slot));
    }
  }

  lemma {:induction false} NothingMerged(kind: Kind)
    ensures Merged([], kind) == []
  {
    assert forall k :: k in SortedKeys([]) ==> k in Keys([]);
  }

  lemma {:induction false} HitsAdd(a: seq<Rec>, b: seq<Rec>, kind: Kind, p: Path)
    ensures HitsAt(a + b, kind, p) == Plus(HitsAt(a, kind, p), HitsAt(b, kind, p))
    ensures PathIn(a + b, kind, p) == (PathIn(a, kind, p) || PathIn(b, kind, p))
    decreases p
  {
    KeysAppend(a, b);
    FlatMapAppend(a, b, Pick(p.key));
    match p
    case At(k) =>
      TotalHitsAppend(Group(a, k), Group(b, k));
    case Into(k, slot, rest) =>
      KidsAppend(Group(a, k), Group(b, k), slot);
      HitsAdd(KidsOf(Group(a, k), slot), KidsOf(Group(b, k), slot), ChildKind(slot), rest);
  }

  /** What each shard recorded at a place. */
  function CountersAt(shards: seq<seq<Rec>>, kind: Kind, p: Path): seq<Option<nat>> {
    seq(|shards|, (s: nat) requires s < |shards| => HitsAt(shards[s], kind, p))
  }

  function SumOf(counters: seq<Option<nat>>): Option<nat> {
    if counters == [] then None else Plus(counters[0], SumOf(counters[1..]))
  }

  function Whole(shard: seq<Rec>): seq<Rec> { shard }

  predicate Hit(hits: Option<nat>) { hits.Some? && hits.value > 0 }

  /** At every place of the tree the merged counter is the sum of the shards' counters, and the
      place is hit exactly when some shard hit it. */
  lemma {:induction false} MergedHitsAreShardSums(shards: seq<seq<Rec>>, kind: Kind, p: Path)
    ensures HitsAt(Merged(FlatMap(shards, Whole), kind), kind, p) == SumOf(CountersAt(shards, kind, p))
    ensures Hit(HitsAt(Merged(FlatMap(shards, Whole), kind), kind, p)) <==>
            exists counter :: counter in CountersAt(shards, kind, p) && Hit(counter)
  {
    MergeConservesHits(FlatMap(shards, Whole), kind, p);
    ShardSums(shards, kind, p);
    SumHit(CountersAt(shards, kind, p));
  }

  lemma {:induction false} ShardSums(shards: seq<seq<Rec>>, kind: Kind, p: Path)
    ensures HitsAt(FlatMap(shards, Whole), kind, p) == SumOf(CountersAt(shards, kind, p))
  {
    if shards == [] {
      NoHitsInNothing(kind, p);
    } else {
      ShardSums(shards[1..], kind, p);
      HitsAdd(shards[0], FlatMap(shards[1..], Whole), kind, p);
      assert CountersAt(shards, kind, p)[1..] == CountersAt(shards[1..], kind, p);
    }
  }

  lemma {:induction false} SumHit(counters: seq<Option<nat>>)
    ensures Hit(SumOf(counters)) <==> exists counter :: counter in counters && Hit(counter)
  {
    if counters != [] {
      SumHit(counters[1..]);
      assert counters == [counters[0]] + counters[1..];
    }
  }

  lemma {:induction false} NoHitsInNothing(kind: Kind, p: Path)
    ensures HitsAt([], kind, p) == None
    decreases p
  {
    if p.Into? && p.slot in Slots(kind) { NoHitsInNothing(ChildKind(p.slot), p.rest); }
  }

  // ---------------------------------------------------------------- independence of record order

  /** A record without what it merely inherits from the first shard. */
  function Core(r: Rec, kind: Kind): Rec
    decreases Depth(kind), 1
  {
    Rec(r.meta, r.hits, r.hits.Some? && r.hits.value > 0, map[], CoreKids(r, kind))
  }

  function CoreKids(r: Rec, kind: Kind): map<Slot, seq<Rec>>
    decreases Depth(kind), 0
  {
    map slot | slot in Slots(kind) :: CoreAll(Kids(r, slot), ChildKind(slot))
  }

  function CoreAll(rs: seq<Rec>, kind: Kind): seq<Rec>
    decreases Depth(kind), 2
  {
    seq(|rs|, (i: nat) requires i < |rs| => Core(rs[i], kind))
  }

  /** The merge accepts any reordering of what it accepts and, apart from inherited fields,
      gives the same answer: shards may be supplied in any order. */
  lemma {:induction false} MergeIgnoresOrder(a: seq<Rec>, b: seq<Rec>, kind: Kind)
    requires multiset(a) == multiset(b) && Consistent(a, kind)
    ensures Consistent(b, kind)
    ensures CoreAll(Merged(a, kind), kind) == CoreAll(Merged(b, kind), kind)
    decreases Depth(kind), 1
  {
    SameMembers(a, b);
    assert Keys(a) == Keys(b);
    forall k | k in Keys(a)
      ensures Group(a, k) != [] && Group(b, k) != []
      ensures ConsistentGroup(Group(b, k), kind)
      ensures Core(MergedGroup(Group(a, k), kind), kind) == Core(MergedGroup(Group(b, k), kind), kind)
    {
      GroupOfKey(a, k);
      GroupOfKey(b, k);
      FlatMapPermutation(a, b, Pick(k));
      GroupIgnoresOrder(Group(a, k), Group(b, k), kind);
    }
    CoreAllEqual(a, b, kind);
  }

  lemma {:induction false} CoreAllEqual(a: seq<Rec>, b: seq<Rec>, kind: Kind)
    requires Keys(a) == Keys(b)
    requires forall k :: k in Keys(a) ==>
               Group(a, k) != [] && Group(b, k) != []
               && Core(MergedGroup(Group(a, k), kind), kind) == Core(MergedGroup(Group(b, k), kind), kind)
    ensures CoreAll(Merged(a, kind), kind) == CoreAll(Merged(b, kind), kind)
  {
    var x, y := Merged(a, kind), Merged(b, kind);
    assert SortedKeys(a) == SortedKeys(b);
    forall i: nat | i < |x|
      ensures Core(x[i], kind) == Core(y[i], kind)
    {
      MergedAt(a, kind, i);
      MergedAt(b, kind, i);
    }
    CoreOfLists(x, y, kind);
  }

  lemma {:induction false} CoreOfLists(x: seq<Rec>, y: seq<Rec>, kind: Kind)
    requires |x| == |y| && forall i :: 0 <= i < |x| ==> Core(x[i], kind) == Core(y[i], kind)
    ensures CoreAll(x, kind) == CoreAll(y, kind)
  {}

  lemma {:induction false} GroupIgnoresOrder(x: seq<Rec>, y: seq<Rec>, kind: Kind)
    requires multiset(x) == multiset(y) && x != [] && y != [] && ConsistentGroup(x, kind)
    ensures ConsistentGroup(y, kind)
    ensures Core(MergedGroup(x, kind), kind) == Core(MergedGroup(y, kind), kind)
    decreases Depth(kind), 0
  {
    SameMembers(x, y);
    forall i | 0 <= i < |y|
      ensures y[i].meta == x[0].meta
    {
      assert y[i] in x;
      var j :| 0 <= j < |x| && x[j] == y[i];
      assert x[j].meta == x[0].meta;
    }
    TotalHitsPermutation(x, y);
    forall slot | slot in Slots(kind)
      ensures Consistent(KidsOf(y, slot), ChildKind(slot))
      ensures CoreAll(Merged(KidsOf(x, slot), ChildKind(slot)), ChildKind(slot)) ==
              CoreAll(Merged(KidsOf(y, slot), ChildKind(slot)), ChildKind(slot))
    {
      FlatMapPermutation(x, y, KidsAt(slot));
      ChildrenAreShallower(kind, slot);
      MergeIgnoresOrder(KidsOf(x, slot), KidsOf(y, slot), ChildKind(slot));
    }
    CoresEqual(x, y, kind);
  }

  lemma {:induction false} CoresEqual(x: seq<Rec>, y: seq<Rec>, kind: Kind)
    requires x != [] && y != [] && x[0].meta == y[0].meta && TotalHits(x) == TotalHits(y)
    requires forall slot :: slot in Slots(kind) ==>
               CoreAll(Merged(KidsOf(x, slot), ChildKind(slot)), ChildKind(slot)) ==
               CoreAll(Merged(KidsOf(y, slot), ChildKind(slot)), ChildKind(slot))
    ensures Core(MergedGroup(x, kind), kind) == Core(MergedGroup(y, kind), kind)
  {
    var a, b := MergedGroup(x, kind), MergedGroup(y, kind);
    forall slot | slot in Slots(kind)
      ensures CoreAll(Kids(a, slot), ChildKind(slot)) == CoreAll(Kids(b, slot), ChildKind(slot))
    {
      assert Kids(a, slot) == Merged(KidsOf(x, slot), ChildKind(slot));
      assert Kids(b, slot) == Merged(KidsOf(y, slot), ChildKind(slot));
    }
    CoreFromKids(a, b, kind);
  }

  lemma {:induction false} CoreFromKids(a: Rec, b: Rec, kind: Kind)
    requires a.meta == b.meta && a.hits == b.hits
    requires forall slot :: slot in Slots(kind) ==>
               CoreAll(Kids(a, slot), ChildKind(slot)) == CoreAll(Kids(b, slot), ChildKind(slot))
    ensures Core(a, kind) == Core(b, kind)
  {
    assert CoreKids(a, kind) == CoreKids(b, kind);
  }

  lemma {:induction false} TotalHitsWithout(rs: seq<Rec>, k: nat)
    requires k < |rs|
    ensures TotalHits(rs) == Plus(rs[k].hits, TotalHits(Without(rs, k)))
  {
    var a, x, b := rs[..k], rs[k], rs[k + 1..];
    assert rs == a + ([x] + b);
    TotalHitsAppend(a, [x] + b);
    TotalHitsAppend([x], b);
    TotalHitsOfOne(x);
    TotalHitsAppend(a, b);
    assert Without(rs, k) == a + b;
    PlusSwaps(TotalHits(a), x.hits, TotalHits(b));
  }

  lemma {:induction false} PlusSwaps(a: Option<nat>, x: Option<nat>, b: Option<nat>)
    ensures Plus(a, Plus(x, b)) == Plus(x, Plus(a, b))
  {}

  lemma {:induction false} TotalHitsPermutation(a: seq<Rec>, b: seq<Rec>)
    requires multiset(a) == multiset(b)
    ensures TotalHits(a) == TotalHits(b)
    decreases |a|
  {
    SameMembers(a, b);
    if a != [] {
      assert a[0] in b;
      var k: nat :| k < |b| && b[k] == a[0];
      WithoutMultiset(a, 0);
      WithoutMultiset(b, k);
      TotalHitsPermutation(Without(a, 0), Without(b, k));
      TotalHitsWithout(a, 0);
      TotalHitsWithout(b, k);
    }
  }

  // ---------------------------------------------------------------- the procedure

  function SlotList(kind: Kind): (r: seq<Slot>)
    ensures Elements(r) == Slots(kind)
  {
    match kind
    case FileKind => [Functions, Lines, Sites, Branches]
    case FunctionKind => [Statements, Sites, Branches]
    case BranchKind => [Edges]
    case LeafKind => []
  }

  /** `merge_records`: accepts exactly the consistent lists and returns their merge. */
  method MergeRecords(records: seq<Rec>, kind: Kind) returns (r: Result<seq<Rec>>)
    ensures r.Ok? <==> Consistent(records, kind)
    ensures r.Ok? ==> r.value == Merged(records, kind)
    decreases Depth(kind), 2
  {
    var groups := GroupByKey(records);
    var merged: seq<Rec> := [];
    var keys := SortedKeys(records);
    while |merged| < |keys|
      invariant GroupsMerged(records, kind, merged)
      decreases |keys| - |merged|
    {
      MergedAt(records, kind, |merged|);
      GroupListed(records, groups, |merged|);
      var out := MergeItems(groups[keys[|merged|]], kind);
      if out.Err? {
        RejectedGroup(records, kind, |merged|);
        return Err(out.error);
      }
      OneMoreGroup(records, kind, merged, out.value);
      merged := merged + [out.value];
    }
    AllGroupsMerged(records, kind, merged);
    r := Ok(merged);
  }

  /** The first groups, in key order, passed and were merged into `merged`. */
  ghost predicate GroupsMerged(records: seq<Rec>, kind: Kind, merged: seq<Rec>) {
    && |merged| <= |SortedKeys(records)|
    && forall g :: 0 <= g < |merged| ==> GroupMerged(Group(records, SortedKeys(records)[g]), kind, merged[g])
  }

  ghost predicate GroupMerged(items: seq<Rec>, kind: Kind, m: Rec) {
    items != [] && ConsistentGroup(items, kind) && m == MergedGroup(items, kind)
  }

  lemma {:induction false} GroupListed(records: seq<Rec>, groups: map<Key, seq<Rec>>, g: nat)
    requires GroupTable(groups, records) && g < |SortedKeys(records)|
    ensures SortedKeys(records)[g] in groups
    ensures groups[SortedKeys(records)[g]] == Group(records, SortedKeys(records)[g])
  {
    assert SortedKeys(records)[g] in SortedKeys(records);
  }

  lemma {:induction false} RejectedGroup(records: seq<Rec>, kind: Kind, g: nat)
    requires g < |SortedKeys(records)| && !ConsistentGroup(Group(records, SortedKeys(records)[g]), kind)
    ensures !Consistent(records, kind)
  {
    assert SortedKeys(records)[g] in SortedKeys(records);
  }

  lemma {:induction false} OneMoreGroup(records: seq<Rec>, kind: Kind, merged: seq<Rec>, m: Rec)
    requires GroupsMerged(records, kind, merged) && |merged| < |SortedKeys(records)|
    requires GroupMerged(Group(records, SortedKeys(records)[|merged|]), kind, m)
    ensures GroupsMerged(records, kind, merged + [m])
  {
    var keys, now := SortedKeys(records), merged + [m];
    forall g | 0 <= g < |now|
      ensures GroupMerged(Group(records, keys[g]), kind, now[g])
    {
      if g < |merged| {
        assert now[g] == merged[g];
      } else {
        assert g == |merged| && now[g] == m;
      }
    }
  }

  lemma {:induction false} AllGroupsMerged(records: seq<Rec>, kind: Kind, merged: seq<Rec>)
    requires GroupsMerged(records, kind, merged) && |merged| == |SortedKeys(records)|
    ensures Consistent(records, kind) && merged == Merged(records, kind)
  {
    var keys := SortedKeys(records);
    forall k | k in Keys(records)
      ensures ConsistentGroup(Group(records, k), kind)
    {
      assert k in keys;
      var g :| 0 <= g < |keys| && keys[g] == k;
      assert GroupMerged(Group(records, keys[g]), kind, merged[g]);
    }
    forall g | 0 <= g < |keys|
      ensures merged[g] == Merged(records, kind)[g]
    {
      MergedAt(records, kind, g);
      assert GroupMerged(Group(records, keys[g]), kind, merged[g]);
    }
  }

  method GroupByKey(records: seq<Rec>) returns (groups: map<Key, seq<Rec>>)
    ensures GroupTable(groups, records)
  {
    groups := map[];
    for i := 0 to |records|
      invariant GroupTable(groups, records[..i])
    {
      var key := KeyOf(records[i]);
      ExtendTable(groups, records[..i], records[i]);
      groups := groups[key := (if key in groups then groups[key] else []) + [records[i]]];
      assert records[..i + 1] == records[..i] + [records[i]];
    }
    assert records[..|records|] == records;
  }

  ghost predicate GroupTable(groups: map<Key, seq<Rec>>, records: seq<Rec>) {
    groups.Keys == Keys(records) && forall k :: k in groups ==> groups[k] == Group(records, k)
  }

  lemma {:induction false} ExtendTable(groups: map<Key, seq<Rec>>, records: seq<Rec>, record: Rec)
    requires GroupTable(groups, records)
    ensures var key := KeyOf(record);
            GroupTable(groups[key := (if key in groups then groups[key] else []) + [record]], records + [record])
  {
    var key := KeyOf(record);
    KeysAppend(records, [record]);
    assert Keys([record]) == {key} by { assert record in [record]; }
    GroupOfKey(records, key);
    forall k
      ensures Group(records + [record], k) == Group(records, k) + if k == key then [record] else []
    {
      FlatMapSnoc(records, record, Pick(k));
    }
  }

  /** The body of the loop over the groups. */
  method MergeItems(items: seq<Rec>, kind: Kind) returns (r: Result<Rec>)
    requires items != []
    ensures r.Ok? <==> ConsistentGroup(items, kind)
    ensures r.Ok? ==> r.value == MergedGroup(items, kind)
    decreases Depth(kind), 1
  {
    for i := 1 to |items|
      invariant forall j :: 0 <= j < i ==> items[j].meta == items[0].meta
    {
      if items[i].meta != items[0].meta {
        return Err("coverage metadata differs");
      }
    }
    var hits := AddHits(items);
    var kids := MergeChildren(items, kind);
    if kids.Err? {
      return Err(kids.error);
    }
    r := Ok(Rec(items[0].meta, hits, if hits.Some? then hits.value > 0 else items[0].covered,
                items[0].derived, kids.value));
  }

  method AddHits(items: seq<Rec>) returns (hits: Option<nat>)
    ensures hits == TotalHits(items)
  {
    hits := None;
    for i := 0 to |items|
      invariant hits == TotalHits(items[..i])
    {
      TotalHitsAppend(items[..i], [items[i]]);
      TotalHitsOfOne(items[i]);
      hits := Plus(hits, items[i].hits);
      assert items[..i + 1] == items[..i] + [items[i]];
    }
    assert items[..|items|] == items;
  }

  method MergeChildren(items: seq<Rec>, kind: Kind) returns (r: Result<map<Slot, seq<Rec>>>)
    ensures r.Ok? <==> forall slot :: slot in Slots(kind) ==> Consistent(KidsOf(items, slot), ChildKind(slot))
    ensures r.Ok? ==> r.value == MergedKids(items, kind)
    decreases Depth(kind), 0
  {
    var slots := SlotList(kind);
    var kids: map<Slot, seq<Rec>> := map[];
    ghost var done: set<Slot> := {};
    while slots != []
      invariant Elements(slots) + done == Slots(kind)
      invariant ChildrenMerged(items, kids, done)
      decreases |slots|
    {
      var slot := slots[0];
      assert slot in Elements(slots);
      ChildrenAreShallower(kind, slot);
      var merged := MergeRecords(KidsOf(items, slot), ChildKind(slot));
      if merged.Err? {
        return Err(merged.error);
      }
      OneMoreChild(items, kids, done, slot, merged.value);
      kids := kids[slot := merged.value];
      done := done + {slot};
      HeadElement(slots);
      slots := slots[1..];
    }
    AllChildrenMerged(items, kind, kids);
    r := Ok(kids);
  }

  lemma {:induction false} HeadElement<T>(s: seq<T>)
    requires s != []
    ensures Elements(s) == {s[0]} + Elements(s[1..])
  {
    assert s == [s[0]] + s[1..];
  }

  ghost predicate ChildrenMerged(items: seq<Rec>, kids: map<Slot, seq<Rec>>, done: set<Slot>) {
    kids.Keys == done && forall slot :: slot in done ==> ChildMerged(items, slot, kids[slot])
  }

  ghost predicate ChildMerged(items: seq<Rec>, slot: Slot, merged: seq<Rec>) {
    Consistent(KidsOf(items, slot), ChildKind(slot)) && merged == Merged(KidsOf(items, slot), ChildKind(slot))
  }

  lemma {:induction false} OneMoreChild(items: seq<Rec>, kids: map<Slot, seq<Rec>>, done: set<Slot>, slot: Slot, merged: seq<Rec>)
    requires ChildrenMerged(items, kids, done) && ChildMerged(items, slot, merged)
    ensures ChildrenMerged(items, kids[slot := merged], done + {slot})
  {}

  lemma {:induction false} AllChildrenMerged(items: seq<Rec>, kind: Kind, kids: map<Slot, seq<Rec>>)
    requires ChildrenMerged(items, kids, Slots(kind))
    ensures forall slot :: slot in Slots(kind) ==> Consistent(KidsOf(items, slot), ChildKind(slot))
    ensures kids == MergedKids(items, kind)
  {
    var want := MergedKids(items, kind);
    assert want.Keys == Slots(kind);
    forall slot | slot in Slots(kind)
      ensures Consistent(KidsOf(items, slot), ChildKind(slot))
    {
      assert ChildMerged(items, slot, kids[slot]);
    }
    forall slot | slot in Slots(kind)
      ensures kids[slot] == want[slot]
    {
      assert ChildMerged(items, slot, kids[slot]);
    }
    SameMaps(kids, want);
  }

  lemma {:induction false} SameMaps<K, V>(a: map<K, V>, b: map<K, V>)
    requires a.Keys == b.Keys && forall k :: k in a.Keys ==> a[k] == b[k]
    ensures a == b
  {}
}
