/** What the proven mapping guarantees for the state documents rewritten along it. */
module StateMigration {
  import opened Orders
  import opened Seqs
  import opened Migration

  // ---------------------------------------------------------------- the mapping

  function Identities(entries: seq<Entry>): set<string> {
    (set e | e in entries :: e.executionId) + (set e | e in entries :: e.testId)
  }

  /** Every identity of the old report has an image, and every identity of the new one is an image. */
  lemma {:induction false} TotalInjection(source: seq<Entry>, target: seq<Entry>, m: map<string, string>)
    requires Pairable(source, target) && IsMapping(m, source, target)
    ensures m.Keys == Identities(source) && m.Values == Identities(target)
    ensures forall a, b :: a in m && b in m && m[a] == m[b] ==> a == b
  {
    MappingFunctional(m, source, target);
    forall a
      ensures a in m <==> a in Identities(source)
    {
      if a in m {
        assert Paired(source, target, a, m[a]);
      }
      if a in Identities(source) { HasImage(source, target, a); }
    }
    forall b
      ensures b in m.Values <==> b in Identities(target)
    {
      if b in m.Values {
        var a :| a in m && m[a] == b;
        assert Paired(source, target, a, b);
      }
      if b in Identities(target) {
        var a := HasOrigin(source, target, b);
        assert a in m && m[a] == b;
      }
    }
  }

  lemma {:induction false} HasImage(source: seq<Entry>, target: seq<Entry>, a: string)
    requires Pairable(source, target) && a in Identities(source)
    ensures exists b :: Paired(source, target, a, b)
  {
    var e :| e in source && (e.executionId == a || e.testId == a);
    if e.executionId == a {
      assert ExecutionKey(e) in KeysOf(target, ExecutionKey);
      var f :| f in target && ExecutionKey(f) == ExecutionKey(e);
      assert PairedBy(e, f, a, f.executionId) && Paired(source, target, a, f.executionId);
    } else {
      assert ParentKey(e) in KeysOf(target, ParentKey);
      var f :| f in target && ParentKey(f) == ParentKey(e);
      assert PairedBy(e, f, a, f.testId) && Paired(source, target, a, f.testId);
    }
  }

  lemma {:induction false} HasOrigin(source: seq<Entry>, target: seq<Entry>, b: string) returns (a: string)
    requires Pairable(source, target) && b in Identities(target)
    ensures Paired(source, target, a, b)
  {
    var f :| f in target && (f.executionId == b || f.testId == b);
    if f.executionId == b {
      assert ExecutionKey(f) in KeysOf(source, ExecutionKey);
      var e :| e in source && ExecutionKey(e) == ExecutionKey(f);
      assert PairedBy(e, f, e.executionId, b);
      a := e.executionId;
    } else {
      assert ParentKey(f) in KeysOf(source, ParentKey);
      var e :| e in source && ParentKey(e) == ParentKey(f);
      assert PairedBy(e, f, e.testId, b);
      a := e.testId;
    }
  }

  lemma {:induction false} PairedSymmetric(source: seq<Entry>, target: seq<Entry>, a: string, b: string)
    ensures Paired(source, target, a, b) <==> Paired(target, source, b, a)
  {
    if Paired(source, target, a, b) {
      var e, f :| e in source && f in target && PairedBy(e, f, a, b);
      assert PairedBy(f, e, b, a);
    }
    if Paired(target, source, b, a) {
      var f, e :| f in target && e in source && PairedBy(f, e, b, a);
      assert PairedBy(e, f, a, b);
    }
  }

  /** The reports prove the way back as well, and it is the inverse mapping. */
  lemma {:induction false} WayBack(source: seq<Entry>, target: seq<Entry>, m: map<string, string>, n: map<string, string>)
    requires Pairable(source, target) && IsMapping(m, source, target) && IsMapping(n, target, source)
    ensures Pairable(target, source) && Inverse(m, n)
  {
    Reversible(source, target);
    forall a | a in m
      ensures m[a] in n && n[m[a]] == a
    {
      assert Paired(source, target, a, m[a]);
      PairedSymmetric(source, target, a, m[a]);
    }
    forall b | b in n
      ensures n[b] in m && m[n[b]] == b
    {
      assert Paired(target, source, b, n[b]);
      PairedSymmetric(target, source, b, n[b]);
    }
  }

  lemma {:induction false} Reversible(source: seq<Entry>, target: seq<Entry>)
    requires Pairable(source, target)
    ensures Pairable(target, source)
  {
    forall a, b, c | Paired(target, source, a, b) && Paired(target, source, a, c)
      ensures b == c
    {
      PairedSymmetric(target, source, a, b);
      PairedSymmetric(target, source, a, c);
    }
    forall a, b, c | Paired(target, source, a, c) && Paired(target, source, b, c)
      ensures a == b
    {
      PairedSymmetric(target, source, a, c);
      PairedSymmetric(target, source, b, c);
    }
  }

  /** The order of the manifests leaves no trace in what is accepted, nor in the mapping. */
  lemma {:induction false} EntryOrderIgnored(
      source: seq<Entry>, target: seq<Entry>, source': seq<Entry>, target': seq<Entry>)
    requires multiset(source) == multiset(source') && multiset(target) == multiset(target')
    ensures Pairable(source, target) <==> Pairable(source', target')
    ensures forall m, m' :: IsMapping(m, source, target) && IsMapping(m', source', target') ==> m == m'
  {
    SameMembers(source, source');
    SameMembers(target, target');
    if Pairable(source, target) { PairableByMembers(source, target, source', target'); }
    if Pairable(source', target') { PairableByMembers(source', target', source, target); }
    forall m, m' | IsMapping(m, source, target) && IsMapping(m', source', target')
      ensures m == m'
    {
      OneMapping(source, target, source', target', m, m');
    }
  }

  ghost predicate SameEntries(a: seq<Entry>, b: seq<Entry>) {
    forall e :: e in a <==> e in b
  }

  lemma {:induction false} PairedByMembers(source: seq<Entry>, target: seq<Entry>, source': seq<Entry>, target': seq<Entry>)
    requires SameEntries(source, source') && SameEntries(target, target')
    ensures forall a, b :: Paired(source, target, a, b) <==> Paired(source', target', a, b)
  {}

  lemma {:induction false} PairableByMembers(source: seq<Entry>, target: seq<Entry>, source': seq<Entry>, target': seq<Entry>)
    requires SameEntries(source, source') && SameEntries(target, target') && Pairable(source, target)
    ensures Pairable(source', target')
  {
    PairedByMembers(source, target, source', target');
    SameKeys(source, source', ExecutionKey);
    SameKeys(target, target', ExecutionKey);
    SameKeys(source, source', ParentKey);
    SameKeys(target, target', ParentKey);
  }

  lemma {:induction false} OneMapping(
      source: seq<Entry>, target: seq<Entry>, source': seq<Entry>, target': seq<Entry>,
      m: map<string, string>, m': map<string, string>)
    requires SameEntries(source, source') && SameEntries(target, target')
    requires IsMapping(m, source, target) && IsMapping(m', source', target')
    ensures m == m'
  {
    PairedByMembers(source, target, source', target');
    forall a
      ensures a in m <==> a in m'
      ensures a in m ==> m[a] == m'[a]
    {
      if a in m { assert Paired(source', target', a, m[a]); }
      if a in m' { assert Paired(source, target, a, m'[a]); }
    }
    assert m.Keys == m'.Keys;
  }

  lemma {:induction false} SameKeys(a: seq<Entry>, b: seq<Entry>, key: Entry -> Key)
    requires forall e :: e in a <==> e in b
    ensures KeysOf(a, key) == KeysOf(b, key)
  {}

  // ---------------------------------------------------------------- state documents

  datatype StateRow = StateRow(testId: string, text: string)

  datatype Proposal = Proposal(testId: string, suggested: Option<string>, text: string)

  datatype Header = Header(schemaVersion: nat, algorithm: string, codec: string)

  /** A state document; `failedTestIds` decides before `kind` does. */
  datatype State = State(
    kind: string, failedTestIds: Option<seq<string>>,
    tests: seq<StateRow>, entries: seq<StateRow>, proposals: seq<Proposal>,
    header: Header)

  const CURRENT_ALGORITHM := "resq-test-case-id-v3"
  const CURRENT_STATE_VERSION := 2

  predicate Recognised(s: State) {
    || s.failedTestIds.Some?
    || s.kind in {"resq-flake-history", "resq-quarantine-manifest", "resq-quarantine-proposals"}
  }

  function RowId(r: StateRow): seq<string> { [r.testId] }

  function ProposalIds(p: Proposal): seq<string> {
    [p.testId] + if p.suggested.Some? then [p.suggested.value] else []
  }

  /** The identities the document bears, in order. */
  function References(s: State): seq<string> {
    if s.failedTestIds.Some? then s.failedTestIds.value
    else if s.kind == "resq-flake-history" then FlatMap(s.tests, RowId)
    else if s.kind == "resq-quarantine-manifest" then FlatMap(s.entries, RowId)
    else if s.kind == "resq-quarantine-proposals" then FlatMap(s.proposals, ProposalIds)
    else []
  }

  // ---------------------------------------------------------------- rewriting

  /** `map_id` */
  function MapId(id: string, m: map<string, string>): Option<string> {
    if id != "" && id in m then Some(m[id]) else None
  }

  ghost predicate Mapped(id: string, m: map<string, string>) { id != "" && id in m }

  function Image(m: map<string, string>, id: string): string {
    if id in m then m[id] else id
  }

  function MapIds(ids: seq<string>, m: map<string, string>): seq<string> {
    if ids == [] then [] else MapIds(ids[..|ids| - 1], m) + [Image(m, ids[|ids| - 1])]
  }

  function MapRows(rows: seq<StateRow>, m: map<string, string>): seq<StateRow> {
    if rows == [] then []
    else
      var last := rows[|rows| - 1];
      MapRows(rows[..|rows| - 1], m) + [last.(testId := Image(m, last.testId))]
  }

  function MapProposal(p: Proposal, m: map<string, string>): Proposal {
    p.(testId := Image(m, p.testId),
       suggested := if p.suggested.Some? then Some(Image(m, p.suggested.value)) else None)
  }

  function MapProposals(ps: seq<Proposal>, m: map<string, string>): seq<Proposal> {
    if ps == [] then [] else MapProposals(ps[..|ps| - 1], m) + [MapProposal(ps[|ps| - 1], m)]
  }

  /** The document with every identity replaced, and nothing else but the header. */
  function Rewritten(s: State, m: map<string, string>, codec: string): State {
    var t := s.(header := Header(CURRENT_STATE_VERSION, CURRENT_ALGORITHM, codec));
    if s.failedTestIds.Some? then t.(failedTestIds := Some(MapIds(s.failedTestIds.value, m)))
    else if s.kind == "resq-flake-history" then t.(tests := MapRows(s.tests, m))
    else if s.kind == "resq-quarantine-manifest" then t.(entries := MapRows(s.entries, m))
    else if s.kind == "resq-quarantine-proposals" then t.(proposals := MapProposals(s.proposals, m))
    else t
  }

  lemma {:induction false} UpdateNext<T>(done: seq<T>, s: seq<T>, i: nat, x: T)
    requires |done| == i < |s|
    ensures (done + s[i..])[i := x] == done + [x] + s[i + 1..]
    ensures (done + s[i..])[i] == s[i]
  {}

  method RewriteIds(ids: seq<string>, m: map<string, string>) returns (r: Result<seq<string>>)
    ensures r.Ok? <==> forall id :: id in ids ==> Mapped(id, m)
    ensures r.Ok? ==> r.value == MapIds(ids, m)
  {
    var out := [];
    for i := 0 to |ids|
      invariant out == MapIds(ids[..i], m)
      invariant forall id :: id in ids[..i] ==> Mapped(id, m)
    {
      assert ids[..i + 1][..i] == ids[..i] && ids[i] in ids;
      TakeNext(ids, i);
      var id := MapId(ids[i], m);
      if id.None? {
        return Err("no proven mapping");
      }
      out := out + [id.value];
    }
    assert ids[..|ids|] == ids;
    r := Ok(out);
  }

  method RewriteRows(rows: seq<StateRow>, m: map<string, string>) returns (r: Result<seq<StateRow>>)
    ensures r.Ok? <==> forall row :: row in rows ==> Mapped(row.testId, m)
    ensures r.Ok? ==> r.value == MapRows(rows, m)
  {
    var out := rows;
    for i := 0 to |rows|
      invariant RowsDone(rows, m, i, out)
    {
      var id := MapId(rows[i].testId, m);
      if id.None? {
        assert rows[i] in rows;
        return Err("no proven mapping");
      }
      NextRow(rows, m, i, out, id.value);
      out := out[i := out[i].(testId := id.value)];
    }
    AllRowsDone(rows, m, out);
    r := Ok(out);
  }

  /** The first `n` rows are rewritten, the others are as they were. */
  ghost predicate RowsDone(rows: seq<StateRow>, m: map<string, string>, n: nat, out: seq<StateRow>) {
    && n <= |rows| == |out|
    && out[..n] == MapRows(rows[..n], m) && out[n..] == rows[n..]
    && forall row :: row in rows[..n] ==> Mapped(row.testId, m)
  }

  lemma {:induction false} NextRow(rows: seq<StateRow>, m: map<string, string>, n: nat, out: seq<StateRow>, id: string)
    requires n < |rows| && RowsDone(rows, m, n, out) && Mapped(rows[n].testId, m) && id == Image(m, rows[n].testId)
    ensures out[n] == rows[n] && RowsDone(rows, m, n + 1, out[n := rows[n].(testId := id)])
  {
    assert out[n..][0] == rows[n..][0];
    TakeNext(rows, n);
    assert rows[..n + 1][..n] == rows[..n];
    UpdateAt(out, n, rows[n].(testId := id));
    assert rows[n + 1..] == rows[n..][1..];
  }

  lemma {:induction false} UpdateAt<T>(s: seq<T>, n: nat, x: T)
    requires n < |s|
    ensures s[n := x][..n + 1] == s[..n] + [x] && s[n := x][n + 1..] == s[n..][1..]
  {}

  lemma {:induction false} AllRowsDone(rows: seq<StateRow>, m: map<string, string>, out: seq<StateRow>)
    requires RowsDone(rows, m, |rows|, out)
    ensures out == MapRows(rows, m) && forall row :: row in rows ==> Mapped(row.testId, m)
  {
    assert rows[..|rows|] == rows && out[..|out|] == out;
  }

  ghost predicate ProposalMapped(p: Proposal, m: map<string, string>) {
    Mapped(p.testId, m) && (p.suggested.Some? ==> Mapped(p.suggested.value, m))
  }

  method RewriteProposal(p: Proposal, m: map<string, string>) returns (r: Result<Proposal>)
    ensures r.Ok? <==> ProposalMapped(p, m)
    ensures r.Ok? ==> r.value == MapProposal(p, m)
  {
    var id := MapId(p.testId, m);
    if id.None? {
      return Err("no proven mapping");
    }
    var row := p.(testId := id.value);
    if row.suggested.Some? {
      var suggested := MapId(row.suggested.value, m);
      if suggested.None? {
        return Err("no proven mapping");
      }
      row := row.(suggested := suggested);
    }
    r := Ok(row);
  }

  method RewriteProposals(ps: seq<Proposal>, m: map<string, string>) returns (r: Result<seq<Proposal>>)
    ensures r.Ok? <==> forall p :: p in ps ==> ProposalMapped(p, m)
    ensures r.Ok? ==> r.value == MapProposals(ps, m)
  {
    var out := ps;
    for i := 0 to |ps|
      invariant out == MapProposals(ps[..i], m) + ps[i..]
      invariant |MapProposals(ps[..i], m)| == i
      invariant forall p :: p in ps[..i] ==> ProposalMapped(p, m)
    {
      assert ps[..i + 1][..i] == ps[..i] && ps[i] in ps;
      TakeNext(ps, i);
      var row := RewriteProposal(ps[i], m);
      if row.Err? {
        return Err(row.error);
      }
      UpdateNext(MapProposals(ps[..i], m), ps, i, row.value);
      out := out[i := row.value];
    }
    assert ps[..|ps|] == ps;
    r := Ok(out);
  }

  /** `migrate_state`: a recognised document migrates exactly when all its identities are mapped. */
  method MigrateState(s: State, m: map<string, string>, codec: string) returns (r: Result<State>)
    ensures r.Ok? <==> Recognised(s) && forall id :: id in References(s) ==> Mapped(id, m)
    ensures r.Ok? ==> r.value == Rewritten(s, m, codec)
  {
    var t := s.(header := Header(2, "resq-test-case-id-v3", codec));
    if s.failedTestIds.Some? {
      var ids := RewriteIds(s.failedTestIds.value, m);
      if ids.Err? { return Err(ids.error); }
      r := Ok(t.(failedTestIds := Some(ids.value)));
    } else if s.kind == "resq-flake-history" {
      RowReferences(s.tests, m);
      var rows := RewriteRows(s.tests, m);
      if rows.Err? { return Err(rows.error); }
      r := Ok(t.(tests := rows.value));
    } else if s.kind == "resq-quarantine-manifest" {
      RowReferences(s.entries, m);
      var rows := RewriteRows(s.entries, m);
      if rows.Err? { return Err(rows.error); }
      r := Ok(t.(entries := rows.value));
    } else if s.kind == "resq-quarantine-proposals" {
      ProposalReferences(s.proposals, m);
      var rows := RewriteProposals(s.proposals, m);
      if rows.Err? { return Err(rows.error); }
      r := Ok(t.(proposals := rows.value));
    } else {
      r := Err("unrecognized identity-bearing state document");
    }
  }

  lemma {:induction false} RowReferences(rows: seq<StateRow>, m: map<string, string>)
    ensures (forall id :: id in FlatMap(rows, RowId) ==> Mapped(id, m)) <==> forall r :: r in rows ==> Mapped(r.testId, m)
  {
    forall id
      ensures id in FlatMap(rows, RowId) <==> exists r :: r in rows && id == r.testId
    {
      FlatMapMember(rows, RowId, id);
      if r :| r in rows && id == r.testId { assert id in RowId(r); }
    }
  }

  lemma {:induction false} ProposalReferences(ps: seq<Proposal>, m: map<string, string>)
    ensures (forall id :: id in FlatMap(ps, ProposalIds) ==> Mapped(id, m)) <==> forall p :: p in ps ==> ProposalMapped(p, m)
  {
    forall id
      ensures id in FlatMap(ps, ProposalIds) <==> exists p :: p in ps && id in ProposalIds(p)
    {
      FlatMapMember(ps, ProposalIds, id);
    }
    if forall id :: id in FlatMap(ps, ProposalIds) ==> Mapped(id, m) {
      forall p | p in ps
        ensures ProposalMapped(p, m)
      {
        assert p.testId in ProposalIds(p) && p.testId in FlatMap(ps, ProposalIds);
        if p.suggested.Some? {
          assert ProposalIds(p)[1] == p.suggested.value;
          assert p.suggested.value in FlatMap(ps, ProposalIds);
        }
      }
    }
  }

  // ---------------------------------------------------------------- what migration keeps

  lemma {:induction false} MapIdsAt(ids: seq<string>, m: map<string, string>)
    ensures |MapIds(ids, m)| == |ids| && forall i :: 0 <= i < |ids| ==> MapIds(ids, m)[i] == Image(m, ids[i])
  {
    if ids != [] { MapIdsAt(ids[..|ids| - 1], m); }
  }

  lemma {:induction false} MapIdsAppend(a: seq<string>, b: seq<string>, m: map<string, string>)
    ensures MapIds(a + b, m) == MapIds(a, m) + MapIds(b, m)
  {
    MapIdsAt(a + b, m);
    MapIdsAt(a, m);
    MapIdsAt(b, m);
  }

  lemma {:induction false} RowsReferences(rows: seq<StateRow>, m: map<string, string>)
    ensures FlatMap(MapRows(rows, m), RowId) == MapIds(FlatMap(rows, RowId), m)
  {
    if rows != [] {
      var init, last := rows[..|rows| - 1], rows[|rows| - 1];
      RowsReferences(init, m);
      assert rows == init + [last];
      FlatMapSnoc(init, last, RowId);
      FlatMapSnoc(MapRows(init, m), last.(testId := Image(m, last.testId)), RowId);
      MapIdsAppend(FlatMap(init, RowId), [last.testId], m);
      assert MapIds([last.testId], m) == [Image(m, last.testId)];
    }
  }

  lemma {:induction false} ProposalsReferences(ps: seq<Proposal>, m: map<string, string>)
    ensures FlatMap(MapProposals(ps, m), ProposalIds) == MapIds(FlatMap(ps, ProposalIds), m)
  {
    if ps != [] {
      var init, last := ps[..|ps| - 1], ps[|ps| - 1];
      ProposalsReferences(init, m);
      assert ps == init + [last];
      FlatMapSnoc(init, last, ProposalIds);
      FlatMapSnoc(MapProposals(init, m), MapProposal(last, m), ProposalIds);
      MapIdsAppend(FlatMap(init, ProposalIds), ProposalIds(last), m);
      ProposalIdsMapped(last, m);
    }
  }

  lemma {:induction false} ProposalIdsMapped(p: Proposal, m: map<string, string>)
    ensures ProposalIds(MapProposal(p, m)) == MapIds(ProposalIds(p), m)
  {
    MapIdsAt(ProposalIds(p), m);
  }

  /** Every identity is replaced by its image, in place. */
  lemma {:induction false} ReferencesMapped(s: State, m: map<string, string>, codec: string)
    requires Recognised(s)
    ensures Recognised(Rewritten(s, m, codec))
    ensures References(Rewritten(s, m, codec)) == MapIds(References(s), m)
  {
    RowsReferences(s.tests, m);
    RowsReferences(s.entries, m);
    ProposalsReferences(s.proposals, m);
  }

  /** Distinct identities stay distinct. */
  lemma {:induction false} DistinctnessKept(s: State, m: map<string, string>, codec: string)
    requires Recognised(s) && Distinct(References(s)) && forall id :: id in References(s) ==> id in m
    requires forall a, b :: a in m && b in m && m[a] == m[b] ==> a == b
    ensures Distinct(References(Rewritten(s, m, codec)))
  {
    ReferencesMapped(s, m, codec);
    MapIdsAt(References(s), m);
  }

  lemma {:induction false} IdsRestored(ids: seq<string>, m: map<string, string>, n: map<string, string>)
    requires Inverse(m, n) && forall id :: id in ids ==> id in m
    ensures MapIds(MapIds(ids, m), n) == ids
  {
    MapIdsAt(ids, m);
    MapIdsAt(MapIds(ids, m), n);
    forall i | 0 <= i < |ids|
      ensures MapIds(MapIds(ids, m), n)[i] == ids[i]
    {
      assert ids[i] in ids;
    }
  }

  lemma {:induction false} RowsRestored(rows: seq<StateRow>, m: map<string, string>, n: map<string, string>)
    requires Inverse(m, n) && forall r :: r in rows ==> r.testId in m
    ensures MapRows(MapRows(rows, m), n) == rows
  {
    if rows != [] {
      var init, last := rows[..|rows| - 1], rows[|rows| - 1];
      RowsRestored(init, m, n);
      assert rows == init + [last];
      assert MapRows(rows, m)[..|MapRows(rows, m)| - 1] == MapRows(init, m);
    }
  }

  lemma {:induction false} ProposalsRestored(ps: seq<Proposal>, m: map<string, string>, n: map<string, string>)
    requires Inverse(m, n) && forall p :: p in ps ==> ProposalMapped(p, m)
    ensures MapProposals(MapProposals(ps, m), n) == ps
  {
    if ps != [] {
      var init, last := ps[..|ps| - 1], ps[|ps| - 1];
      ProposalsRestored(init, m, n);
      assert ps == init + [last];
      assert ProposalMapped(last, m);
      assert MapProposals(ps, m)[..|MapProposals(ps, m)| - 1] == MapProposals(init, m);
    }
  }

  /** Migrating back with the inverse mapping restores the document, up to its header. */
  lemma {:induction false} RoundTrip(s: State, m: map<string, string>, n: map<string, string>, codec: string, codec': string)
    requires Inverse(m, n) && Recognised(s) && forall id :: id in References(s) ==> Mapped(id, m)
    ensures Rewritten(Rewritten(s, m, codec), n, codec').(header := s.header) == s
  {
    if s.failedTestIds.Some? {
      assert References(s) == s.failedTestIds.value;
      forall id | id in References(s)
        ensures id in m
      {
        assert Mapped(id, m);
      }
      IdsRestored(s.failedTestIds.value, m, n);
    } else if s.kind == "resq-flake-history" {
      RowReferences(s.tests, m);
      RowsRestored(s.tests, m, n);
    } else if s.kind == "resq-quarantine-manifest" {
      RowReferences(s.entries, m);
      RowsRestored(s.entries, m, n);
    } else {
      ProposalReferences(s.proposals, m);
      ProposalsRestored(s.proposals, m, n);
    }
  }

  /** ... and the way back is itself accepted: its identities are all mapped. */
  lemma {:induction false} WayBackAccepted(s: State, m: map<string, string>, n: map<string, string>, codec: string)
    requires Inverse(m, n) && Recognised(s) && (forall id :: id in References(s) ==> Mapped(id, m))
    requires forall b :: b in n ==> b != ""
    ensures forall id :: id in References(Rewritten(s, m, codec)) ==> Mapped(id, n)
  {
    ReferencesMapped(s, m, codec);
    MapIdsAt(References(s), m);
    forall id | id in MapIds(References(s), m)
      ensures Mapped(id, n)
    {
      var i :| 0 <= i < |References(s)| && MapIds(References(s), m)[i] == id;
      assert References(s)[i] in References(s);
    }
  }
}
