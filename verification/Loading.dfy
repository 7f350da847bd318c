/** The relational store: insertion under key constraints, and loading a payload as one transaction. */
module Loading {
  import opened Orders
  import opened Seqs
  import opened Tables

  type Key = (Table, seq<string>)

  type Rows = map<Key, Row>

  datatype Item = Item(table: Table, row: Row)

  function KeyOf(i: Item): Key { (i.table, i.row.primary) }

  /** The row this one refers to. */
  function Target(i: Item): Option<Key> {
    if Parent(i.table).None? then None else Some((Parent(i.table).value, i.row.foreign))
  }

  predicate Resolved(db: Rows, i: Item) { Target(i).Some? ==> Target(i).value in db }

  /** One insertion: a primary key is new and a foreign key resolves, or the database refuses. */
  function Insert(db: Rows, i: Item): Option<Rows> {
    if KeyOf(i) in db || !Resolved(db, i) then None else Some(db[KeyOf(i) := i.row])
  }

  function InsertAll(db: Rows, items: seq<Item>): Option<Rows> {
    if items == [] then Some(db)
    else
      var before := InsertAll(db, items[..|items| - 1]);
      if before.None? then None else Insert(before.value, items[|items| - 1])
  }

  function Tagged(t: Table): Row -> seq<Item> { (r: Row) => [Item(t, r)] }

  function ItemsOf(p: Payload): Table -> seq<Item> {
    (t: Table) => if t in p then FlatMap(p[t], Tagged(t)) else []
  }

  /** The rows of a payload in the order they are inserted. */
  function Items(p: Payload): seq<Item> { FlatMap(TABLES, ItemsOf(p)) }

  predicate WellFormed(p: Payload) { p.Keys == Elements(TABLES) }

  // ---------------------------------------------------------------- what loads

  function KeysOf(items: seq<Item>): set<Key> { set i | i in items :: KeyOf(i) }

  ghost predicate DistinctKeys(items: seq<Item>) {
    forall i, j :: 0 <= i < j < |items| ==> KeyOf(items[i]) != KeyOf(items[j])
  }

  /** Every row finds the row it refers to in the database or among the rows before it. */
  ghost predicate ParentsBefore(db: Rows, items: seq<Item>) {
    forall i :: 0 <= i < |items| && Target(items[i]).Some? ==>
      Target(items[i]).value in db.Keys + KeysOf(items[..i])
  }

  ghost predicate Loadable(db: Rows, items: seq<Item>) {
    && DistinctKeys(items)
    && (forall i :: i in items ==> KeyOf(i) !in db)
    && ParentsBefore(db, items)
  }

  /** The database with the rows added. */
  ghost predicate Extended(db: Rows, items: seq<Item>, next: Rows) {
    && next.Keys == db.Keys + KeysOf(items)
    && (forall k :: k in db && k !in KeysOf(items) ==> next[k] == db[k])
    && (forall i :: i in items ==> KeyOf(i) in next && next[KeyOf(i)] == i.row)
  }

  lemma {:induction false} KeysSnoc(items: seq<Item>, i: Item)
    ensures KeysOf(items + [i]) == KeysOf(items) + {KeyOf(i)}
  {}

  lemma {:induction false} DistinctSnoc(init: seq<Item>, last: Item)
    ensures DistinctKeys(init + [last]) <==> DistinctKeys(init) && KeyOf(last) !in KeysOf(init)
  {
    var items := init + [last];
    if DistinctKeys(items) {
      forall i, j | 0 <= i < j < |init|
        ensures KeyOf(init[i]) != KeyOf(init[j])
      {
        assert KeyOf(items[i]) != KeyOf(items[j]);
      }
      forall x | x in init
        ensures KeyOf(x) != KeyOf(last)
      {
        var i :| 0 <= i < |init| && init[i] == x;
        assert KeyOf(items[i]) != KeyOf(items[|init|]);
      }
    }
    if DistinctKeys(init) && KeyOf(last) !in KeysOf(init) {
      forall i, j | 0 <= i < j < |items|
        ensures KeyOf(items[i]) != KeyOf(items[j])
      {
        assert init[i] in init;
        assert KeyOf(init[i]) in KeysOf(init);
      }
    }
  }

  lemma {:induction false} ParentsSnoc(db: Rows, init: seq<Item>, last: Item)
    ensures ParentsBefore(db, init + [last]) <==>
            ParentsBefore(db, init) && (Target(last).Some? ==> Target(last).value in db.Keys + KeysOf(init))
  {
    var items := init + [last];
    assert items[..|init|] == init && items[|init|] == last;
    if ParentsBefore(db, items) {
      forall i | 0 <= i < |init| && Target(init[i]).Some?
        ensures Target(init[i]).value in db.Keys + KeysOf(init[..i])
      {
        assert items[i] == init[i] && items[..i] == init[..i];
      }
    }
    if ParentsBefore(db, init) && (Target(last).Some? ==> Target(last).value in db.Keys + KeysOf(init)) {
      forall i | 0 <= i < |items| && Target(items[i]).Some?
        ensures Target(items[i]).value in db.Keys + KeysOf(items[..i])
      {
        if i < |init| { assert items[i] == init[i] && items[..i] == init[..i]; }
      }
    }
  }

  /** Inserting one by one succeeds exactly for loadable rows, and then adds them all. */
  lemma {:induction false} InsertAllLoads(db: Rows, items: seq<Item>)
    ensures InsertAll(db, items).Some? <==> Loadable(db, items)
    ensures InsertAll(db, items).Some? ==> Extended(db, items, InsertAll(db, items).value)
  {
    if items != [] {
      var init, last := items[..|items| - 1], items[|items| - 1];
      assert items == init + [last];
      InsertAllLoads(db, init);
      DistinctSnoc(init, last);
      ParentsSnoc(db, init, last);
      KeysSnoc(init, last);
      if InsertAll(db, init).Some? {
        InsertOne(db, init, last, InsertAll(db, init).value);
      }
    }
  }

  lemma {:induction false} InsertOne(db: Rows, init: seq<Item>, last: Item, mid: Rows)
    requires Extended(db, init, mid) && DistinctKeys(init)
    ensures Insert(mid, last).Some? <==>
            && KeyOf(last) !in db && KeyOf(last) !in KeysOf(init)
            && (Target(last).Some? ==> Target(last).value in db.Keys + KeysOf(init))
    ensures Insert(mid, last).Some? ==> Extended(db, init + [last], Insert(mid, last).value)
  {
    KeysSnoc(init, last);
    assert KeyOf(last) in mid <==> KeyOf(last) in db || KeyOf(last) in KeysOf(init);
    if Insert(mid, last).Some? {
      var next := Insert(mid, last).value;
      forall i | i in init + [last]
        ensures KeyOf(i) in next && next[KeyOf(i)] == i.row
      {
        if i in init { assert KeyOf(i) in KeysOf(init); }
      }
    }
  }

  /** Every row refers to an existing row. */
  ghost predicate Sound(db: Rows) {
    forall k :: k in db ==> k.1 == db[k].primary && Resolved(db, Item(k.0, db[k]))
  }

  /** A row of table `t` refers to a row of table `u`. */
  predicate Refers(db: Rows, t: Table, u: Table) {
    forall k :: k in db && k.0 == t ==> (u, db[k].foreign) in db
  }

  lemma {:induction false} ReferenceHolds(db: Rows, t: Table, u: Table)
    requires Sound(db) && Parent(t) == Some(u)
    ensures Refers(db, t, u)
  {
    forall k | k in db && k.0 == t
      ensures (u, db[k].foreign) in db
    {
      assert Resolved(db, Item(t, db[k]));
    }
  }

  /** The foreign keys of the schema, one by one. */
  lemma {:induction false} ReferencesHold(db: Rows)
    requires Sound(db)
    ensures Refers(db, Tests, Runs) && Refers(db, Attempts, Tests) && Refers(db, Benchmarks, Runs)
    ensures Refers(db, Diagnostics, Runs) && Refers(db, CoverageRuns, Runs) && Refers(db, CoverageFiles, Runs)
    ensures Refers(db, CoverageFunctions, CoverageFiles) && Refers(db, CoverageSites, CoverageFiles)
    ensures Refers(db, CoverageEdges, CoverageSites) && Refers(db, CoverageContexts, Runs)
    ensures Refers(db, CoverageContextMetrics, CoverageContexts)
  {
    ReferenceHolds(db, Tests, Runs);
    ReferenceHolds(db, Attempts, Tests);
    ReferenceHolds(db, Benchmarks, Runs);
    ReferenceHolds(db, Diagnostics, Runs);
    ReferenceHolds(db, CoverageRuns, Runs);
    ReferenceHolds(db, CoverageFiles, Runs);
    ReferenceHolds(db, CoverageFunctions, CoverageFiles);
    ReferenceHolds(db, CoverageSites, CoverageFiles);
    ReferenceHolds(db, CoverageEdges, CoverageSites);
    ReferenceHolds(db, CoverageContexts, Runs);
    ReferenceHolds(db, CoverageContextMetrics, CoverageContexts);
  }

  lemma {:induction false} StaysSound(db: Rows, items: seq<Item>, next: Rows)
    requires Sound(db) && Loadable(db, items) && Extended(db, items, next)
    ensures Sound(next)
  {
    forall k | k in next
      ensures k.1 == next[k].primary && Resolved(next, Item(k.0, next[k]))
    {
      if k in KeysOf(items) {
        var i :| i in items && KeyOf(i) == k;
        var n :| 0 <= n < |items| && items[n] == i;
        assert KeysOf(items[..n]) <= KeysOf(items);
      }
    }
  }

  class Database {
    var rows: Rows

    ghost predicate Valid()
      reads this
    {
      Sound(rows)
    }

    constructor ()
      ensures Valid() && rows == map[]
    {
      rows := map[];
    }

    /** One row: refused when its primary key is taken or its foreign key does not resolve. */
    method InsertRow(t: Table, row: Row) returns (ok: bool)
      modifies this
      ensures var next := Insert(old(rows), Item(t, row));
              ok == next.Some? && rows == if ok then next.value else old(rows)
    {
      var parent := Parent(t);
      if (t, row.primary) in rows || (parent.Some? && (parent.value, row.foreign) !in rows) {
        return false;
      }
      rows := rows[(t, row.primary) := row];
      ok := true;
    }

    /** `executemany` for one table. */
    method InsertTable(t: Table, table: seq<Row>) returns (ok: bool)
      modifies this
      ensures var next := InsertAll(old(rows), FlatMap(table, Tagged(t)));
              ok == next.Some? && (ok ==> rows == next.value)
    {
      assert table[..0] == [];
      for i := 0 to |table|
        invariant InsertAll(old(rows), FlatMap(table[..i], Tagged(t))) == Some(rows)
      {
        var item := Item(t, table[i]);
        FlatMapNext(table, Tagged(t), i);
        InsertStep(old(rows), FlatMap(table[..i], Tagged(t)), item);
        ok := InsertRow(t, table[i]);
        if !ok {
          RestRefused(old(rows), table, t, i);
          return;
        }
      }
      assert table[..|table|] == table;
      ok := true;
    }

    /** The inserts of one payload, table by table. */
    method InsertTables(p: Payload) returns (ok: bool)
      requires WellFormed(p)
      modifies this
      ensures var next := InsertAll(old(rows), Items(p));
              ok == next.Some? && (ok ==> rows == next.value)
    {
      for i := 0 to |TABLES|
        invariant InsertAll(old(rows), FlatMap(TABLES[..i], ItemsOf(p))) == Some(rows)
      {
        var t := TABLES[i];
        assert t in TABLES;
        FlatMapNext(TABLES, ItemsOf(p), i);
        InsertAppend(old(rows), FlatMap(TABLES[..i], ItemsOf(p)), ItemsOf(p)(t));
        ok := InsertTable(t, p[t]);
        if !ok {
          TableRefused(old(rows), p, i);
          return;
        }
      }
      assert TABLES[..|TABLES|] == TABLES;
      ok := true;
    }

    /** `load_payload`: all rows in table order, or the database as it was. */
    method LoadPayload(p: Payload) returns (ok: bool)
      requires Valid()
      modifies this
      ensures Valid()
      ensures ok <==> WellFormed(p) && Loadable(old(rows), Items(p))
      ensures ok ==> Extended(old(rows), Items(p), rows)
      ensures !ok ==> rows == old(rows)
    {
      if p.Keys != Elements(TABLES) {
        return false;
      }
      var saved := rows;
      InsertAllLoads(saved, Items(p));
      ok := InsertTables(p);
      if !ok {
        rows := saved;
      } else {
        StaysSound(saved, Items(p), rows);
      }
    }
  }

  lemma {:induction false} InsertStep(db: Rows, items: seq<Item>, i: Item)
    ensures InsertAll(db, items + [i]) == if InsertAll(db, items).None? then None else Insert(InsertAll(db, items).value, i)
  {
    assert (items + [i])[..|items|] == items;
  }

  lemma {:induction false} InsertAppend(db: Rows, a: seq<Item>, b: seq<Item>)
    ensures InsertAll(db, a + b) == if InsertAll(db, a).None? then None else InsertAll(InsertAll(db, a).value, b)
  {
    if b == [] {
      assert a + b == a;
    } else {
      InsertAppend(db, a, b[..|b| - 1]);
      assert (a + b)[..|a + b| - 1] == a + b[..|b| - 1];
    }
  }

  lemma {:induction false} RestRefused(db: Rows, table: seq<Row>, t: Table, i: nat)
    requires i < |table| && InsertAll(db, FlatMap(table[..i + 1], Tagged(t))).None?
    ensures InsertAll(db, FlatMap(table, Tagged(t))).None?
  {
    assert table == table[..i + 1] + table[i + 1..];
    FlatMapAppend(table[..i + 1], table[i + 1..], Tagged(t));
    InsertAppend(db, FlatMap(table[..i + 1], Tagged(t)), FlatMap(table[i + 1..], Tagged(t)));
  }

  lemma {:induction false} TableRefused(db: Rows, p: Payload, i: nat)
    requires i < |TABLES| && InsertAll(db, FlatMap(TABLES[..i + 1], ItemsOf(p))).None?
    ensures InsertAll(db, Items(p)).None?
  {
    var tables := TABLES;
    assert tables == tables[..i + 1] + tables[i + 1..];
    FlatMapAppend(tables[..i + 1], tables[i + 1..], ItemsOf(p));
    InsertAppend(db, FlatMap(tables[..i + 1], ItemsOf(p)), FlatMap(tables[i + 1..], ItemsOf(p)));
  }
}
