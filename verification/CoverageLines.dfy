/** When the lines of a merged file still match the lines of its functions. Several functions may
    list one line; the checker compares the file's line with the last function that lists it. */
module CoverageLines {
  import opened Orders
  import opened Seqs
  import opened Records
  import opened Flattening
  import opened CoverageContract
  import opened CoverageFile

  ghost predicate Lists(functions: seq<Rec>, s: Key, k: Key) {
    exists f :: f in functions && KeyOf(f) == k && s in Keys(Kids(f, Statements))
  }

  /** Of the functions that list line `s`, the last one in the order of the merged list. */
  ghost predicate LastLister(functions: seq<Rec>, s: Key, k: Key) {
    Lists(functions, s, k) && forall j :: Lists(functions, s, j) ==> KeyLe(j, k)
  }

  /** The hits that all copies of function `k` record for line `s`. */
  function LineHits(functions: seq<Rec>, s: Key, k: Key): Option<nat> {
    TotalHits(Group(KidsOf(Group(functions, k), Statements), s))
  }

  /** For every line, the last function that lists it saw the hits that the files record. */
  ghost predicate LinesAgree(files: seq<Rec>) {
    forall s, k :: LastLister(KidsOf(files, Functions), s, k) ==>
      LineHits(KidsOf(files, Functions), s, k) == TotalHits(Group(KidsOf(files, Lines), s))
  }

  // ---------------------------------------------------------------- who lists a line last

  lemma {:induction false} ListedByGroup(functions: seq<Rec>, s: Key, k: Key)
    ensures Lists(functions, s, k) <==> s in Keys(KidsOf(Group(functions, k), Statements))
  {
    if Lists(functions, s, k) {
      var f :| f in functions && KeyOf(f) == k && s in Keys(Kids(f, Statements));
      GroupMember(functions, k, f);
      ChildIn(Group(functions, k), Statements, f, s);
    }
    if s in Keys(KidsOf(Group(functions, k), Statements)) {
      var f := ChildOf(Group(functions, k), Statements, s);
      GroupMember(functions, k, f);
    }
  }

  /** The lines of a merged function are those that its copies list. */
  lemma {:induction false} MergedFunctionLines(functions: seq<Rec>, i: nat)
    requires i < |SortedKeys(functions)|
    ensures var m, k := Merged(functions, FunctionKind)[i], SortedKeys(functions)[i];
            && Kids(m, Statements) == Merged(KidsOf(Group(functions, k), Statements), LeafKind)
            && forall s :: s in Keys(Kids(m, Statements)) <==> Lists(functions, s, k)
  {
    var k := SortedKeys(functions)[i];
    MergedAt(functions, FunctionKind, i);
    MergedFunctionKids(Group(functions, k), Merged(functions, FunctionKind)[i]);
    MergedLineKeys(functions, k);
  }

  lemma {:induction false} MergedFunctionKids(items: seq<Rec>, m: Rec)
    requires items != [] && m == MergedGroup(items, FunctionKind)
    ensures Kids(m, Statements) == Merged(KidsOf(items, Statements), LeafKind)
  {
    StatementSlot();
    MergedKidsAt(items, FunctionKind, Statements);
  }

  lemma {:induction false} StatementSlot()
    ensures Statements in Slots(FunctionKind) && ChildKind(Statements) == LeafKind
  {}

  lemma {:induction false} MergedLineKeys(functions: seq<Rec>, k: Key)
    ensures forall s :: s in Keys(Merged(KidsOf(Group(functions, k), Statements), LeafKind)) <==> Lists(functions, s, k)
  {
    MergedKeys(KidsOf(Group(functions, k), Statements), LeafKind);
    forall s
      ensures s in Keys(KidsOf(Group(functions, k), Statements)) <==> Lists(functions, s, k)
    {
      ListedByGroup(functions, s, k);
    }
  }

  lemma {:induction false} FindLastLister(functions: seq<Rec>, s: Key) returns (k: Key)
    requires s in Keys(KidsOf(functions, Statements))
    ensures LastLister(functions, s, k)
  {
    var f := ChildOf(functions, Statements, s);
    var listers := set j | j in Keys(functions) && Lists(functions, s, j);
    assert KeyOf(f) in listers;
    KeyLeIsTotalOrder();
    k := FindGreatest(listers, KeyLe);
    forall j | Lists(functions, s, j)
      ensures KeyLe(j, k)
    {
      assert j in listers;
    }
  }

  lemma {:induction false} NoLaterLister(functions: seq<Rec>, s: Key, i: nat)
    requires i < |SortedKeys(functions)| && LastLister(functions, s, SortedKeys(functions)[i])
    ensures forall m :: m in Merged(functions, FunctionKind)[i + 1..] ==> s !in Keys(Kids(m, Statements))
  {
    var keys, merged := SortedKeys(functions), Merged(functions, FunctionKind);
    SortedKeysSorted(functions);
    KeyLeIsTotalOrder();
    forall m | m in merged[i + 1..]
      ensures s !in Keys(Kids(m, Statements))
    {
      var j: nat :| i < j < |merged| && merged[j] == m;
      MergedFunctionLines(functions, j);
      assert KeyLe(keys[i], keys[j]) && keys[i] != keys[j];
    }
  }

  /** The checker's table of embedded lines holds the merged line of the last function listing it. */
  lemma {:induction false} EmbeddedLineAt(functions: seq<Rec>, s: Key, k: Key)
    requires LastLister(functions, s, k)
    ensures var rows := KidsOf(Merged(functions, FunctionKind), Statements);
            var items := Group(KidsOf(Group(functions, k), Statements), s);
            items != [] && s in RowMap(rows) && RowMap(rows)[s] == MergedGroup(items, LeafKind)
  {
    var merged := Merged(functions, FunctionKind);
    var list := KidsOf(Group(functions, k), Statements);
    var i := PositionOfLister(functions, s, k);
    NoLaterLister(functions, s, i);
    NoChild(merged[i + 1..], Statements, s);
    SplitRows(merged, i, s);
    MergedFunctionLines(functions, i);
    ListedByGroup(functions, s, k);
    GroupOfMerged(list, LeafKind, s);
    RowMapAt(KidsOf(merged, Statements), s);
  }

  lemma {:induction false} PositionOfLister(functions: seq<Rec>, s: Key, k: Key) returns (i: nat)
    requires Lists(functions, s, k)
    ensures i < |SortedKeys(functions)| && SortedKeys(functions)[i] == k
  {
    assert k in Keys(functions);
    i :| i < |SortedKeys(functions)| && SortedKeys(functions)[i] == k;
  }

  lemma {:induction false} SplitRows(parents: seq<Rec>, i: nat, s: Key)
    requires i < |parents| && Group(KidsOf(parents[i + 1..], Statements), s) == []
    ensures Group(KidsOf(parents, Statements), s) ==
            Group(KidsOf(parents[..i], Statements), s) + Group(Kids(parents[i], Statements), s)
  {
    assert parents == parents[..i] + ([parents[i]] + parents[i + 1..]);
    KidsAppend(parents[..i], [parents[i]] + parents[i + 1..], Statements);
    KidsAppend([parents[i]], parents[i + 1..], Statements);
    KidsOfOne(parents[i], Statements);
    GroupAppend(KidsOf(parents[..i], Statements), Kids(parents[i], Statements) + KidsOf(parents[i + 1..], Statements), s);
    GroupAppend(Kids(parents[i], Statements), KidsOf(parents[i + 1..], Statements), s);
  }

  // ---------------------------------------------------------------- the two tables

  lemma {:induction false} FileLineAt(lines: seq<Rec>, s: Key)
    ensures s in RowMap(Merged(lines, LeafKind)) <==> s in Keys(lines)
    ensures s in Keys(lines) ==>
              Group(lines, s) != [] && RowMap(Merged(lines, LeafKind))[s] == MergedGroup(Group(lines, s), LeafKind)
  {
    GroupOfMerged(lines, LeafKind, s);
    RowMapAt(Merged(lines, LeafKind), s);
  }

  /** Merged lines of one number are equal exactly when their hits are. */
  lemma {:induction false} SameLine(a: seq<Rec>, b: seq<Rec>, s: Key)
    requires a != [] && b != [] && All(a, LineOk) && All(b, LineOk)
    requires forall r :: r in a || r in b ==> KeyOf(r) == s
    ensures MergedGroup(a, LeafKind) == MergedGroup(b, LeafKind) <==> TotalHits(a) == TotalHits(b)
  {
    MergedLine(a, s);
    MergedLine(b, s);
  }

  lemma {:induction false} MergedLine(a: seq<Rec>, s: Key)
    requires a != [] && All(a, LineOk) && forall r :: r in a ==> KeyOf(r) == s
    ensures TotalHits(a).Some? && s.LineKey?
    ensures MergedGroup(a, LeafKind) == Rec(LineMeta(s.lineNo), TotalHits(a), TotalHits(a).value > 0, map[], map[])
  {
    assert a[0] in a;
    SomeHits(a);
    NoLeafKids(a);
  }

  lemma {:induction false} NoLeafKids(a: seq<Rec>)
    ensures MergedKids(a, LeafKind) == map[]
  {}

  lemma {:induction false} SomeHits(a: seq<Rec>)
    requires a != [] && All(a, LineOk)
    ensures TotalHits(a).Some?
  {
    assert a[0] in a;
  }

  ghost predicate LinesOk(files: seq<Rec>) {
    && All(KidsOf(files, Lines), LineOk) && All(KidsOf(KidsOf(files, Functions), Statements), LineOk)
    && Keys(KidsOf(KidsOf(files, Functions), Statements)) == Keys(KidsOf(files, Lines))
  }

  lemma {:induction false} LineMatchesWhen(files: seq<Rec>, s: Key, k: Key)
    requires LinesOk(files) && LastLister(KidsOf(files, Functions), s, k)
    ensures var embedded := RowMap(KidsOf(Merged(KidsOf(files, Functions), FunctionKind), Statements));
            var flat := RowMap(Merged(KidsOf(files, Lines), LeafKind));
            && s in embedded && s in flat
            && (embedded[s] == flat[s] <==>
                  LineHits(KidsOf(files, Functions), s, k) == TotalHits(Group(KidsOf(files, Lines), s)))
  {
    var functions, lines := KidsOf(files, Functions), KidsOf(files, Lines);
    var list := KidsOf(Group(functions, k), Statements);
    EmbeddedLineAt(functions, s, k);
    ListedSomewhere(functions, s, k);
    FileLineAt(lines, s);
    LinesOfGroup(functions, k, s);
    RowsOfKey(lines, s);
    SameLine(Group(list, s), Group(lines, s), s);
  }

  lemma {:induction false} ListedSomewhere(functions: seq<Rec>, s: Key, k: Key)
    requires Lists(functions, s, k)
    ensures s in Keys(KidsOf(functions, Statements))
  {
    var f :| f in functions && KeyOf(f) == k && s in Keys(Kids(f, Statements));
    ChildIn(functions, Statements, f, s);
  }

  lemma {:induction false} LinesOfGroup(functions: seq<Rec>, k: Key, s: Key)
    requires All(KidsOf(functions, Statements), LineOk)
    ensures All(Group(KidsOf(Group(functions, k), Statements), s), LineOk)
    ensures forall r :: r in Group(KidsOf(Group(functions, k), Statements), s) ==> KeyOf(r) == s
  {
    var list := KidsOf(Group(functions, k), Statements);
    forall r | r in Group(list, s)
      ensures LineOk(r) && KeyOf(r) == s
    {
      GroupMember(list, s, r);
      var f := ChildParent(Group(functions, k), Statements, r);
      GroupMember(functions, k, f);
      FlatMapMember(functions, KidsAt(Statements), r);
      assert r in KidsAt(Statements)(f);
    }
  }

  lemma {:induction false} RowsOfKey(rows: seq<Rec>, s: Key)
    requires All(rows, LineOk)
    ensures All(Group(rows, s), LineOk) && forall r :: r in Group(rows, s) ==> KeyOf(r) == s
  {
    forall r | r in Group(rows, s)
      ensures LineOk(r) && KeyOf(r) == s
    {
      GroupMember(rows, s, r);
    }
  }

  lemma {:induction false} RowMapKeys(rows: seq<Rec>, s: Key)
    ensures s in RowMap(rows) <==> s in Keys(rows)
  {
    RowMapAt(rows, s);
    GroupOfKey(rows, s);
  }

  lemma {:induction false} MergedListKeys(functions: seq<Rec>, s: Key)
    requires s in Keys(KidsOf(Merged(functions, FunctionKind), Statements))
    ensures s in Keys(KidsOf(functions, Statements))
  {
    var m := ChildOf(Merged(functions, FunctionKind), Statements, s);
    var i: nat :| i < |Merged(functions, FunctionKind)| && Merged(functions, FunctionKind)[i] == m;
    MergedFunctionLines(functions, i);
    ListedSomewhere(functions, s, SortedKeys(functions)[i]);
  }

  /** The merged file's lines match those of its merged functions exactly when the lines agree. */
  lemma {:induction false} MergedLinesMatch(files: seq<Rec>)
    requires files != [] && LinesOk(files)
    ensures LinesMatch(MergedGroup(files, FileKind)) <==> LinesAgree(files)
  {
    MergedLists(files, MergedGroup(files, FileKind));
    if LinesAgree(files) { AgreedLinesMatch(files); } else if LinesMatch(MergedGroup(files, FileKind)) { MatchedLinesAgree(files); }
  }

  lemma {:induction false} MergedLists(files: seq<Rec>, m: Rec)
    requires files != [] && m == MergedGroup(files, FileKind)
    ensures LinesMatch(m) <==>
            RowMap(KidsOf(Merged(KidsOf(files, Functions), FunctionKind), Statements)) ==
            RowMap(Merged(KidsOf(files, Lines), LeafKind))
  {
    FileListSlots();
    MergedKidsAt(files, FileKind, Functions);
    MergedKidsAt(files, FileKind, Lines);
  }

  lemma {:induction false} FileListSlots()
    ensures Functions in Slots(FileKind) && ChildKind(Functions) == FunctionKind
    ensures Lines in Slots(FileKind) && ChildKind(Lines) == LeafKind
  {}

  lemma {:induction false} AgreedLinesMatch(files: seq<Rec>)
    requires LinesOk(files) && LinesAgree(files)
    ensures RowMap(KidsOf(Merged(KidsOf(files, Functions), FunctionKind), Statements)) ==
            RowMap(Merged(KidsOf(files, Lines), LeafKind))
  {
    var rows := RowMap(KidsOf(Merged(KidsOf(files, Functions), FunctionKind), Statements));
    var lines := RowMap(Merged(KidsOf(files, Lines), LeafKind));
    forall s
      ensures s in rows <==> s in lines
      ensures s in rows ==> rows[s] == lines[s]
    {
      AgreedLine(files, s);
    }
    SameTables(rows, lines);
  }

  lemma {:induction false} SameTables<V>(a: map<Key, V>, b: map<Key, V>)
    requires forall k :: k in a <==> k in b
    requires forall k :: k in a ==> a[k] == b[k]
    ensures a == b
  {}

  lemma {:induction false} MatchedLinesAgree(files: seq<Rec>)
    requires LinesOk(files)
    requires RowMap(KidsOf(Merged(KidsOf(files, Functions), FunctionKind), Statements)) ==
             RowMap(Merged(KidsOf(files, Lines), LeafKind))
    ensures LinesAgree(files)
  {
    forall s, k | LastLister(KidsOf(files, Functions), s, k)
      ensures LineHits(KidsOf(files, Functions), s, k) == TotalHits(Group(KidsOf(files, Lines), s))
    {
      LineMatchesWhen(files, s, k);
    }
  }

  lemma {:induction false} AgreedLine(files: seq<Rec>, s: Key)
    requires LinesOk(files) && LinesAgree(files)
    ensures var rows := RowMap(KidsOf(Merged(KidsOf(files, Functions), FunctionKind), Statements));
            var lines := RowMap(Merged(KidsOf(files, Lines), LeafKind));
            (s in rows <==> s in lines) && (s in rows ==> rows[s] == lines[s])
  {
    var functions := KidsOf(files, Functions);
    FileLineAt(KidsOf(files, Lines), s);
    RowMapKeys(KidsOf(Merged(functions, FunctionKind), Statements), s);
    if s in Keys(KidsOf(functions, Statements)) {
      var k := FindLastLister(functions, s);
      LineMatchesWhen(files, s, k);
    } else if s in Keys(KidsOf(Merged(functions, FunctionKind), Statements)) {
      MergedListKeys(functions, s);
    }
  }

  // ---------------------------------------------------------------- lines owned by one function

  /** Lines that each belong to one function always agree. */
  lemma {:induction false} OwnedLinesAgree(files: seq<Rec>)
    requires (forall f :: f in files ==> FileViewsAgree(f, Statements)) && Owned(KidsOf(files, Functions), Statements)
    ensures LinesAgree(files)
  {
    var functions := KidsOf(files, Functions);
    forall s, k | LastLister(functions, s, k)
      ensures LineHits(functions, s, k) == TotalHits(Group(KidsOf(files, Lines), s))
    {
      var f :| f in functions && KeyOf(f) == k && s in Keys(Kids(f, Statements));
      OwnerIsUnique(functions, Statements, s, f);
      GroupUnderOwner(functions, Statements, s, k);
      ViewsOfAllFiles(files, Statements, s);
    }
  }
}
