/** The dashboard's layout cursor: sections and panels on a grid of 24 columns. */
module Layout {
  const COLUMNS: nat := 24

  datatype Panel = Panel(id: nat, header: bool, title: string, x: nat, y: nat, width: nat, height: nat)

  datatype Op = Section(title: string) | Place(title: string, width: nat, height: nat)

  predicate OnGrid(p: Panel) { p.width >= 1 && p.height >= 1 && p.x + p.width <= COLUMNS }

  predicate Disjoint(p: Panel, q: Panel) {
    || p.x + p.width <= q.x || q.x + q.width <= p.x
    || p.y + p.height <= q.y || q.y + q.height <= p.y
  }

  predicate Above(p: Panel, q: Panel) { p.y + p.height <= q.y }

  /** No two panels overlap, none leaves the grid, and a section header is below everything before it. */
  ghost predicate WellLaid(panels: seq<Panel>) {
    && (forall p :: p in panels ==> OnGrid(p))
    && (forall i, j :: 0 <= i < j < |panels| ==> Disjoint(panels[i], panels[j]))
    && (forall i, j :: 0 <= i < j < |panels| && panels[j].header ==> Above(panels[i], panels[j]))
    && (forall i :: 0 <= i < |panels| ==> panels[i].id == i + 1)
  }

  lemma {:induction false} AddPanel(panels: seq<Panel>, p: Panel)
    requires WellLaid(panels) && OnGrid(p) && p.id == |panels| + 1
    requires forall q :: q in panels ==> Disjoint(q, p) && (p.header ==> Above(q, p))
    ensures WellLaid(panels + [p])
  {
    var all := panels + [p];
    forall i, j | 0 <= i < j < |all|
      ensures Disjoint(all[i], all[j]) && (all[j].header ==> Above(all[i], all[j]))
    {
      assert panels[i] in panels;
    }
  }

  class Dashboard {
    var y: nat
    var x: nat
    var rowHeight: nat
    var lastId: nat
    var panels: seq<Panel>

    /** A panel above the current row, or in it and left of the cursor. */
    ghost predicate Settled(p: Panel)
      reads this
    {
      p.y + p.height <= y || (p.y == y && p.x + p.width <= x && p.height <= rowHeight)
    }

    ghost predicate Valid()
      reads this
    {
      && WellLaid(panels)
      && lastId == |panels|
      && x <= COLUMNS
      && (x == 0 ==> rowHeight == 0)
      && forall p :: p in panels ==> Settled(p)
    }

    constructor ()
      ensures Valid() && panels == []
    {
      y, x, rowHeight, lastId, panels := 0, 0, 0, 0, [];
    }

    method NextId() returns (id: nat)
      modifies this`lastId
      ensures id == lastId == old(lastId) + 1
    {
      lastId := lastId + 1;
      id := lastId;
    }

    /** `section` */
    method Section(title: string)
      requires Valid()
      modifies this
      ensures Valid()
      ensures |panels| == |old(panels)| + 1 && panels[..|old(panels)|] == old(panels)
      ensures var p := panels[|old(panels)|];
              p == Panel(|old(panels)| + 1, true, title, 0, old(y) + old(rowHeight), COLUMNS, 1)
      ensures x == 0 && rowHeight == 0 && y == old(y) + old(rowHeight) + 1
    {
      if x != 0 {
        y := y + rowHeight;
        x := 0;
        rowHeight := 0;
      }
      var id := NextId();
      var p := Panel(id, true, title, 0, y, 24, 1);
      forall q | q in panels
        ensures Above(q, p)
      {
        assert Settled(q);
      }
      AddPanel(panels, p);
      panels := panels + [p];
      y := y + 1;
    }

    /** `place` */
    method Place(title: string, width: nat, height: nat)
      requires Valid() && 1 <= width <= COLUMNS && height >= 1
      modifies this
      ensures Valid()
      ensures |panels| == |old(panels)| + 1 && panels[..|old(panels)|] == old(panels)
      ensures var p := panels[|old(panels)|];
              if old(x) + width <= COLUMNS
              then p == Panel(|old(panels)| + 1, false, title, old(x), old(y), width, height)
              else p == Panel(|old(panels)| + 1, false, title, 0, old(y) + old(rowHeight), width, height)
      ensures x == panels[|old(panels)|].x + width && y == panels[|old(panels)|].y
      ensures var row := if old(x) + width <= COLUMNS then old(rowHeight) else 0;
              rowHeight == if height > row then height else row
    {
      if x + width > 24 {
        y := y + rowHeight;
        x := 0;
        rowHeight := 0;
      }
      var id := NextId();
      var p := Panel(id, false, title, x, y, width, height);
      forall q | q in panels
        ensures Disjoint(q, p)
      {
        assert Settled(q);
      }
      AddPanel(panels, p);
      panels := panels + [p];
      x := x + width;
      rowHeight := if height > rowHeight then height else rowHeight;
    }
  }

  predicate OpOk(o: Op) { o.Place? ==> 1 <= o.width <= COLUMNS && o.height >= 1 }

  /** The panel shows what the operation asked for, wherever it was put. */
  predicate Shows(p: Panel, o: Op) {
    match o
    case Section(title) => p.header && p.title == title && p.width == COLUMNS && p.height == 1
    case Place(title, width, height) => !p.header && p.title == title && p.width == width && p.height == height
  }

  /** Any sequence of sections and panels is laid out without overlaps, one panel per operation. */
  method Render(ops: seq<Op>) returns (panels: seq<Panel>)
    requires forall o :: o in ops ==> OpOk(o)
    ensures WellLaid(panels)
    ensures |panels| == |ops| && forall i :: 0 <= i < |ops| ==> Shows(panels[i], ops[i])
  {
    var dashboard := new Dashboard();
    for i := 0 to |ops|
      invariant dashboard.Valid() && fresh(dashboard)
      invariant |dashboard.panels| == i && forall k :: 0 <= k < i ==> Shows(dashboard.panels[k], ops[k])
    {
      ghost var before := dashboard.panels;
      assert ops[i] in ops;
      match ops[i] {
        case Section(title) => dashboard.Section(title);
        case Place(title, width, height) => dashboard.Place(title, width, height);
      }
      assert forall k :: 0 <= k < i ==> dashboard.panels[k] == before[k];
    }
    panels := dashboard.panels;
  }
}
