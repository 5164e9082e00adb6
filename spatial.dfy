/**
 * The broad phase: a uniform grid, rebuilt from scratch on every update,
 * in which each live entity is listed in every cell its box touches.
 * Entities are named by their position in the list handed to `update`.
 */
module Spatial {
  import opened Entities
  import opened Bodies

  const DefaultCellSize: real := 100.0

  /** The grid cell whose key the source writes as "x,y". */
  datatype Cell = Cell(cx: int, cy: int)

  /** The inclusive ranges of cell columns and rows a box touches. */
  datatype Span = Span(x0: int, x1: int, y0: int, y1: int)

  function SpanOf(b: Bounds, cellSize: real): Span
    requires cellSize > 0.0
  {
    Span((b.left / cellSize).Floor, (b.right / cellSize).Floor, (b.top / cellSize).Floor, (b.bottom / cellSize).Floor)
  }

  predicate InSpan(c: Cell, s: Span)
  {
    s.x0 <= c.cx <= s.x1 && s.y0 <= c.cy <= s.y1
  }

  /** The `cells` map: each cell's entities in the order they were added. */
  type Cells = map<Cell, seq<nat>>

  predicate Member(m: Cells, c: Cell, e: nat)
  {
    c in m && e in m[c]
  }

  predicate Increasing(s: seq<nat>)
  {
    forall a, b :: 0 <= a < b < |s| ==> s[a] < s[b]
  }

  /** Every cell lists its entities in increasing order, so none twice, and no cell is empty. */
  predicate WellFormedCells(m: Cells)
  {
    forall c :: c in m ==> m[c] != [] && Increasing(m[c])
  }

  /** `cells.get(key).add(entity)`, creating the cell on first use. */
  function Insert(m: Cells, c: Cell, k: nat): (r: Cells)
    ensures forall d :: d in r <==> d in m || d == c
  {
    m[c := (if c in m then m[c] else []) + [k]]
  }

  /** Adds entity `k` to the cells (x, y) .. (x, y1). */
  function AddRows(m: Cells, k: nat, x: int, y: int, y1: int): Cells
    decreases y1 - y + 1
  {
    if y > y1 then m else AddRows(Insert(m, Cell(x, y), k), k, x, y + 1, y1)
  }

  /** Adds entity `k` to the columns x .. s.x1 of its span. */
  function AddCols(m: Cells, k: nat, x: int, s: Span): Cells
    decreases s.x1 - x + 1
  {
    if x > s.x1 then m else AddCols(AddRows(m, k, x, s.y0, s.y1), k, x + 1, s)
  }

  /** Adds the live entities `k ..` of `w`, in order. */
  function AddEntities(m: Cells, w: seq<Body>, k: nat, cellSize: real): Cells
    requires cellSize > 0.0
    decreases |w| - k
  {
    if k >= |w| then m
    else
      var next := if Live(w[k]) then AddCols(m, k, SpanOf(BodyBounds(w[k]), cellSize).x0, SpanOf(BodyBounds(w[k]), cellSize)) else m;
      AddEntities(next, w, k + 1, cellSize)
  }

  /** The grid `update(entities)` builds. */
  function BuildCells(w: seq<Body>, cellSize: real): (r: Cells)
    requires cellSize > 0.0
    ensures forall c: Cell, e: nat {:trigger Member(r, c, e)} :: Member(r, c, e) <==>
              e < |w| && Live(w[e]) && InSpan(c, SpanOf(BodyBounds(w[e]), cellSize))
  {
    var r := AddEntities(map[], w, 0, cellSize);
    assert forall c: Cell, e: nat {:trigger Member(r, c, e)} :: Member(r, c, e) <==>
             e < |w| && Live(w[e]) && InSpan(c, SpanOf(BodyBounds(w[e]), cellSize)) by {
      forall c: Cell, e: nat ensures Member(r, c, e) <==> e < |w| && Live(w[e]) && InSpan(c, SpanOf(BodyBounds(w[e]), cellSize)) {
        AddEntitiesMembers(map[], w, 0, cellSize, c, e);
      }
    }
    r
  }

  // ------------------------------------------------------------ what the grid holds

  lemma {:induction false} AddRowsMembers(m: Cells, k: nat, x: int, y: int, y1: int, c: Cell, e: nat)
    ensures Member(AddRows(m, k, x, y, y1), c, e) <==> Member(m, c, e) || (e == k && c.cx == x && y <= c.cy <= y1)
    decreases y1 - y + 1
  {
    if y <= y1 {
      AddRowsMembers(Insert(m, Cell(x, y), k), k, x, y + 1, y1, c, e);
    }
  }

  lemma {:induction false} AddColsMembers(m: Cells, k: nat, x: int, s: Span, c: Cell, e: nat)
    ensures Member(AddCols(m, k, x, s), c, e) <==> Member(m, c, e) || (e == k && x <= c.cx <= s.x1 && s.y0 <= c.cy <= s.y1)
    decreases s.x1 - x + 1
  {
    if x <= s.x1 {
      AddRowsMembers(m, k, x, s.y0, s.y1, c, e);
      AddColsMembers(AddRows(m, k, x, s.y0, s.y1), k, x + 1, s, c, e);
    }
  }

  lemma {:induction false} AddEntitiesMembers(m: Cells, w: seq<Body>, k: nat, cellSize: real, c: Cell, e: nat)
    requires cellSize > 0.0
    ensures Member(AddEntities(m, w, k, cellSize), c, e) <==>
              Member(m, c, e) || (k <= e < |w| && Live(w[e]) && InSpan(c, SpanOf(BodyBounds(w[e]), cellSize)))
    decreases |w| - k
  {
    if k < |w| {
      var s := SpanOf(BodyBounds(w[k]), cellSize);
      var next := if Live(w[k]) then AddCols(m, k, s.x0, s) else m;
      if Live(w[k]) {
        AddColsMembers(m, k, s.x0, s, c, e);
      }
      AddEntitiesMembers(next, w, k + 1, cellSize, c, e);
    }
  }

  /**
   * `SpatialHash.update`: entity `e` is listed in cell `c` exactly when it is
   * live and `c` lies in the cell span of its box.
   */
  lemma CellsExact(w: seq<Body>, cellSize: real, c: Cell, e: nat)
    requires cellSize > 0.0
    ensures Member(BuildCells(w, cellSize), c, e) <==>
              e < |w| && Live(w[e]) && InSpan(c, SpanOf(BodyBounds(w[e]), cellSize))
  {
    AddEntitiesMembers(map[], w, 0, cellSize, c, e);
  }

  // ------------------------------------------------------------ cells are duplicate-free

  /** Below `k`: every entity in the cells a pass for `k` has yet to visit. */
  ghost predicate BelowInRows(m: Cells, k: nat, x: int, y: int)
  {
    forall c, e: nat :: Member(m, c, e) && c.cx == x && c.cy >= y ==> e < k
  }

  lemma {:induction false} AddRowsOrdered(m: Cells, k: nat, x: int, y: int, y1: int)
    requires WellFormedCells(m) && BelowInRows(m, k, x, y)
    ensures WellFormedCells(AddRows(m, k, x, y, y1))
    ensures forall c, e :: Member(AddRows(m, k, x, y, y1), c, e) && c.cx != x ==> Member(m, c, e)
    decreases y1 - y + 1
  {
    if y <= y1 {
      var c0 := Cell(x, y);
      var m' := Insert(m, c0, k);
      assert WellFormedCells(m') by {
        if c0 in m {
          forall e | e in m[c0] ensures e < k {
            assert Member(m, c0, e);
          }
          var s := m[c0] + [k];
          forall a, b | 0 <= a < b < |s| ensures s[a] < s[b] {
            if b == |s| - 1 {
              assert s[a] in m[c0];
            }
          }
        }
      }
      assert BelowInRows(m', k, x, y + 1) by {
        forall c, e: nat | Member(m', c, e) && c.cx == x && c.cy >= y + 1 ensures e < k {
          assert c != c0 && Member(m, c, e);
        }
      }
      AddRowsOrdered(m', k, x, y + 1, y1);
    }
  }

  /** Below `k`: every entity in the columns a pass for `k` has yet to visit. */
  ghost predicate BelowInCols(m: Cells, k: nat, x: int)
  {
    forall c, e: nat :: Member(m, c, e) && c.cx >= x ==> e < k
  }

  lemma {:induction false} AddColsOrdered(m: Cells, k: nat, x: int, s: Span)
    requires WellFormedCells(m) && BelowInCols(m, k, x)
    ensures WellFormedCells(AddCols(m, k, x, s))
    ensures forall c, e :: Member(AddCols(m, k, x, s), c, e) ==> Member(m, c, e) || e == k
    decreases s.x1 - x + 1
  {
    if x <= s.x1 {
      var m' := AddRows(m, k, x, s.y0, s.y1);
      AddRowsOrdered(m, k, x, s.y0, s.y1);
      forall c, e | Member(m', c, e) ensures Member(m, c, e) || e == k {
        AddRowsMembers(m, k, x, s.y0, s.y1, c, e);
      }
      AddColsOrdered(m', k, x + 1, s);
    }
  }

  lemma {:induction false} AddEntitiesOrdered(m: Cells, w: seq<Body>, k: nat, cellSize: real)
    requires cellSize > 0.0
    requires WellFormedCells(m) && forall c, e: nat :: Member(m, c, e) ==> e < k
    ensures WellFormedCells(AddEntities(m, w, k, cellSize))
    decreases |w| - k
  {
    if k < |w| {
      var s := SpanOf(BodyBounds(w[k]), cellSize);
      var next := if Live(w[k]) then AddCols(m, k, s.x0, s) else m;
      if Live(w[k]) {
        AddColsOrdered(m, k, s.x0, s);
      }
      AddEntitiesOrdered(next, w, k + 1, cellSize);
    }
  }

  /** No cell of a freshly built grid is empty or lists an entity twice. */
  lemma CellsWellFormed(w: seq<Body>, cellSize: real)
    requires cellSize > 0.0
    ensures WellFormedCells(BuildCells(w, cellSize))
  {
    AddEntitiesOrdered(map[], w, 0, cellSize);
  }

  // ------------------------------------------------------------ the nearby query

  predicate Distinct(s: seq<nat>)
  {
    forall a, b :: 0 <= a < b < |s| ==> s[a] != s[b]
  }

  /** `Set.prototype.add` on the insertion-ordered result set. */
  function AddUnique(acc: seq<nat>, e: nat): (r: seq<nat>)
    ensures forall d :: d in r <==> d in acc || d == e
    ensures Distinct(acc) ==> Distinct(r)
  {
    if e in acc then acc else acc + [e]
  }

  /** The members `idx ..` of one cell, skipping the query entity. */
  function Gather(acc: seq<nat>, members: seq<nat>, q: nat, idx: nat): seq<nat>
    decreases |members| - idx
  {
    if idx >= |members| then acc
    else Gather(if members[idx] != q then AddUnique(acc, members[idx]) else acc, members, q, idx + 1)
  }

  function NearRows(acc: seq<nat>, m: Cells, q: nat, x: int, y: int, y1: int): seq<nat>
    decreases y1 - y + 1
  {
    if y > y1 then acc
    else NearRows(if Cell(x, y) in m then Gather(acc, m[Cell(x, y)], q, 0) else acc, m, q, x, y + 1, y1)
  }

  function NearCols(acc: seq<nat>, m: Cells, q: nat, x: int, s: Span): seq<nat>
    decreases s.x1 - x + 1
  {
    if x > s.x1 then acc else NearCols(NearRows(acc, m, q, x, s.y0, s.y1), m, q, x + 1, s)
  }

  /** `getNearby(entity)`: what the cells of the query's span hold, first occurrence first, without the query. */
  function Nearby(m: Cells, q: nat, qb: Bounds, cellSize: real): (r: seq<nat>)
    requires cellSize > 0.0
    ensures forall e {:trigger e in r} :: e in r <==> e != q && exists c :: InSpan(c, SpanOf(qb, cellSize)) && Member(m, c, e)
    ensures Distinct(r)
  {
    var s := SpanOf(qb, cellSize);
    var r := NearCols([], m, q, s.x0, s);
    assert forall e {:trigger e in r} :: e in r <==> e != q && exists c :: InSpan(c, s) && Member(m, c, e) by {
      forall e ensures e in r <==> e != q && exists c :: InSpan(c, s) && Member(m, c, e) {
        NearColsContents([], m, q, s.x0, s, e);
      }
    }
    NearColsContents([], m, q, s.x0, s, q);
    r
  }

  lemma {:induction false} GatherContents(acc: seq<nat>, members: seq<nat>, q: nat, idx: nat, e: nat)
    requires idx <= |members|
    ensures e in Gather(acc, members, q, idx) <==> e in acc || (e != q && e in members[idx..])
    ensures Distinct(acc) ==> Distinct(Gather(acc, members, q, idx))
    decreases |members| - idx
  {
    if idx < |members| {
      var next := if members[idx] != q then AddUnique(acc, members[idx]) else acc;
      GatherContents(next, members, q, idx + 1, e);
      assert members[idx..] == [members[idx]] + members[idx + 1..];
    }
  }

  lemma {:induction false} NearRowsContents(acc: seq<nat>, m: Cells, q: nat, x: int, y: int, y1: int, e: nat)
    ensures e in NearRows(acc, m, q, x, y, y1) <==>
              e in acc || (e != q && exists cy :: y <= cy <= y1 && Member(m, Cell(x, cy), e))
    ensures Distinct(acc) ==> Distinct(NearRows(acc, m, q, x, y, y1))
    decreases y1 - y + 1
  {
    if y <= y1 {
      var c := Cell(x, y);
      var next := if c in m then Gather(acc, m[c], q, 0) else acc;
      if c in m {
        GatherContents(acc, m[c], q, 0, e);
        assert m[c][0..] == m[c];
      }
      NearRowsContents(next, m, q, x, y + 1, y1, e);
      if e != q && Member(m, c, e) {
        assert e in next;
      }
      if e != q && e !in acc && exists cy :: y <= cy <= y1 && Member(m, Cell(x, cy), e) {
        var cy :| y <= cy <= y1 && Member(m, Cell(x, cy), e);
        if cy == y {
          assert e in next;
        }
      }
    }
  }

  lemma {:induction false} NearColsContents(acc: seq<nat>, m: Cells, q: nat, x: int, s: Span, e: nat)
    ensures e in NearCols(acc, m, q, x, s) <==>
              e in acc || (e != q && exists c: Cell :: x <= c.cx <= s.x1 && s.y0 <= c.cy <= s.y1 && Member(m, c, e))
    ensures Distinct(acc) ==> Distinct(NearCols(acc, m, q, x, s))
    decreases s.x1 - x + 1
  {
    if x <= s.x1 {
      var next := NearRows(acc, m, q, x, s.y0, s.y1);
      NearRowsContents(acc, m, q, x, s.y0, s.y1, e);
      NearColsContents(next, m, q, x + 1, s, e);
      if e != q && e !in acc && exists c: Cell :: x <= c.cx <= s.x1 && s.y0 <= c.cy <= s.y1 && Member(m, c, e) {
        var c: Cell :| x <= c.cx <= s.x1 && s.y0 <= c.cy <= s.y1 && Member(m, c, e);
        if c.cx == x {
          assert e in next;
        }
      }
      if e in next && e !in acc && e != q {
        var cy :| s.y0 <= cy <= s.y1 && Member(m, Cell(x, cy), e);
        assert Member(m, Cell(x, cy), e);
      }
    }
  }

  /**
   * `getNearby`: exactly the entities listed in some cell of the query's
   * span, never the query itself, and each only once.
   */
  lemma NearbyExact(m: Cells, q: nat, qb: Bounds, cellSize: real, e: nat)
    requires cellSize > 0.0
    ensures e in Nearby(m, q, qb, cellSize) <==>
              e != q && exists c :: InSpan(c, SpanOf(qb, cellSize)) && Member(m, c, e)
    ensures Distinct(Nearby(m, q, qb, cellSize))
  {
    var s := SpanOf(qb, cellSize);
    NearColsContents([], m, q, s.x0, s, e);
  }

  // ------------------------------------------------------------ no false negatives

  lemma DivMono(a: real, b: real, cellSize: real)
    requires cellSize > 0.0 && a <= b
    ensures (a / cellSize).Floor <= (b / cellSize).Floor
  {
    var qa := a / cellSize;
    var qb := b / cellSize;
    assert qa <= qb;
    assert qa.Floor as real <= qa && qb < qb.Floor as real + 1.0;
  }

  /** Two overlapping boxes that are not inverted share a grid cell. */
  lemma OverlapSharesCell(a: Bounds, b: Bounds, cellSize: real) returns (c: Cell)
    requires cellSize > 0.0
    requires a.left <= a.right && a.top <= a.bottom && b.left <= b.right && b.top <= b.bottom
    requires Overlap(a, b)
    ensures InSpan(c, SpanOf(a, cellSize)) && InSpan(c, SpanOf(b, cellSize))
  {
    var sa, sb := SpanOf(a, cellSize), SpanOf(b, cellSize);
    DivMono(a.left, a.right, cellSize);
    DivMono(b.left, b.right, cellSize);
    DivMono(a.top, a.bottom, cellSize);
    DivMono(b.top, b.bottom, cellSize);
    DivMono(a.left, b.right, cellSize);
    DivMono(b.left, a.right, cellSize);
    DivMono(a.top, b.bottom, cellSize);
    DivMono(b.top, a.bottom, cellSize);
    c := Cell(if sa.x0 < sb.x0 then sb.x0 else sa.x0, if sa.y0 < sb.y0 then sb.y0 else sa.y0);
  }

  /** A box whose width and height are not negative. */
  predicate Upright(b: Bounds)
  {
    b.left <= b.right && b.top <= b.bottom
  }

  /**
   * No false negatives: every other live entity whose box overlaps the
   * query's box (both upright) is among the nearby entities.
   */
  lemma NoFalseNegatives(w: seq<Body>, cellSize: real, q: nat, j: nat)
    requires cellSize > 0.0
    requires q < |w| && j < |w| && j != q && Live(w[j])
    requires Upright(BodyBounds(w[q])) && Upright(BodyBounds(w[j]))
    requires Overlap(BodyBounds(w[q]), BodyBounds(w[j]))
    ensures j in Nearby(BuildCells(w, cellSize), q, BodyBounds(w[q]), cellSize)
  {
    var c := OverlapSharesCell(BodyBounds(w[q]), BodyBounds(w[j]), cellSize);
    CellsExact(w, cellSize, c, j);
    NearbyExact(BuildCells(w, cellSize), q, BodyBounds(w[q]), cellSize, j);
  }

  /** Every nearby entity is live and shares a cell with the query. */
  lemma NearbyAreLive(w: seq<Body>, cellSize: real, q: nat, qb: Bounds, e: nat)
    requires cellSize > 0.0
    requires e in Nearby(BuildCells(w, cellSize), q, qb, cellSize)
    ensures e != q && e < |w| && Live(w[e])
    ensures exists c :: InSpan(c, SpanOf(qb, cellSize)) && InSpan(c, SpanOf(BodyBounds(w[e]), cellSize))
  {
    NearbyExact(BuildCells(w, cellSize), q, qb, cellSize, e);
    var c :| InSpan(c, SpanOf(qb, cellSize)) && Member(BuildCells(w, cellSize), c, e);
    CellsExact(w, cellSize, c, e);
  }

  // ------------------------------------------------------------ the object

  /** The indices below `k` of the live entities. */
  function LiveBelow(w: seq<Body>, k: nat): (r: set<nat>)
    requires k <= |w|
    ensures forall i: nat :: i in r <==> i < k && Live(w[i])
  {
    if k == 0 then {} else LiveBelow(w, k - 1) + if Live(w[k - 1]) then {k - 1} else {}
  }

  /** The indices of the live entities: the `entities` set of the grid. */
  function LiveIndices(w: seq<Body>): (r: set<nat>)
    ensures forall i: nat :: i in r <==> i < |w| && Live(w[i])
  {
    LiveBelow(w, |w|)
  }

  class SpatialHash {
    const cellSize: real
    var cells: Cells
    var members: set<nat>

    ghost predicate Valid()
      reads this
    {
      cellSize > 0.0
    }

    constructor (size: real)
      requires size > 0.0
      ensures Valid() && cellSize == size && cells == map[] && members == {}
    {
      cellSize := size;
      cells := map[];
      members := {};
    }

    /** Rebuilds the grid from the live entities of `w`. */
    method Update(w: seq<Body>)
      requires Valid()
      modifies this
      ensures Valid() && cells == BuildCells(w, cellSize) && members == LiveIndices(w)
    {
      cells := map[];
      members := {};
      var k := 0;
      while k < |w|
        invariant 0 <= k <= |w|
        invariant AddEntities(cells, w, k, cellSize) == BuildCells(w, cellSize)
        invariant members == LiveBelow(w, k)
      {
        if Live(w[k]) {
          members := members + {k};
          AddSpan(k, SpanOf(BodyBounds(w[k]), cellSize));
        }
        k := k + 1;
      }
    }

    /** The two inner loops of `update`: entity `k` goes into every cell of span `s`. */
    method AddSpan(k: nat, s: Span)
      requires Valid()
      modifies this`cells
      ensures cells == AddCols(old(cells), k, s.x0, s)
    {
      var x := s.x0;
      while x <= s.x1
        invariant AddCols(cells, k, x, s) == AddCols(old(cells), k, s.x0, s)
        decreases s.x1 - x + 1
      {
        var y := s.y0;
        while y <= s.y1
          invariant AddCols(AddRows(cells, k, x, y, s.y1), k, x + 1, s) == AddCols(old(cells), k, s.x0, s)
          decreases s.y1 - y + 1
        {
          cells := Insert(cells, Cell(x, y), k);
          y := y + 1;
        }
        x := x + 1;
      }
    }

    /** The entities sharing a cell with box `qb`, other than entity `q`. */
    method GetNearby(q: nat, qb: Bounds) returns (nearby: seq<nat>)
      requires Valid()
      ensures nearby == Nearby(cells, q, qb, cellSize)
    {
      var s := SpanOf(qb, cellSize);
      nearby := [];
      var x := s.x0;
      while x <= s.x1
        invariant NearCols(nearby, cells, q, x, s) == Nearby(cells, q, qb, cellSize)
        decreases s.x1 - x + 1
      {
        var y := s.y0;
        while y <= s.y1
          invariant NearCols(NearRows(nearby, cells, q, x, y, s.y1), cells, q, x + 1, s) == Nearby(cells, q, qb, cellSize)
          decreases s.y1 - y + 1
        {
          var c := Cell(x, y);
          if c in cells {
            var found := cells[c];
            var i := 0;
            while i < |found|
              invariant 0 <= i <= |found|
              invariant NearCols(NearRows(Gather(nearby, found, q, i), cells, q, x, y + 1, s.y1), cells, q, x + 1, s)
                        == Nearby(cells, q, qb, cellSize)
            {
              if found[i] != q {
                if found[i] !in nearby {
                  nearby := nearby + [found[i]];
                }
              }
              i := i + 1;
            }
          }
          y := y + 1;
        }
        x := x + 1;
      }
    }

    method Reset()
      modifies this`cells, this`members
      ensures cells == map[] && members == {}
    {
      cells := map[];
      members := {};
    }
  }
}
