/**
 * The collision system: a handler table keyed by the pair of entity
 * types, a set of already-checked id pairs that only `reset` clears, and
 * the pass `checkCollisions` makes over the registry using the spatial
 * hash for candidates, the classifier for records and the handlers for
 * responses.
 */
module Collision {
  import opened Options
  import opened Entities
  import opened Bodies
  import opened Spatial
  import opened Contacts
  import opened Handlers

  /** The "a-b" strings the handler table and the checked set are keyed by. */
  function Key(a: string, b: string): string
  {
    a + "-" + b
  }

  // ------------------------------------------------------------ the handler table

  /** `addCollisionHandler(t1, t2, h)`: `h` under "t1-t2" and under "t2-t1". */
  function Register(m: map<string, Handler>, t1: string, t2: string, h: Handler): (r: map<string, Handler>)
    ensures Key(t1, t2) in r && r[Key(t1, t2)] == h
    ensures Key(t2, t1) in r && r[Key(t2, t1)] == h
    ensures forall k :: k != Key(t1, t2) && k != Key(t2, t1) ==> (k in r <==> k in m) && (k in m ==> r[k] == m[k])
  {
    m[Key(t1, t2) := h][Key(t2, t1) := h]
  }

  /** `handleCollision`: the handler stored under the record's type pair runs; without one nothing happens. */
  function Dispatch(handlers: map<string, Handler>, rec: Record, w: World): (r: World)
    ensures |r.bodies| == |w.bodies|
  {
    if rec.e1 < |w.bodies| && rec.e2 < |w.bodies| then
      var key := Key(TypeOf(w.bodies[rec.e1]), TypeOf(w.bodies[rec.e2]));
      if key in handlers then ApplyHandler(handlers[key], rec, w) else w
    else w
  }

  /** A handler registered for two types is found whichever of them comes first in the record. */
  lemma DispatchEitherOrder(m: map<string, Handler>, t1: string, t2: string, h: Handler, rec: Record, w: World)
    requires rec.e1 < |w.bodies| && rec.e2 < |w.bodies|
    requires (TypeOf(w.bodies[rec.e1]), TypeOf(w.bodies[rec.e2])) in {(t1, t2), (t2, t1)}
    ensures Dispatch(Register(m, t1, t2, h), rec, w) == ApplyHandler(h, rec, w)
  {
  }

  // ------------------------------------------------------------ the checked pairs

  /**
   * `markAsChecked`: the set is created on first use and gets both orders of
   * the id pair. An entity without an id is keyed by a fresh random number,
   * which no later lookup can match, so such a key is not recorded.
   */
  function Mark(checked: Option<set<string>>, id1: Option<string>, id2: Option<string>): (r: Option<set<string>>)
    ensures r.Some?
    ensures checked.Some? ==> checked.value <= r.value
  {
    var prior := if checked.Some? then checked.value else {};
    Some(if Truthy(id1) && Truthy(id2) then prior + {Key(id1.value, id2.value), Key(id2.value, id1.value)} else prior)
  }

  /** `alreadyChecked`: false before the set exists and for any entity without an id. */
  predicate AlreadyChecked(checked: Option<set<string>>, id1: Option<string>, id2: Option<string>)
  {
    checked.Some? && Truthy(id1) && Truthy(id2)
    && (Key(id1.value, id2.value) in checked.value || Key(id2.value, id1.value) in checked.value)
  }

  /** After marking, the pair counts as checked in both orders. */
  lemma MarkThenChecked(checked: Option<set<string>>, id1: Option<string>, id2: Option<string>)
    requires Truthy(id1) && Truthy(id2)
    ensures AlreadyChecked(Mark(checked, id1, id2), id1, id2)
    ensures AlreadyChecked(Mark(checked, id1, id2), id2, id1)
  {
  }

  /** `b` holds every key `a` holds. */
  predicate Grows(a: Option<set<string>>, b: Option<set<string>>)
  {
    a.Some? ==> b.Some? && a.value <= b.value
  }

  // ------------------------------------------------------------ the pass

  /** What a pass has built so far: the world, the recorded pairs and the checked set. */
  datatype Scan = Scan(world: World, pairs: seq<Record>, checked: Option<set<string>>)

  /** The inner step for candidate `j` of entity `i`. */
  function ScanPair(st: Scan, handlers: map<string, Handler>, i: nat, j: nat): (r: Scan)
    ensures |r.world.bodies| == |st.world.bodies|
  {
    var bs := st.world.bodies;
    if i >= |bs| || j >= |bs| || i == j then st
    else if !Live(bs[j]) then st
    else
      var id1, id2 := CoreOf(bs[i]).id, CoreOf(bs[j]).id;
      if AlreadyChecked(st.checked, id1, id2) then st
      else
        match Classify(bs[i], bs[j])
        case None => st
        case Some(k) =>
          var rec := Record(i, j, id1, id2, k);
          Scan(Dispatch(handlers, rec, st.world), st.pairs + [rec], Mark(st.checked, id1, id2))
  }

  /** The candidates `near[idx..]` of entity `i`. */
  function ScanNear(st: Scan, handlers: map<string, Handler>, i: nat, near: seq<nat>, idx: nat): (r: Scan)
    ensures |r.world.bodies| == |st.world.bodies|
    decreases |near| - idx
  {
    if idx >= |near| then st else ScanNear(ScanPair(st, handlers, i, near[idx]), handlers, i, near, idx + 1)
  }

  /** Entities `i ..` of the registry, each live one against its nearby entities in the grid `cells`. */
  function ScanFrom(st: Scan, handlers: map<string, Handler>, cells: Cells, cellSize: real, i: nat): (r: Scan)
    requires cellSize > 0.0
    ensures |r.world.bodies| == |st.world.bodies|
    decreases |st.world.bodies| - i
  {
    var bs := st.world.bodies;
    if i >= |bs| then st
    else if !Live(bs[i]) then ScanFrom(st, handlers, cells, cellSize, i + 1)
    else ScanFrom(ScanNear(st, handlers, i, Nearby(cells, i, BodyBounds(bs[i]), cellSize), 0), handlers, cells, cellSize, i + 1)
  }

  /** `checkCollisions` on an enabled system: the grid is built from the world as handed in. */
  function Pass(w: World, handlers: map<string, Handler>, checked: Option<set<string>>): (r: Scan)
    ensures |r.world.bodies| == |w.bodies|
  {
    ScanFrom(Scan(w, [], checked), handlers, BuildCells(w.bodies, DefaultCellSize), DefaultCellSize, 0)
  }

  // ------------------------------------------------------------ once per pair

  /** Two records name the same pair of ids, in either order. */
  predicate SameIds(r: Record, s: Record)
  {
    (r.id1 == s.id1 && r.id2 == s.id2) || (r.id1 == s.id2 && r.id2 == s.id1)
  }

  /** Every recorded pair with ids is in the checked set. */
  predicate Recorded(pairs: seq<Record>, checked: Option<set<string>>)
  {
    forall k :: 0 <= k < |pairs| && Truthy(pairs[k].id1) && Truthy(pairs[k].id2) ==>
      AlreadyChecked(checked, pairs[k].id1, pairs[k].id2)
  }

  /** No pair with ids is recorded twice. */
  predicate NoRepeat(pairs: seq<Record>)
  {
    forall a, b :: 0 <= a < b < |pairs| && Truthy(pairs[b].id1) && Truthy(pairs[b].id2) ==> !SameIds(pairs[a], pairs[b])
  }

  /** The facts a pass keeps: relative to the starting set `start`, the records so far. */
  predicate PassFacts(start: Option<set<string>>, base: nat, st: Scan)
  {
    Recorded(st.pairs, st.checked) && NoRepeat(st.pairs) && Grows(start, st.checked) && base <= |st.pairs|
    && forall k :: base <= k < |st.pairs| ==> !AlreadyChecked(start, st.pairs[k].id1, st.pairs[k].id2)
  }

  lemma AlreadyCheckedGrows(a: Option<set<string>>, b: Option<set<string>>, id1: Option<string>, id2: Option<string>)
    requires Grows(a, b) && AlreadyChecked(a, id1, id2)
    ensures AlreadyChecked(b, id1, id2)
  {
  }

  /** Checking is symmetric in the two ids, so a pair and its reverse are checked together. */
  lemma SameIdsChecked(checked: Option<set<string>>, r: Record, s: Record)
    ensures SameIds(r, s) && Truthy(s.id1) && Truthy(s.id2) ==> Truthy(r.id1) && Truthy(r.id2)
    ensures SameIds(r, s) && AlreadyChecked(checked, r.id1, r.id2) ==> AlreadyChecked(checked, s.id1, s.id2)
  {
  }

  lemma {:induction false} ScanPairFacts(start: Option<set<string>>, base: nat, st: Scan, handlers: map<string, Handler>, i: nat, j: nat)
    requires PassFacts(start, base, st)
    ensures PassFacts(start, base, ScanPair(st, handlers, i, j))
    ensures st.pairs <= ScanPair(st, handlers, i, j).pairs
  {
    var r := ScanPair(st, handlers, i, j);
    if r.pairs != st.pairs {
      var bs := st.world.bodies;
      var id1, id2 := CoreOf(bs[i]).id, CoreOf(bs[j]).id;
      assert !AlreadyChecked(st.checked, id1, id2);
      var rec := r.pairs[|r.pairs| - 1];
      assert rec.id1 == id1 && rec.id2 == id2;
      assert r.pairs == st.pairs + [rec];
      assert r.checked == Mark(st.checked, id1, id2);
      forall k | 0 <= k < |r.pairs| && Truthy(r.pairs[k].id1) && Truthy(r.pairs[k].id2)
        ensures AlreadyChecked(r.checked, r.pairs[k].id1, r.pairs[k].id2)
      {
        if k < |st.pairs| {
          AlreadyCheckedGrows(st.checked, r.checked, r.pairs[k].id1, r.pairs[k].id2);
        }
      }
      forall a, b | 0 <= a < b < |r.pairs| && Truthy(r.pairs[b].id1) && Truthy(r.pairs[b].id2)
        ensures !SameIds(r.pairs[a], r.pairs[b])
      {
        if b == |r.pairs| - 1 {
          SameIdsChecked(st.checked, r.pairs[a], rec);
        }
      }
      forall k | base <= k < |r.pairs| ensures !AlreadyChecked(start, r.pairs[k].id1, r.pairs[k].id2) {
        if k == |r.pairs| - 1 && AlreadyChecked(start, id1, id2) {
          AlreadyCheckedGrows(start, st.checked, id1, id2);
        }
      }
    }
  }

  lemma {:induction false} ScanNearFacts(start: Option<set<string>>, base: nat, st: Scan, handlers: map<string, Handler>,
                                         i: nat, near: seq<nat>, idx: nat)
    requires PassFacts(start, base, st)
    ensures PassFacts(start, base, ScanNear(st, handlers, i, near, idx))
    ensures st.pairs <= ScanNear(st, handlers, i, near, idx).pairs
    decreases |near| - idx
  {
    if idx < |near| {
      var next := ScanPair(st, handlers, i, near[idx]);
      ScanPairFacts(start, base, st, handlers, i, near[idx]);
      ScanNearFacts(start, base, next, handlers, i, near, idx + 1);
    }
  }

  lemma {:induction false} ScanFromFacts(start: Option<set<string>>, base: nat, st: Scan, handlers: map<string, Handler>,
                                         cells: Cells, cellSize: real, i: nat)
    requires cellSize > 0.0
    requires PassFacts(start, base, st)
    ensures PassFacts(start, base, ScanFrom(st, handlers, cells, cellSize, i))
    ensures st.pairs <= ScanFrom(st, handlers, cells, cellSize, i).pairs
    decreases |st.world.bodies| - i
  {
    var bs := st.world.bodies;
    if i < |bs| {
      if !Live(bs[i]) {
        ScanFromFacts(start, base, st, handlers, cells, cellSize, i + 1);
      } else {
        var near := Nearby(cells, i, BodyBounds(bs[i]), cellSize);
        var next := ScanNear(st, handlers, i, near, 0);
        ScanNearFacts(start, base, st, handlers, i, near, 0);
        ScanFromFacts(start, base, next, handlers, cells, cellSize, i + 1);
      }
    }
  }

  /**
   * One call of `checkCollisions`: no pair of ids is recorded twice, each
   * recorded pair ends up in the checked set, the set only grows, and no
   * pair that was already checked when the call began is recorded.
   */
  lemma PassRecordsEachPairOnce(w: World, handlers: map<string, Handler>, checked: Option<set<string>>)
    ensures var r := Pass(w, handlers, checked);
            NoRepeat(r.pairs) && Recorded(r.pairs, r.checked) && Grows(checked, r.checked)
            && forall k :: 0 <= k < |r.pairs| ==> !AlreadyChecked(checked, r.pairs[k].id1, r.pairs[k].id2)
  {
    ScanFromFacts(checked, 0, Scan(w, [], checked), handlers, BuildCells(w.bodies, DefaultCellSize), DefaultCellSize, 0);
  }

  /**
   * The checked set is never cleared between calls: a pair with ids recorded
   * by one call is not recorded again by the next one, in either order.
   */
  lemma SuppressedOnLaterCalls(w1: World, w2: World, handlers1: map<string, Handler>, handlers2: map<string, Handler>,
                               checked: Option<set<string>>, a: nat, b: nat)
    requires a < |Pass(w1, handlers1, checked).pairs|
    requires b < |Pass(w2, handlers2, Pass(w1, handlers1, checked).checked).pairs|
    requires Truthy(Pass(w1, handlers1, checked).pairs[a].id1) && Truthy(Pass(w1, handlers1, checked).pairs[a].id2)
    ensures !SameIds(Pass(w1, handlers1, checked).pairs[a], Pass(w2, handlers2, Pass(w1, handlers1, checked).checked).pairs[b])
  {
    var first := Pass(w1, handlers1, checked);
    var second := Pass(w2, handlers2, first.checked);
    PassRecordsEachPairOnce(w1, handlers1, checked);
    PassRecordsEachPairOnce(w2, handlers2, first.checked);
    var r, s := first.pairs[a], second.pairs[b];
    assert AlreadyChecked(first.checked, r.id1, r.id2);
    assert !AlreadyChecked(first.checked, s.id1, s.id2);
  }

  // ------------------------------------------------------------ the object

  class CollisionSystem {
    var collisionPairs: seq<Record>
    var handlers: map<string, Handler>
    const spatialHash: SpatialHash
    var enabled: bool
    var checkedPairs: Option<set<string>>

    ghost predicate Valid()
      reads this, spatialHash
    {
      spatialHash.Valid() && spatialHash.cellSize == DefaultCellSize
    }

    constructor ()
      ensures Valid() && fresh(spatialHash)
      ensures collisionPairs == [] && handlers == map[] && enabled && checkedPairs == None
      ensures spatialHash.cells == map[] && spatialHash.members == {}
    {
      collisionPairs := [];
      handlers := map[];
      spatialHash := new SpatialHash(DefaultCellSize);
      enabled := true;
      checkedPairs := None;
    }

    method AddCollisionHandler(t1: string, t2: string, h: Handler)
      modifies this`handlers
      ensures handlers == Register(old(handlers), t1, t2, h)
    {
      handlers := handlers[Key(t1, t2) := h];
      handlers := handlers[Key(t2, t1) := h];
    }

    method MarkAsChecked(id1: Option<string>, id2: Option<string>)
      modifies this`checkedPairs
      ensures checkedPairs == Mark(old(checkedPairs), id1, id2)
    {
      if checkedPairs.None? {
        checkedPairs := Some({});
      }
      if Truthy(id1) && Truthy(id2) {
        checkedPairs := Some(checkedPairs.value + {Key(id1.value, id2.value), Key(id2.value, id1.value)});
      }
    }

    predicate IsChecked(id1: Option<string>, id2: Option<string>)
      reads this
    {
      AlreadyChecked(checkedPairs, id1, id2)
    }

    method HandleCollision(rec: Record, w: World) returns (r: World)
      ensures r == Dispatch(handlers, rec, w)
    {
      r := w;
      if rec.e1 < |w.bodies| && rec.e2 < |w.bodies| {
        var key := Key(TypeOf(w.bodies[rec.e1]), TypeOf(w.bodies[rec.e2]));
        if key in handlers {
          r := ApplyHandler(handlers[key], rec, w);
        }
      }
    }

    /**
     * `checkCollisions(entities)`: nothing when disabled; otherwise rebuild
     * the grid, clear the recorded pairs and run the pass, handlers included.
     */
    method CheckCollisions(w: World) returns (pairs: seq<Record>, after: World)
      requires Valid()
      modifies this, spatialHash
      ensures Valid() && handlers == old(handlers) && enabled == old(enabled)
      ensures !old(enabled) ==> pairs == [] && after == w && collisionPairs == old(collisionPairs)
                                && checkedPairs == old(checkedPairs)
      ensures old(enabled) ==>
                var r := Pass(w, old(handlers), old(checkedPairs));
                pairs == r.pairs && after == r.world && collisionPairs == r.pairs && checkedPairs == r.checked
                && spatialHash.cells == BuildCells(w.bodies, DefaultCellSize)
    {
      if !enabled {
        return [], w;
      }
      spatialHash.Update(w.bodies);
      collisionPairs := [];
      after := w;
      ghost var cells := spatialHash.cells;
      ghost var target := Pass(w, handlers, checkedPairs);
      var i := 0;
      while i < |w.bodies|
        invariant 0 <= i <= |w.bodies| && |after.bodies| == |w.bodies|
        invariant Valid() && spatialHash.cells == cells && cells == BuildCells(w.bodies, DefaultCellSize)
        invariant handlers == old(handlers) && enabled == old(enabled)
        invariant ScanFrom(Scan(after, collisionPairs, checkedPairs), handlers, cells, DefaultCellSize, i) == target
      {
        if Live(after.bodies[i]) {
          var near := spatialHash.GetNearby(i, BodyBounds(after.bodies[i]));
          var idx := 0;
          while idx < |near|
            invariant 0 <= idx <= |near| && |after.bodies| == |w.bodies|
            invariant Valid() && spatialHash.cells == cells
            invariant handlers == old(handlers) && enabled == old(enabled)
            invariant ScanFrom(ScanNear(Scan(after, collisionPairs, checkedPairs), handlers, i, near, idx),
                               handlers, cells, DefaultCellSize, i + 1) == target
          {
            var rec := ScanCandidate(i, near[idx], after);
            if rec.Some? {
              after := HandleCollision(rec.value, after);
            }
            idx := idx + 1;
          }
        }
        i := i + 1;
      }
      pairs := collisionPairs;
    }

    /** Candidate `j` of entity `i`: the record, if any, is appended and its ids marked; the handler runs separately. */
    method ScanCandidate(i: nat, j: nat, w: World) returns (rec: Option<Record>)
      modifies this`collisionPairs, this`checkedPairs
      ensures var r := ScanPair(Scan(w, old(collisionPairs), old(checkedPairs)), handlers, i, j);
              collisionPairs == r.pairs && checkedPairs == r.checked
              && r.world == (if rec.Some? then Dispatch(handlers, rec.value, w) else w)
    {
      rec := None;
      var bs := w.bodies;
      if i < |bs| && j < |bs| && i != j && Live(bs[j]) {
        var id1, id2 := CoreOf(bs[i]).id, CoreOf(bs[j]).id;
        if !IsChecked(id1, id2) {
          var kind := Classify(bs[i], bs[j]);
          if kind.Some? {
            rec := Some(Record(i, j, id1, id2, kind.value));
            collisionPairs := collisionPairs + [rec.value];
            MarkAsChecked(id1, id2);
          }
        }
      }
    }

    method SetEnabled(on: bool)
      modifies this`enabled
      ensures enabled == on
    {
      enabled := on;
    }

    /** `reset`: no recorded pairs, no checked set, an empty grid. */
    method Reset()
      requires Valid()
      modifies this`collisionPairs, this`checkedPairs, spatialHash
      ensures Valid() && collisionPairs == [] && checkedPairs == None
      ensures spatialHash.cells == map[] && spatialHash.members == {}
    {
      collisionPairs := [];
      checkedPairs := None;
      spatialHash.Reset();
    }
  }
}
