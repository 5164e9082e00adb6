/**
 * The game engine: a registry of entities keyed by id (a `Map`, kept in
 * insertion order), a state field changed only through `setState` with
 * its entry actions, an event bus, and the fixed order of a frame:
 * entity updates, the sweep of destroyed entities, collision detection
 * with the engine's own responses, and the win/loss check.
 *
 * Outside inputs are parameters: the clock (`now`), the controls the
 * paddle reads, and the ids `generateEntityId` would hand out, as a
 * function `gen` from the number of ids drawn so far.
 */
module Engine {
  import opened Options
  import opened Entities
  import opened Balls
  import opened Bricks
  import opened Paddles
  import opened Bodies
  import opened Contacts
  import opened Handlers
  import opened Collision
  import Helpers

  const FpsInterval: real := 1000.0 / 60.0

  const BrickWidth: real := 60.0
  const BrickHeight: real := 20.0
  const BrickPadding: real := 5.0
  const BrickOffsetY: real := 60.0
  const BrickColors: seq<string> := ["#ff6b6b", "#4ecdc4", "#45b7d1", "#f7dc6f", "#bb8fce"]

  // ------------------------------------------------------------ events

  datatype EventData = NoData | StateChange(oldState: string, newState: string)

  /** A registered callback; what it does is outside the engine. */
  datatype Listener = Listener(tag: nat)

  /** One callback invocation, in the order the engine makes them. */
  datatype Call = Call(listener: Listener, event: string, data: EventData)

  /** The lazily created `listeners` map. */
  type Listeners = Option<map<string, seq<Listener>>>

  function Registered(ls: Listeners, event: string): seq<Listener>
  {
    if ls.Some? && event in ls.value then ls.value[event] else []
  }

  /** `on(event, callback)`: the callback goes last in the event's list. */
  function Subscribe(ls: Listeners, event: string, cb: Listener): (r: Listeners)
    ensures r.Some? && Registered(r, event) == Registered(ls, event) + [cb]
    ensures forall e :: e != event ==> Registered(r, e) == Registered(ls, e)
  {
    var m := if ls.Some? then ls.value else map[];
    Some(m[event := Registered(ls, event) + [cb]])
  }

  /** The calls `emit` makes: each listener once, in registration order, even past one that throws. */
  function CallsOf(ls: seq<Listener>, event: string, data: EventData): (r: seq<Call>)
    ensures |r| == |ls|
    ensures forall k :: 0 <= k < |ls| ==> r[k] == Call(ls[k], event, data)
  {
    if ls == [] then [] else [Call(ls[0], event, data)] + CallsOf(ls[1..], event, data)
  }

  function Emitted(ls: Listeners, event: string, data: EventData): seq<Call>
  {
    CallsOf(Registered(ls, event), event, data)
  }

  /** A listener added with `on` is called by the next `emit` of its event, after the earlier ones. */
  lemma EmittedAfterSubscribe(ls: Listeners, event: string, cb: Listener, data: EventData)
    ensures Emitted(Subscribe(ls, event, cb), event, data) == Emitted(ls, event, data) + [Call(cb, event, data)]
  {
    var prior := Registered(ls, event);
    assert Registered(Subscribe(ls, event, cb), event) == prior + [cb];
    assert CallsOf(prior + [cb], event, data) == CallsOf(prior, event, data) + [Call(cb, event, data)];
  }

  // ------------------------------------------------------------ the registry

  /** `addEntity`'s id rule: a truthy id is kept, otherwise the generated one is assigned. */
  function WithId(b: Body, newId: string): (r: Body)
    ensures Truthy(CoreOf(b).id) ==> r == b
    ensures !Truthy(CoreOf(b).id) ==> CoreOf(r) == CoreOf(b).(id := Some(newId))
    ensures TypeOf(r) == TypeOf(b) && r.BallBody? == b.BallBody? && r.BrickBody? == b.BrickBody?
  {
    if Truthy(CoreOf(b).id) then b else WithCore(b, CoreOf(b).(id := Some(newId)))
  }

  /** `addEntity`: stored with `Map.set` under its own id, or under the generated one when it has none. */
  function WithEntity(es: seq<Entry>, b: Body, newId: string): (r: seq<Entry>)
    ensures Entry(CoreOf(WithId(b, newId)).id.value, WithId(b, newId)) in r
    ensures Truthy(CoreOf(b).id) ==> Entry(CoreOf(b).id.value, b) in r
    ensures !Truthy(CoreOf(b).id) ==> Entry(newId, WithId(b, newId)) in r
  {
    var c := WithId(b, newId);
    SetEntry(es, CoreOf(c).id.value, c)
  }

  /** With distinct keys, the added entity is what `get` returns for its id, and keys stay distinct. */
  lemma WithEntityFinds(es: seq<Entry>, b: Body, newId: string)
    requires DistinctKeys(es)
    ensures DistinctKeys(WithEntity(es, b, newId))
    ensures GetEntry(WithEntity(es, b, newId), CoreOf(WithId(b, newId)).id.value) == Some(WithId(b, newId))
  {
    var c := WithId(b, newId);
    GetAfterSet(es, CoreOf(c).id.value, c, CoreOf(c).id.value);
  }

  /** Every entry after `set` was there before, or is the new one. */
  lemma SetEntryFrom(es: seq<Entry>, key: string, b: Body)
    ensures forall e :: e in SetEntry(es, key, b) ==> e in es || e == Entry(key, b)
  {
    var i := FindKey(es, key);
    if i != -1 {
      forall e | e in es[i := Entry(key, b)] ensures e in es || e == Entry(key, b) {
        var k :| 0 <= k < |es| && es[i := Entry(key, b)][k] == e;
        if k != i { assert e == es[k]; }
      }
    }
  }

  /** Runs `step` over `bs` in order, handing the `k`-th body its position `start + k`. */
  function AddEach(es: seq<Entry>, bs: seq<Body>, step: (seq<Entry>, Body, nat) -> seq<Entry>, start: nat): seq<Entry>
    decreases |bs|
  {
    if bs == [] then es else AddEach(step(es, bs[0], start), bs[1..], step, start + 1)
  }

  /** Running over a list in two parts is running over the first part, then over the second from where it ended. */
  lemma {:induction false} AddEachAppend(es: seq<Entry>, a: seq<Body>, b: seq<Body>, step: (seq<Entry>, Body, nat) -> seq<Entry>, start: nat)
    ensures AddEach(es, a + b, step, start) == AddEach(AddEach(es, a, step, start), b, step, start + |a|)
    decreases |a|
  {
    if a == [] {
      assert a + b == b;
    } else {
      assert (a + b)[0] == a[0] && (a + b)[1..] == a[1..] + b;
      AddEachAppend(step(es, a[0], start), a[1..], b, step, start + 1);
    }
  }

  /** One `addEntity` call, the body at position `k` drawing id `gen(k)` if it needs one. */
  function AddStep(gen: nat -> string): (seq<Entry>, Body, nat) -> seq<Entry>
  {
    (es: seq<Entry>, b: Body, k: nat) => WithEntity(es, b, gen(k))
  }

  /** Adds `bs` in order, the `k`-th one drawing id `gen(start + k)` if it needs one. */
  function WithEntities(es: seq<Entry>, bs: seq<Body>, gen: nat -> string, start: nat): seq<Entry>
  {
    AddEach(es, bs, AddStep(gen), start)
  }

  /** Adding never changes the type of anything, and adds only the given entities. */
  lemma {:induction false} WithEntitiesFrom(es: seq<Entry>, bs: seq<Body>, gen: nat -> string, start: nat, t: string)
    requires forall e :: e in es ==> TypeOf(e.body) != t
    requires forall k :: 0 <= k < |bs| ==> TypeOf(bs[k]) != t
    ensures forall e :: e in WithEntities(es, bs, gen, start) ==> TypeOf(e.body) != t
    decreases |bs|
  {
    if bs != [] {
      var c := WithId(bs[0], gen(start));
      SetEntryFrom(es, CoreOf(c).id.value, c);
      WithEntitiesFrom(WithEntity(es, bs[0], gen(start)), bs[1..], gen, start + 1, t);
    }
  }

  lemma {:induction false} WithEntitiesKeepKeysDistinct(es: seq<Entry>, bs: seq<Body>, gen: nat -> string, start: nat)
    requires DistinctKeys(es)
    ensures DistinctKeys(WithEntities(es, bs, gen, start))
    decreases |bs|
  {
    if bs != [] {
      WithEntityFinds(es, bs[0], gen(start));
      WithEntitiesKeepKeysDistinct(WithEntity(es, bs[0], gen(start)), bs[1..], gen, start + 1);
    }
  }

  /** `removeEntity(id)`: a registered entity is destroyed, deleted and returned. */
  function WithoutEntity(es: seq<Entry>, key: string): (r: (seq<Entry>, Option<Body>))
    ensures !HasKey(r.0, key)
    ensures !HasKey(es, key) ==> r == (es, None)
    ensures HasKey(es, key) ==> r.1 == Some(DestroyBody(GetEntry(es, key).value)) && CoreOf(r.1.value).destroyed
    ensures forall e :: e in r.0 <==> e in es && e.key != key
    ensures r.0 == DeleteEntry(es, key)
  {
    match GetEntry(es, key)
    case None => DeleteAbsent(es, key); (es, None)
    case Some(b) =>
      var r := DeleteEntry(es, key);
      assert forall k :: 0 <= k < |r| ==> r[k].key != key by {
        forall k | 0 <= k < |r| ensures r[k].key != key {
          assert r[k] in r;
        }
      }
      (r, Some(DestroyBody(b)))
  }

  /** `Map.delete` of a key that is not there changes nothing. */
  lemma {:induction false} DeleteAbsent(es: seq<Entry>, key: string)
    requires !HasKey(es, key)
    ensures DeleteEntry(es, key) == es
    decreases |es|
  {
    if es != [] {
      forall k | 0 <= k < |es[1..]| ensures es[1..][k].key != key {
        assert es[1..][k] == es[k + 1];
      }
      DeleteAbsent(es[1..], key);
      assert es[0].key != key;
    }
  }

  /** Each entry's body replaced by the matching one of `bs`, keys kept. */
  function Rebody(es: seq<Entry>, bs: seq<Body>): (r: seq<Entry>)
    requires |bs| == |es|
    ensures |r| == |es| && BodiesOf(r) == bs
    ensures forall k :: 0 <= k < |es| ==> r[k].key == es[k].key
  {
    seq(|es|, k requires 0 <= k < |es| => Entry(es[k].key, bs[k]))
  }

  /** Same keys, position by position. */
  predicate SameKeys(a: seq<Entry>, b: seq<Entry>)
  {
    |a| == |b| && forall k :: 0 <= k < |a| ==> a[k].key == b[k].key
  }

  lemma SameKeysDistinct(a: seq<Entry>, b: seq<Entry>)
    requires SameKeys(a, b) && DistinctKeys(a)
    ensures DistinctKeys(b)
  {
  }

  lemma {:induction false} SurvivorsKeepKeysDistinct(es: seq<Entry>)
    requires DistinctKeys(es)
    ensures DistinctKeys(Survivors(es))
    decreases |es|
  {
    if es != [] {
      assert DistinctKeys(es[1..]) by {
        forall i, j | 0 <= i < j < |es| - 1 ensures es[1..][i].key != es[1..][j].key {
          assert es[1..][i] == es[i + 1] && es[1..][j] == es[j + 1];
        }
      }
      SurvivorsKeepKeysDistinct(es[1..]);
      if !CoreOf(es[0].body).destroyed {
        var tail := Survivors(es[1..]);
        forall k | 0 <= k < |tail| ensures tail[k].key != es[0].key {
          assert tail[k] in tail;
          assert tail[k] in es[1..];
          var j :| 0 <= j < |es[1..]| && es[1..][j] == tail[k];
          assert es[j + 1] == tail[k];
        }
        assert forall k :: 1 <= k < |[es[0]] + tail| ==> ([es[0]] + tail)[k] == tail[k - 1];
      }
    }
  }

  // ------------------------------------------------------------ the opening layout

  /** The paddle, the ball and the 3×5 bricks `initializeGameEntities` creates. */
  function InitialBodies(width: real, height: real): (r: seq<Body>)
    ensures |r| == 17
    ensures r[0].PaddleBody? && r[0].paddle == NewPaddle(width / 2.0 - 40.0, height - 30.0, 80.0, 12.0)
    ensures r[1].BallBody? && r[1].ball == NewBall(width / 2.0, height - 50.0, 7.0, 0.0, 0.0, 4.0) && r[1].ball.attached
  {
    [PaddleBody(NewPaddle(width / 2.0 - 40.0, height - 30.0, 80.0, 12.0)),
     BallBody(NewBall(width / 2.0, height - 50.0, 7.0, 0.0, 0.0, 4.0).(attached := true))]
    + BrickGrid(width, 3, 5)
  }

  lemma InitialBodiesSplit(width: real, height: real, paddle: Body, ball: Body)
    requires paddle == PaddleBody(NewPaddle(width / 2.0 - 40.0, height - 30.0, 80.0, 12.0))
    requires ball == BallBody(NewBall(width / 2.0, height - 50.0, 7.0, 0.0, 0.0, 4.0).(attached := true))
    ensures InitialBodies(width, height) == [paddle, ball] + BrickGrid(width, 3, 5)
  {
  }

  /** The registry after the paddle, the ball and the grid are added one after the other. */
  lemma InitialEntities(es0: seq<Entry>, es2: seq<Entry>, es: seq<Entry>, paddle: Body, ball: Body,
                        width: real, height: real, gen: nat -> string)
    requires InitialBodies(width, height) == [paddle, ball] + BrickGrid(width, 3, 5)
    requires es2 == WithEntity(WithEntity(es0, paddle, gen(0)), ball, gen(1))
    requires es == WithEntities(es2, BrickGrid(width, 3, 5), gen, 2)
    ensures es == WithEntities(es0, InitialBodies(width, height), gen, 0)
  {
    WithEntitiesPair(es0, paddle, ball, gen, 0, 1);
    WithEntitiesAppend(es0, [paddle, ball], BrickGrid(width, 3, 5), gen, 0, 2);
  }

  /** The brick of `createBricks(rows, cols)` at row `r`, column `c`: kind `normal`, colour by row. */
  function BrickAt(width: real, cols: nat, r: nat, c: nat): (b: BrickState)
  {
    var offsetX := (width - cols as real * (BrickWidth + BrickPadding)) / 2.0;
    NewBrick(offsetX + c as real * (BrickWidth + BrickPadding), BrickOffsetY + r as real * (BrickHeight + BrickPadding),
             BrickWidth, BrickHeight, BrickColors[r % |BrickColors|], "normal")
  }

  /**
   * The grid is centred: its left edge is half the spare width in from the
   * canvas edge, columns are 65 apart, rows 25 apart from y = 60, and the
   * colours cycle through the five every five rows.
   */
  lemma BrickPlacement(width: real, cols: nat, r: nat, c: nat)
    ensures var b := BrickAt(width, cols, r, c);
            b.core.typeTag == "normal" && b.core.id == None && b.hp == 1 && b.points == 10
            && b.core.x == (width - cols as real * 65.0) / 2.0 + c as real * 65.0
            && b.core.y == 60.0 + r as real * 25.0
            && b.core.width == 60.0 && b.core.height == 20.0 && b.color == BrickColors[r % 5]
  {
  }

  /** Columns `c ..` of row `r`. */
  function BrickRow(width: real, cols: nat, r: nat, c: nat): (s: seq<Body>)
    ensures |s| == if c <= cols then cols - c else 0
    decreases cols - c
  {
    if c >= cols then [] else [BrickBody(BrickAt(width, cols, r, c))] + BrickRow(width, cols, r, c + 1)
  }

  /** The `k`-th brick of the row from column `c` is the brick at column `c + k`. */
  lemma {:induction false} BrickRowAt(width: real, cols: nat, r: nat, c: nat, k: nat)
    requires c + k < cols
    ensures k < |BrickRow(width, cols, r, c)|
    ensures BrickRow(width, cols, r, c)[k] == BrickBody(BrickAt(width, cols, r, c + k))
    decreases k
  {
    if k > 0 {
      BrickRowAt(width, cols, r, c + 1, k - 1);
    }
  }

  /** Rows `r ..` of the grid, row by row. */
  function BrickRows(width: real, rows: nat, cols: nat, r: nat): (s: seq<Body>)
    decreases rows - r
  {
    if r >= rows then [] else BrickRow(width, cols, r, 0) + BrickRows(width, rows, cols, r + 1)
  }

  function BrickGrid(width: real, rows: nat, cols: nat): (s: seq<Body>)
  {
    BrickRows(width, rows, cols, 0)
  }

  /** Every brick `createBricks` makes is a brick of kind `normal`. */
  lemma {:induction false} GridKinds(width: real, rows: nat, cols: nat, r: nat)
    ensures forall b :: b in BrickRows(width, rows, cols, r) ==> b.BrickBody? && TypeOf(b) == "normal"
    decreases rows - r
  {
    if r < rows {
      GridKinds(width, rows, cols, r + 1);
      var row := BrickRow(width, cols, r, 0);
      forall b | b in row ensures b.BrickBody? && TypeOf(b) == "normal" {
        var k :| 0 <= k < |row| && row[k] == b;
        BrickRowAt(width, cols, r, 0, k);
      }
    }
  }

  lemma MulStep(a: nat, b: nat)
    ensures (a + 1) * b == a * b + b
  {
  }

  lemma {:induction false} RowsLength(width: real, rows: nat, cols: nat, from: nat)
    requires from <= rows
    ensures |BrickRows(width, rows, cols, from)| == (rows - from) * cols
    decreases rows - from
  {
    if from < rows {
      RowsLength(width, rows, cols, from + 1);
      MulStep(rows - (from + 1), cols);
    }
  }

  /** Past the first row, the rows from `from` continue with the rows from `from + 1`. */
  lemma RowsShift(width: real, rows: nat, cols: nat, from: nat, j: nat)
    requires from < rows && j < |BrickRows(width, rows, cols, from + 1)|
    ensures cols + j < |BrickRows(width, rows, cols, from)|
    ensures BrickRows(width, rows, cols, from)[cols + j] == BrickRows(width, rows, cols, from + 1)[j]
  {
    var row := BrickRow(width, cols, from, 0);
    var rest := BrickRows(width, rows, cols, from + 1);
    assert |row| == cols;
    assert (row + rest)[cols + j] == rest[j];
  }

  /** Index of column `c` of the `m`-th row after the first: m rows of `cols` bricks come before it. */
  function RowIndex(cols: nat, m: nat, c: nat): (i: nat)
  {
    if m == 0 then c else cols + RowIndex(cols, m - 1, c)
  }

  lemma {:induction false} RowIndexIsProduct(cols: nat, m: nat, c: nat)
    ensures RowIndex(cols, m, c) == m * cols + c
  {
    if m > 0 {
      RowIndexIsProduct(cols, m - 1, c);
      MulStep(m - 1, cols);
    }
  }

  /** Row `from + m` of the rows starting at `from` begins after m full rows. */
  lemma {:induction false} RowsLayout(width: real, rows: nat, cols: nat, from: nat, m: nat, c: nat)
    requires from + m < rows && c < cols
    ensures RowIndex(cols, m, c) < |BrickRows(width, rows, cols, from)|
    ensures BrickRows(width, rows, cols, from)[RowIndex(cols, m, c)] == BrickBody(BrickAt(width, cols, from + m, c))
    decreases m
  {
    if m == 0 {
      var row := BrickRow(width, cols, from, 0);
      assert BrickRows(width, rows, cols, from) == row + BrickRows(width, rows, cols, from + 1);
      BrickRowAt(width, cols, from, 0, c);
    } else {
      RowsLayout(width, rows, cols, from + 1, m - 1, c);
      RowsShift(width, rows, cols, from, RowIndex(cols, m - 1, c));
    }
  }

  /** The grid has `rows·cols` bricks; brick (r, c) sits at index r·cols + c. */
  lemma BrickGridLayout(width: real, rows: nat, cols: nat, r: nat, c: nat)
    requires r < rows && c < cols
    ensures |BrickGrid(width, rows, cols)| == rows * cols
    ensures r * cols + c < rows * cols
    ensures BrickGrid(width, rows, cols)[r * cols + c] == BrickBody(BrickAt(width, cols, r, c))
  {
    RowsLength(width, rows, cols, 0);
    RowsLayout(width, rows, cols, 0, r, c);
    var i := RowIndex(cols, r, c);
    RowIndexIsProduct(cols, r, c);
    assert BrickGrid(width, rows, cols)[i] == BrickBody(BrickAt(width, cols, r, c));
  }

  /** The layout's bricks have kind `normal`, so `getEntitiesByType('brick')` finds none of them. */
  lemma InitialLayoutHasNoBrickType(width: real, height: real, gen: nat -> string)
    ensures OfType(BodiesOf(WithEntities([], InitialBodies(width, height), gen, 0)), "brick") == []
  {
    var bs := InitialBodies(width, height);
    GridKinds(width, 3, 5, 0);
    forall k | 0 <= k < |bs| ensures TypeOf(bs[k]) != "brick" {
      if k >= 2 {
        assert bs[k] == BrickGrid(width, 3, 5)[k - 2];
        assert bs[k] in BrickGrid(width, 3, 5);
      }
    }
    WithEntitiesFrom([], bs, gen, 0, "brick");
    var es := WithEntities([], bs, gen, 0);
    forall k | 0 <= k < |BodiesOf(es)| ensures TypeOf(BodiesOf(es)[k]) != "brick" {
      assert es[k] in es;
    }
    OfTypeEmpty(BodiesOf(es), "brick");
  }

  // ------------------------------------------------------------ collision responses

  /** The engine's `handleCollision`: what it does to the world once the collision system's handlers have run. */
  function Respond(rec: Record, w: World): (r: World)
    ensures |r.bodies| == |w.bodies| && r.combo == w.combo
  {
    if rec.e1 >= |w.bodies| || rec.e2 >= |w.bodies| then w
    else
      var b1 := w.bodies[rec.e1];
      var bi := if TypeOf(b1) == "ball" then rec.e1 else rec.e2;
      match rec.kind
      case BallPaddle(_, _, _, _) =>
        var pi := if TypeOf(b1) == "paddle" then rec.e1 else rec.e2;
        w.(bodies := w.bodies[bi := Aimed(w.bodies[bi], CoreOf(w.bodies[pi]))])
      case BallBrick(_, _) =>
        var ki := if TypeOf(b1) == "brick" then rec.e1 else rec.e2;
        var flipped := w.bodies[bi := FlipDy(w.bodies[bi])];
        w.(bodies := flipped[ki := Struck(flipped[ki])])
      case BallWall(side) =>
        var b := w.bodies[bi];
        var b' := if side in {Left, Right} then FlipDx(b) else if side in {Top, Bottom} then FlipDy(b) else b;
        w.(bodies := w.bodies[bi := b'])
      case _ => w
  }

  /** `brick.hit()` with its default damage of 1, on a brick. */
  function Struck(b: Body): (r: Body)
    ensures b.BrickBody? ==> r == BrickBody(HitBrick(b.brick, 1).1)
    ensures !b.BrickBody? ==> r == b
  {
    if b.BrickBody? then BrickBody(HitBrick(b.brick, 1).1) else b
  }

  /**
   * The engine's ball–paddle response: dx = 4·relativeX where relativeX is
   * the offset of the ball's centre (`x + radius`) from the paddle's centre
   * over half the paddle width; dy = −|dy|.
   */
  function Aimed(b: Body, paddle: Core): (r: Body)
    ensures !b.BallBody? ==> r == b
    ensures b.BallBody? ==> r.BallBody? && r.ball == b.ball.(dx := r.ball.dx, dy := -Abs(b.ball.dy))
    ensures b.BallBody? && paddle.width > 0.0 ==>
              r.ball.dx * (paddle.width / 2.0) == 4.0 * (b.ball.core.x + b.ball.radius - paddle.x - paddle.width / 2.0)
  {
    if b.BallBody? then
      var half := paddle.width / 2.0;
      var dx := if half != 0.0 then (b.ball.core.x + b.ball.radius - paddle.x - half) / half * 4.0 else b.ball.dx;
      BallBody(b.ball.(dx := dx, dy := -Abs(b.ball.dy)))
    else b
  }

  /** A ball centred on the paddle leaves straight up; one within the paddle's width gets |dx| ≤ 4. */
  lemma AimedBounds(b: Body, paddle: Core)
    requires b.BallBody? && paddle.width > 0.0
    requires var off := b.ball.core.x + b.ball.radius - paddle.x - paddle.width / 2.0; -paddle.width / 2.0 <= off <= paddle.width / 2.0
    ensures b.ball.core.x + b.ball.radius == paddle.x + paddle.width / 2.0 ==> Aimed(b, paddle).ball.dx == 0.0
    ensures -4.0 <= Aimed(b, paddle).ball.dx <= 4.0
  {
    var half := paddle.width / 2.0;
    RatioBound(b.ball.core.x + b.ball.radius - paddle.x - half, half, 4.0);
  }

  /** The engine's responses to a pass's records, in order. */
  function RespondAll(recs: seq<Record>, w: World): (r: World)
    ensures |r.bodies| == |w.bodies| && r.combo == w.combo
  {
    if recs == [] then w else RespondAll(recs[1..], Respond(recs[0], w))
  }

  /**
   * Responses are applied twice: a side-wall record first has its dx
   * negated by the game's wall handler, then negated again by the engine,
   * so the ball keeps its horizontal direction; only the combo reset remains.
   */
  lemma WallResponseTwice(rec: Record, w: World)
    requires rec.e1 < |w.bodies| && rec.e2 < |w.bodies| && w.bodies[rec.e1].BallBody? && TypeOf(w.bodies[rec.e1]) == "ball"
    requires rec.kind == BallWall(Left) || rec.kind == BallWall(Right)
    ensures var r := Respond(rec, OnBallWall(rec, w));
            r.bodies == w.bodies && r.combo == 0
  {
    var once := OnBallWall(rec, w);
    var b := w.bodies[rec.e1];
    assert once.bodies[rec.e1] == FlipDx(b);
    assert FlipDx(FlipDx(b)) == b;
  }

  /**
   * On a ball–paddle record the engine's response overrides the game's
   * bounce: whatever `handlePaddleCollision` did, dx ends as the engine's
   * 4·relativeX, computed from the unchanged positions.
   */
  lemma EngineOverridesPaddleBounce(rec: Record, w: World)
    requires rec.e1 < |w.bodies| && rec.e2 < |w.bodies| && rec.e1 != rec.e2
    requires rec.kind.BallPaddle? && w.bodies[rec.e1].BallBody? && TypeOf(w.bodies[rec.e1]) == "ball"
    ensures var r := Respond(rec, OnBallPaddle(rec, w));
            r.bodies[rec.e1] == Aimed(OnBallPaddle(rec, w).bodies[rec.e1], CoreOf(w.bodies[rec.e2]))
            && r.bodies[rec.e1].ball.dy == -Abs(w.bodies[rec.e1].ball.dy)
            && r.bodies[rec.e1].ball.core == w.bodies[rec.e1].ball.core
  {
    var once := OnBallPaddle(rec, w);
    var pb := PaddleBounce(w.bodies[rec.e1].ball, CoreOf(w.bodies[rec.e2]));
    assert once.bodies[rec.e1] == BallBody(pb.1);
    assert pb.1.dy == -Abs(w.bodies[rec.e1].ball.dy) || pb.1.dy == w.bodies[rec.e1].ball.dy;
  }

  // ------------------------------------------------------------ the engine as a value

  datatype EngineState = EngineState(state: string, entities: seq<Entry>, listeners: Listeners, calls: seq<Call>,
                                     lives: int, combo: nat)

  /** The event each entry action emits, if it emits one. */
  function EntryEvent(s: string): Option<string>
  {
    if s == "paused" then Some("pause")
    else if s == "gameover" then Some("gameOver")
    else if s == "stageclear" then Some("stageClear")
    else if s == "roundclear" then Some("roundClear")
    else None
  }

  /**
   * `setState(newState)`: assign, emit one `stateChange`, run the entry
   * action. Entering `menu` clears the registry and then calls the missing
   * `loadMenuEntities`, which throws; the flag says so.
   */
  function Transition(s: EngineState, newState: string, width: real, height: real, gen: nat -> string): (r: (EngineState, bool))
    ensures r.0.state == newState && r.0.lives == s.lives && r.0.combo == s.combo && r.0.listeners == s.listeners
    ensures r.1 <==> newState == "menu"
    ensures var head := s.calls + Emitted(s.listeners, "stateChange", StateChange(s.state, newState));
            r.0.calls == head + (if EntryEvent(newState).Some? then Emitted(s.listeners, EntryEvent(newState).value, NoData) else [])
    ensures newState == "menu" ==> r.0.entities == []
    ensures newState == "playing" && s.entities == [] ==> r.0.entities == WithEntities([], InitialBodies(width, height), gen, 0)
    ensures newState != "menu" && (newState != "playing" || s.entities != []) ==> r.0.entities == s.entities
  {
    var s1 := s.(state := newState, calls := s.calls + Emitted(s.listeners, "stateChange", StateChange(s.state, newState)));
    if newState == "menu" then (s1.(entities := []), true)
    else if newState == "playing" then
      (if s1.entities == [] then s1.(entities := WithEntities([], InitialBodies(width, height), gen, 0)) else s1, false)
    else if EntryEvent(newState).Some? then (s1.(calls := s1.calls + Emitted(s.listeners, EntryEvent(newState).value, NoData)), false)
    else (s1, false)
  }

  /** What `checkGameState` decides. */
  datatype Verdict = StageClear | GameOver | LoseLife | Carry

  function Judge(es: seq<Entry>, lives: int): (v: Verdict)
    ensures v == StageClear <==> OfType(BodiesOf(es), "brick") == []
    ensures v == LoseLife <==> OfType(BodiesOf(es), "brick") != [] && OfType(BodiesOf(es), "ball") == [] && lives > 0
    ensures v == GameOver <==> OfType(BodiesOf(es), "brick") != [] && OfType(BodiesOf(es), "ball") == [] && lives <= 0
  {
    var bs := BodiesOf(es);
    if OfType(bs, "brick") == [] then StageClear
    else if OfType(bs, "ball") == [] then (if lives > 0 then LoseLife else GameOver)
    else Carry
  }

  /** The replacement ball: centred over the first paddle, 20 above its top, moving up at speed 4, attached. */
  function SpareBall(paddle: Core): (b: BallState)
    ensures b.attached && b.dy == -4.0 && b.speed == 4.0 && b.radius == 7.0 && b.core.typeTag == "ball"
    ensures CoreBounds(b.core).centerX == paddle.x + paddle.width / 2.0 && CoreBounds(b.core).centerY == paddle.y - 20.0
  {
    NewBall(paddle.x + paddle.width / 2.0, paddle.y - 20.0, 7.0, 0.0, -4.0, 4.0).(attached := true)
  }

  /**
   * `checkGameState`: no entity of type `brick` clears the stage; otherwise
   * no ball costs a life (with a spare ball on the first paddle, if any)
   * while lives remain, and ends the game when none do. The lives counter is
   * the stored `maxLives`, written back without the [1, 10] clamp.
   */
  function Judged(s: EngineState, width: real, height: real, gen: nat -> string): (r: EngineState)
    ensures Judge(s.entities, s.lives) == StageClear ==> r == Transition(s, "stageclear", width, height, gen).0
    ensures Judge(s.entities, s.lives) == GameOver ==> r == Transition(s, "gameover", width, height, gen).0
    ensures Judge(s.entities, s.lives) == Carry ==> r == s
    ensures Judge(s.entities, s.lives) == LoseLife ==>
              r.state == s.state && r.lives == s.lives - 1 && r.calls == s.calls
              && r.entities == match FirstOfType(BodiesOf(s.entities), "paddle")
                               case None => s.entities
                               case Some(p) => WithEntity(s.entities, BallBody(SpareBall(p)), gen(0))
  {
    match Judge(s.entities, s.lives)
    case StageClear => Transition(s, "stageclear", width, height, gen).0
    case GameOver => Transition(s, "gameover", width, height, gen).0
    case Carry => s
    case LoseLife =>
      var es := match FirstOfType(BodiesOf(s.entities), "paddle")
                case None => s.entities
                case Some(p) => WithEntity(s.entities, BallBody(SpareBall(p)), gen(0));
      s.(entities := es, lives := s.lives - 1)
  }

  /** As written, the opening layout has no entity of type `brick`, so the first check of a game clears the stage. */
  lemma OpeningCheckClearsStage(s: EngineState, width: real, height: real, gen: nat -> string)
    requires s.entities == WithEntities([], InitialBodies(width, height), gen, 0)
    ensures Judged(s, width, height, gen).state == "stageclear"
  {
    InitialLayoutHasNoBrickType(width, height, gen);
  }

  /**
   * A lost ball with one life left leaves the counter at 0, below the
   * [1, 10] range `setMaxLives` enforces; once there, another lost ball
   * ends the game.
   */
  lemma LastLifeBypassesClamp(s: EngineState, width: real, height: real, gen: nat -> string)
    requires s.lives == 1 && OfType(BodiesOf(s.entities), "brick") != [] && OfType(BodiesOf(s.entities), "ball") == []
    ensures Judged(s, width, height, gen).lives == 0
    ensures Judged(s.(lives := 0), width, height, gen).state == "gameover"
    ensures Judged(s.(lives := 0), width, height, gen).entities == s.entities
  {
  }

  // ------------------------------------------------------------ building the registry step by step

  /** Adding a list in two parts is adding the first part, then the second with the ids that follow. */
  lemma WithEntitiesAppend(es: seq<Entry>, a: seq<Body>, b: seq<Body>, gen: nat -> string, start: nat, next: nat)
    requires next == start + |a|
    ensures WithEntities(es, a + b, gen, start) == WithEntities(WithEntities(es, a, gen, start), b, gen, next)
  {
    AddEachAppend(es, a, b, AddStep(gen), start);
  }

  /** The first `r` rows of the grid, built row after row as `createBricks`' outer loop does. */
  function RowsUpTo(width: real, cols: nat, r: nat): seq<Body>
  {
    if r == 0 then [] else RowsUpTo(width, cols, r - 1) + BrickRow(width, cols, r - 1, 0)
  }

  lemma {:induction false} RowsUpToThenRest(width: real, rows: nat, cols: nat, r: nat)
    requires r <= rows
    ensures RowsUpTo(width, cols, r) + BrickRows(width, rows, cols, r) == BrickRows(width, rows, cols, 0)
  {
    if r == 0 {
      assert RowsUpTo(width, cols, 0) == [];
    } else {
      RowsUpToThenRest(width, rows, cols, r - 1);
      var before := RowsUpTo(width, cols, r - 1);
      var row := BrickRow(width, cols, r - 1, 0);
      var rest := BrickRows(width, rows, cols, r);
      assert BrickRows(width, rows, cols, r - 1) == row + rest;
      assert RowsUpTo(width, cols, r) == before + row;
      assert (before + row) + rest == before + (row + rest);
    }
  }

  // ------------------------------------------------------------ the sweep, step by step

  /** The destroyed keys of a longer prefix: those of the shorter one, then the next entry's if it is destroyed. */
  lemma DestroyedKeysSnoc(es: seq<Entry>, i: nat)
    requires i < |es|
    ensures DestroyedKeys(es[..i + 1]) == DestroyedKeys(es[..i]) + (if CoreOf(es[i].body).destroyed then [es[i].key] else [])
  {
    assert es[..i + 1] == es[..i] + [es[i]];
    DestroyedKeysAppend(es[..i], [es[i]]);
  }

  lemma {:induction false} DestroyedKeysAppend(a: seq<Entry>, b: seq<Entry>)
    ensures DestroyedKeys(a + b) == DestroyedKeys(a) + DestroyedKeys(b)
    decreases |a|
  {
    if a == [] {
      assert a + b == b;
    } else {
      assert (a + b)[0] == a[0] && (a + b)[1..] == a[1..] + b;
      DestroyedKeysAppend(a[1..], b);
    }
  }

  lemma {:induction false} WithoutNoKeys(es: seq<Entry>)
    ensures WithoutKeys(es, {}) == es
    decreases |es|
  {
    if es != [] {
      WithoutNoKeys(es[1..]);
    }
  }

  /** With distinct keys, an entry whose key is among the destroyed keys is itself destroyed. */
  lemma DestroyedKeysExact(es: seq<Entry>)
    requires DistinctKeys(es)
    ensures forall e :: e in es && e.key in DestroyedKeys(es) ==> CoreOf(e.body).destroyed
  {
    forall e | e in es && e.key in DestroyedKeys(es) ensures CoreOf(e.body).destroyed {
      var d :| d in es && d.key == e.key && CoreOf(d.body).destroyed;
      var a :| 0 <= a < |es| && es[a] == e;
      var b :| 0 <= b < |es| && es[b] == d;
      assert a == b;
    }
  }

  /** The rows built so far, then one more row, with the ids that follow. */
  lemma RowsStep(es: seq<Entry>, width: real, cols: nat, r: nat, gen: nat -> string, start: nat)
    ensures |RowsUpTo(width, cols, r + 1)| == |RowsUpTo(width, cols, r)| + cols
    ensures WithEntities(es, RowsUpTo(width, cols, r + 1), gen, start)
            == WithEntities(WithEntities(es, RowsUpTo(width, cols, r), gen, start), BrickRow(width, cols, r, 0),
                            gen, start + |RowsUpTo(width, cols, r)|)
  {
    WithEntitiesAppend(es, RowsUpTo(width, cols, r), BrickRow(width, cols, r, 0), gen, start, start + |RowsUpTo(width, cols, r)|);
  }

  lemma RowsUpToAll(width: real, rows: nat, cols: nat)
    ensures RowsUpTo(width, cols, rows) == BrickGrid(width, rows, cols)
  {
    RowsUpToThenRest(width, rows, cols, rows);
    assert BrickRows(width, rows, cols, rows) == [];
    assert RowsUpTo(width, cols, rows) + [] == RowsUpTo(width, cols, rows);
  }

  // ------------------------------------------------------------ one frame

  /**
   * The entity pass of `update` from position `i` on: each entity that is
   * not destroyed runs its own `update`, and a ball sees the first paddle
   * of the registry as the earlier updates of the same pass left it.
   */
  function UpdateFrom(es: seq<Entry>, i: nat, dt: real, input: PaddleInput, width: real): (r: seq<Entry>)
    ensures SameKeys(es, r)
    ensures forall k :: 0 <= k < |es| ==> SameIdentity(r[k], es[k])
    ensures forall k :: 0 <= k < |es| && (CoreOf(es[k].body).destroyed || k < i) ==> r[k] == es[k]
    decreases |es| - i
  {
    if i >= |es| then es
    else if CoreOf(es[i].body).destroyed then UpdateFrom(es, i + 1, dt, input, width)
    else
      var b := UpdateBody(es[i].body, dt, FirstOfType(BodiesOf(es), "paddle"), input, width);
      UpdateKeepsIdentity(es[i].body, dt, FirstOfType(BodiesOf(es), "paddle"), input, width);
      UpdateFrom(es[i := Entry(es[i].key, b)], i + 1, dt, input, width)
  }

  /** Two entries for the same entity: same key, id, type and lifecycle flags. */
  predicate SameIdentity(a: Entry, b: Entry)
  {
    a.key == b.key && CoreOf(a.body).id == CoreOf(b.body).id && TypeOf(a.body) == TypeOf(b.body)
    && CoreOf(a.body).destroyed == CoreOf(b.body).destroyed && CoreOf(a.body).active == CoreOf(b.body).active
  }

  /** What the engine reads of its collision system: the handler table, the switch and the checked set. */
  datatype Checker = Checker(handlers: map<string, Handler>, enabled: bool, checked: Option<set<string>>)

  /**
   * `detectCollisions`: the collision system's pass over the registry (its
   * handlers included), then the engine's own response to each record.
   */
  function Detect(es: seq<Entry>, combo: nat, c: Checker): (r: (seq<Entry>, nat, Option<set<string>>))
    ensures SameKeys(es, r.0)
    ensures !c.enabled ==> r == (es, combo, c.checked)
  {
    if !c.enabled then (es, combo, c.checked)
    else
      var p := Pass(World(BodiesOf(es), combo), c.handlers, c.checked);
      var w := RespondAll(p.pairs, p.world);
      (Rebody(es, w.bodies), w.combo, p.checked)
  }

  /**
   * `update(dt)` while playing: the entity pass, the sweep of destroyed
   * entities, collision detection, then the win/loss check. The systems'
   * own step changes nothing here (see the README).
   */
  function Frame(s: EngineState, c: Checker, dt: real, input: PaddleInput, width: real, height: real, gen: nat -> string)
    : (r: (EngineState, Option<set<string>>))
    requires s.state == "playing"
    ensures r.0.listeners == s.listeners
    ensures r.0.state == "playing" ==> r.0.calls == s.calls
    ensures r.0.state != "playing" ==>
              && r.0.state in {"stageclear", "gameover"} && r.0.lives == s.lives
              && r.0.calls == s.calls + Emitted(s.listeners, "stateChange", StateChange("playing", r.0.state))
                              + Emitted(s.listeners, EntryEvent(r.0.state).value, NoData)
  {
    var updated := UpdateFrom(s.entities, 0, dt, input, width);
    var swept := Survivors(updated);
    var d := Detect(swept, s.combo, c);
    (Judged(s.(entities := d.0, combo := d.1), width, height, gen), d.2)
  }

  lemma TransitionKeepsKeysDistinct(s: EngineState, newState: string, width: real, height: real, gen: nat -> string)
    requires DistinctKeys(s.entities)
    ensures DistinctKeys(Transition(s, newState, width, height, gen).0.entities)
  {
    WithEntitiesKeepKeysDistinct([], InitialBodies(width, height), gen, 0);
  }

  lemma JudgedKeepsKeysDistinct(s: EngineState, width: real, height: real, gen: nat -> string)
    requires DistinctKeys(s.entities)
    ensures DistinctKeys(Judged(s, width, height, gen).entities)
  {
    TransitionKeepsKeysDistinct(s, "stageclear", width, height, gen);
    TransitionKeepsKeysDistinct(s, "gameover", width, height, gen);
    var p := FirstOfType(BodiesOf(s.entities), "paddle");
    if p.Some? {
      WithEntityFinds(s.entities, BallBody(SpareBall(p.value)), gen(0));
    }
  }

  /**
   * A frame keeps the registry's ids distinct, never raises the lives
   * counter, lowers it by at most one, and moves the state only to
   * `stageclear` or `gameover`.
   */
  lemma FrameBookkeeping(s: EngineState, c: Checker, dt: real, input: PaddleInput, width: real, height: real, gen: nat -> string)
    requires s.state == "playing" && DistinctKeys(s.entities)
    ensures var r := Frame(s, c, dt, input, width, height, gen).0;
            DistinctKeys(r.entities) && (r.lives == s.lives || r.lives == s.lives - 1)
            && r.state in {"playing", "stageclear", "gameover"}
  {
    var updated := UpdateFrom(s.entities, 0, dt, input, width);
    SameKeysDistinct(s.entities, updated);
    SurvivorsKeepKeysDistinct(updated);
    var swept := Survivors(updated);
    var d := Detect(swept, s.combo, c);
    SameKeysDistinct(swept, d.0);
    JudgedKeepsKeysDistinct(s.(entities := d.0, combo := d.1), width, height, gen);
  }

  /** The sweep drops the key of a destroyed entry. */
  lemma SweepDropsKey(es: seq<Entry>, k: nat)
    requires DistinctKeys(es) && k < |es| && CoreOf(es[k].body).destroyed
    ensures !HasKey(Survivors(es), es[k].key)
  {
    var swept := Survivors(es);
    forall j | 0 <= j < |swept| ensures swept[j].key != es[k].key {
      assert swept[j] in swept;
      var m :| 0 <= m < |es| && es[m] == swept[j];
    }
  }

  lemma SameKeysLack(a: seq<Entry>, b: seq<Entry>, key: string)
    requires SameKeys(a, b) && !HasKey(a, key)
    ensures !HasKey(b, key)
  {
    forall j | 0 <= j < |b| ensures b[j].key != key {
      assert a[j].key == b[j].key;
    }
  }

  /** The check adds at most the spare ball, under id `gen(0)`. */
  lemma JudgedAddsOnlySpare(s: EngineState, width: real, height: real, gen: nat -> string, key: string)
    requires !HasKey(s.entities, key) && key != gen(0)
    ensures !HasKey(Judged(s, width, height, gen).entities, key)
  {
    var p := FirstOfType(BodiesOf(s.entities), "paddle");
    if Judge(s.entities, s.lives) == LoseLife && p.Some? {
      var ball := BallBody(SpareBall(p.value));
      var c := WithId(ball, gen(0));
      assert CoreOf(c).id == Some(gen(0));
      var after := WithEntity(s.entities, ball, gen(0));
      SetEntryFrom(s.entities, gen(0), c);
      forall j | 0 <= j < |after| ensures after[j].key != key {
        assert after[j] in after;
        if after[j] in s.entities {
          var m :| 0 <= m < |s.entities| && s.entities[m] == after[j];
        }
      }
    }
  }

  /**
   * An entity already destroyed when a frame starts is no longer registered
   * when it ends, unless the spare ball was given the same id.
   */
  lemma FrameDropsDestroyed(s: EngineState, c: Checker, dt: real, input: PaddleInput, width: real, height: real,
                            gen: nat -> string, k: nat)
    requires s.state == "playing" && DistinctKeys(s.entities)
    requires k < |s.entities| && CoreOf(s.entities[k].body).destroyed && s.entities[k].key != gen(0)
    ensures !HasKey(Frame(s, c, dt, input, width, height, gen).0.entities, s.entities[k].key)
  {
    var key := s.entities[k].key;
    var updated := UpdateFrom(s.entities, 0, dt, input, width);
    SameKeysDistinct(s.entities, updated);
    SweepDropsKey(updated, k);
    var swept := Survivors(updated);
    var d := Detect(swept, s.combo, c);
    SameKeysLack(swept, d.0, key);
    JudgedAddsOnlySpare(s.(entities := d.0, combo := d.1), width, height, gen, key);
  }

  // ------------------------------------------------------------ the frame clock

  /** `Math.min(deltaTime, fpsInterval)`: the step `update` receives. */
  function FixedStep(delta: real): (d: real)
    ensures d <= FpsInterval
    ensures d == delta || d == FpsInterval
    ensures delta <= FpsInterval ==> d == delta
  {
    if delta < FpsInterval then delta else FpsInterval
  }

  /** `Math.round(x)`: the nearest integer, halves rounded up. */
  function Round(x: real): (n: int)
    ensures n as real - 0.5 <= x < n as real + 0.5
  {
    (x + 0.5).Floor
  }

  /** The fps counter: frames since the last reading, the time of that reading, the last reading. */
  datatype FpsMeter = FpsMeter(frameCount: nat, lastFpsUpdate: real, actualFps: Option<int>)

  /**
   * One frame's count: after at least a second since the last reading, the
   * reading becomes the rounded frames-per-second over that interval and
   * the count restarts.
   */
  function Count(m: FpsMeter, now: real): (r: FpsMeter)
    ensures now - m.lastFpsUpdate < 1000.0 ==> r == m.(frameCount := m.frameCount + 1)
    ensures now - m.lastFpsUpdate >= 1000.0 ==>
              r.frameCount == 0 && r.lastFpsUpdate == now && r.actualFps.Some?
              && var rate := (m.frameCount + 1) as real * 1000.0 / (now - m.lastFpsUpdate);
                 r.actualFps.value as real - 0.5 <= rate < r.actualFps.value as real + 0.5
  {
    var n := m.frameCount + 1;
    if now - m.lastFpsUpdate >= 1000.0 then FpsMeter(0, now, Some(Round(n as real * 1000.0 / (now - m.lastFpsUpdate))))
    else m.(frameCount := n)
  }

  lemma WithEntitiesOne(es: seq<Entry>, b: Body, gen: nat -> string, start: nat)
    ensures WithEntities(es, [b], gen, start) == WithEntity(es, b, gen(start))
  {
    var step := AddStep(gen);
    assert [b][0] == b && [b][1..] == [];
    assert AddEach(es, [b], step, start) == AddEach(step(es, b, start), [], step, start + 1);
    assert step(es, b, start) == WithEntity(es, b, gen(start));
  }

  lemma WithEntitiesPair(es: seq<Entry>, x: Body, y: Body, gen: nat -> string, start: nat, next: nat)
    requires next == start + 1
    ensures WithEntities(es, [x, y], gen, start) == WithEntity(WithEntity(es, x, gen(start)), y, gen(next))
  {
    assert [x, y] == [x] + [y];
    WithEntitiesAppend(es, [x], [y], gen, start, next);
    WithEntitiesOne(es, x, gen, start);
    WithEntitiesOne(WithEntity(es, x, gen(start)), y, gen, next);
  }

  /** One more entity of a list: added after the ones before it, with the next id. */
  lemma WithEntitiesSnoc(es: seq<Entry>, bs: seq<Body>, c: nat, gen: nat -> string, start: nat)
    requires c < |bs|
    ensures WithEntities(es, bs[..c + 1], gen, start) == WithEntity(WithEntities(es, bs[..c], gen, start), bs[c], gen(start + c))
  {
    var front := bs[..c];
    assert bs[..c + 1] == front + [bs[c]] && |front| == c;
    WithEntitiesAppend(es, front, [bs[c]], gen, start, start + c);
    WithEntitiesOne(WithEntities(es, front, gen, start), bs[c], gen, start + c);
  }

  lemma CallsOfSnoc(ls: seq<Listener>, k: nat, event: string, data: EventData)
    requires k < |ls|
    ensures CallsOf(ls[..k + 1], event, data) == CallsOf(ls[..k], event, data) + [Call(ls[k], event, data)]
  {
    var a := CallsOf(ls[..k + 1], event, data);
    var b := CallsOf(ls[..k], event, data) + [Call(ls[k], event, data)];
    assert |a| == |b|;
    forall j | 0 <= j < |a| ensures a[j] == b[j] {
      if j < k {
        assert a[j] == Call(ls[..k + 1][j], event, data);
      }
    }
  }

  /** Writing back the bodies a registry already has changes nothing. */
  lemma RebodySame(es: seq<Entry>)
    ensures Rebody(es, BodiesOf(es)) == es
  {
    var r := Rebody(es, BodiesOf(es));
    forall k | 0 <= k < |es| ensures r[k] == es[k] {
      assert r[k].body == BodiesOf(r)[k];
    }
  }

  // ------------------------------------------------------------ the engine object

  class GameEngine {
    var state: string
    var entities: seq<Entry>
    var listeners: Listeners
    /** The listener calls made so far, in order. */
    var calls: seq<Call>
    /**
     * The lives left. The source reads and lowers `gameData`'s `player.maxLives`
     * at each check; this field is a copy of that number taken when the engine is built.
     */
    var lives: int
    /** The page's combo counter, which the collision handlers drive. */
    var combo: nat
    var isRunning: bool
    var lastTime: real
    var frameCount: nat
    var lastFpsUpdate: real
    var actualFps: Option<int>
    const canvasWidth: real
    const canvasHeight: real
    /** The `collision` entry of the systems map. */
    const collision: CollisionSystem

    ghost predicate Valid()
      reads this`entities, collision, collision.spatialHash
    {
      DistinctKeys(entities) && collision.Valid()
    }

    function Snap(): EngineState
      reads this`state, this`entities, this`listeners, this`calls, this`lives, this`combo
    {
      EngineState(state, entities, listeners, calls, lives, combo)
    }

    function CheckerOf(): Checker
      reads collision
    {
      Checker(collision.handlers, collision.enabled, collision.checkedPairs)
    }

    function Meter(): FpsMeter
      reads this`frameCount, this`lastFpsUpdate, this`actualFps
    {
      FpsMeter(frameCount, lastFpsUpdate, actualFps)
    }

    /** A new engine starts in `menu` with nothing registered and a fresh collision system. */
    constructor (width: real, height: real, storedLives: int)
      ensures Valid() && fresh(collision)
      ensures state == "menu" && entities == [] && listeners == None && calls == [] && lives == storedLives && combo == 0
      ensures !isRunning && lastTime == 0.0 && Meter() == FpsMeter(0, 0.0, None)
      ensures canvasWidth == width && canvasHeight == height
      ensures CheckerOf() == Checker(map[], true, None)
    {
      state := "menu";
      entities := [];
      listeners := None;
      calls := [];
      lives := storedLives;
      combo := 0;
      isRunning := false;
      lastTime := 0.0;
      frameCount := 0;
      lastFpsUpdate := 0.0;
      actualFps := None;
      canvasWidth := width;
      canvasHeight := height;
      collision := new CollisionSystem();
    }

    /** `on(event, callback)`. */
    method On(event: string, cb: Listener)
      modifies this`listeners
      ensures listeners == Subscribe(old(listeners), event, cb)
    {
      var m := if listeners.Some? then listeners.value else map[];
      var list := if event in m then m[event] else [];
      listeners := Some(m[event := list + [cb]]);
    }

    /** `emit(event, data)`: every listener of the event, in order. */
    method Emit(event: string, data: EventData)
      modifies this`calls
      ensures calls == old(calls) + Emitted(listeners, event, data)
    {
      if listeners.None? || event !in listeners.value {
        return;
      }
      var ls := listeners.value[event];
      var k := 0;
      while k < |ls|
        invariant 0 <= k <= |ls|
        invariant calls == old(calls) + CallsOf(ls[..k], event, data)
      {
        CallsOfSnoc(ls, k, event, data);
        calls := calls + [Call(ls[k], event, data)];
        k := k + 1;
      }
      assert ls[..k] == ls;
    }

    /** `addEntity(entity)`: returns the entity as stored, with its id. */
    method AddEntity(b: Body, newId: string) returns (r: Body)
      requires Valid()
      modifies this`entities
      ensures Valid() && r == WithId(b, newId)
      ensures entities == WithEntity(old(entities), b, newId)
      ensures GetEntity(CoreOf(r).id.value) == Some(r)
    {
      r := b;
      if !Truthy(CoreOf(b).id) {
        r := WithCore(b, CoreOf(b).(id := Some(newId)));
      }
      WithEntityFinds(entities, b, newId);
      entities := SetEntry(entities, CoreOf(r).id.value, r);
    }

    /** `removeEntity(id)`: the destroyed entity, or none if the id is not registered. */
    method RemoveEntity(key: string) returns (r: Option<Body>)
      requires Valid()
      modifies this`entities
      ensures Valid() && (entities, r) == WithoutEntity(old(entities), key)
    {
      var found := GetEntry(entities, key);
      r := None;
      if found.Some? {
        r := Some(DestroyBody(found.value));
        DeleteKeepsKeysDistinct(entities, key);
        entities := DeleteEntry(entities, key);
      }
    }

    /** `getEntity(id)`. */
    function GetEntity(key: string): (r: Option<Body>)
      reads this`entities
      ensures r.Some? <==> HasKey(entities, key)
      ensures r.Some? ==> Entry(key, r.value) in entities
    {
      GetEntry(entities, key)
    }

    /** `getEntitiesByType(type)`: exactly the registered entities of that type, in insertion order. */
    function GetEntitiesByType(t: string): (r: seq<Body>)
      reads this`entities
      ensures |r| <= |entities|
      ensures forall b {:trigger b in r} :: b in r <==> TypeOf(b) == t && exists e :: e in entities && e.body == b
    {
      var bodies := BodiesOf(entities);
      assert forall b {:trigger b in bodies} :: b in bodies <==> exists e :: e in entities && e.body == b by {
        forall b ensures b in bodies <==> exists e :: e in entities && e.body == b {
          if b in bodies {
            var i :| 0 <= i < |bodies| && bodies[i] == b;
            assert entities[i] in entities;
          }
          if exists e :: e in entities && e.body == b {
            var e :| e in entities && e.body == b;
            var i :| 0 <= i < |entities| && entities[i] == e;
            assert bodies[i] == b;
          }
        }
      }
      OfType(bodies, t)
    }

    /** `hasEntities()`: some entity is registered, so some type has a non-empty `GetEntitiesByType`. */
    predicate HasEntities()
      reads this`entities
      ensures HasEntities() <==> exists e :: e in entities
      ensures !HasEntities() ==> GetEntitiesByType("ball") == [] && GetEntitiesByType("brick") == []
    {
      if entities == [] then
        assert GetEntitiesByType("ball") == [] by { assert BodiesOf(entities) == []; }
        assert GetEntitiesByType("brick") == [] by { assert BodiesOf(entities) == []; }
        false
      else
        assert entities[0] in entities;
        true
    }

    /**
     * `clearEntities()`: the registry is emptied. The source first calls `destroy()` on
     * each entity; nothing in this model holds an entity outside the registry, so that
     * flag could not be observed and the calls are left out.
     */
    method ClearEntities()
      requires Valid()
      modifies this`entities
      ensures Valid() && entities == []
    {
      entities := [];
    }

    /**
     * `setState(newState)`. The result is true when the entry action threw,
     * which entering `menu` always does.
     */
    method SetState(newState: string, gen: nat -> string) returns (thrown: bool)
      requires Valid()
      modifies this`state, this`calls, this`entities
      ensures Valid()
      ensures (Snap(), thrown) == Transition(old(Snap()), newState, canvasWidth, canvasHeight, gen)
    {
      var prior := state;
      state := newState;
      Emit("stateChange", StateChange(prior, newState));
      thrown := false;
      if newState == "menu" {
        ClearEntities();
        thrown := true;
      } else if newState == "playing" {
        if !HasEntities() {
          InitializeGameEntities(gen);
        }
      } else if newState == "paused" {
        Emit("pause", NoData);
      } else if newState == "gameover" {
        Emit("gameOver", NoData);
      } else if newState == "stageclear" {
        Emit("stageClear", NoData);
      } else if newState == "roundclear" {
        Emit("roundClear", NoData);
      }
    }

    /** `initializeGameEntities()`: the paddle, the attached ball, then a 3×5 grid of bricks. */
    method InitializeGameEntities(gen: nat -> string)
      requires Valid()
      modifies this`entities
      ensures Valid() && entities == WithEntities(old(entities), InitialBodies(canvasWidth, canvasHeight), gen, 0)
    {
      ghost var es0 := entities;
      var paddle := PaddleBody(NewPaddle(canvasWidth / 2.0 - 40.0, canvasHeight - 30.0, 80.0, 12.0));
      var _ := AddEntity(paddle, gen(0));
      var ball := BallBody(NewBall(canvasWidth / 2.0, canvasHeight - 50.0, 7.0, 0.0, 0.0, 4.0).(attached := true));
      InitialBodiesSplit(canvasWidth, canvasHeight, paddle, ball);
      var _ := AddEntity(ball, gen(1));
      ghost var es2 := entities;
      CreateBricks(3, 5, gen, 2);
      InitialEntities(es0, es2, entities, paddle, ball, canvasWidth, canvasHeight, gen);
    }

    /** `createBricks(rows, cols)`: row by row; the k-th brick draws id `gen(start + k)`. */
    method CreateBricks(rows: nat, cols: nat, gen: nat -> string, start: nat)
      requires Valid()
      modifies this`entities
      ensures Valid() && entities == WithEntities(old(entities), BrickGrid(canvasWidth, rows, cols), gen, start)
    {
      ghost var es0 := entities;
      var offsetX := (canvasWidth - cols as real * (BrickWidth + BrickPadding)) / 2.0;
      var n := start;
      var r := 0;
      while r < rows
        invariant 0 <= r <= rows && Valid()
        invariant n == start + |RowsUpTo(canvasWidth, cols, r)|
        invariant entities == WithEntities(es0, RowsUpTo(canvasWidth, cols, r), gen, start)
      {
        RowsStep(es0, canvasWidth, cols, r, gen, start);
        CreateRow(r, cols, offsetX, gen, n);
        n := n + cols;
        r := r + 1;
      }
      RowsUpToAll(canvasWidth, rows, cols);
    }

    /** The inner loop of `createBricks`: the `cols` bricks of row `r`. */
    method CreateRow(r: nat, cols: nat, offsetX: real, gen: nat -> string, start: nat)
      requires Valid() && offsetX == (canvasWidth - cols as real * (BrickWidth + BrickPadding)) / 2.0
      modifies this`entities
      ensures Valid() && entities == WithEntities(old(entities), BrickRow(canvasWidth, cols, r, 0), gen, start)
    {
      ghost var es0 := entities;
      ghost var row := BrickRow(canvasWidth, cols, r, 0);
      var c := 0;
      assert row[..0] == [];
      while c < cols
        invariant 0 <= c <= cols && Valid()
        invariant entities == WithEntities(es0, row[..c], gen, start)
      {
        var x := offsetX + c as real * (BrickWidth + BrickPadding);
        var y := BrickOffsetY + r as real * (BrickHeight + BrickPadding);
        var brick := BrickBody(NewBrick(x, y, BrickWidth, BrickHeight, BrickColors[r % |BrickColors|], "normal"));
        BrickRowAt(canvasWidth, cols, r, 0, c);
        assert brick == row[c];
        WithEntitiesSnoc(es0, row, c, gen, start);
        var _ := AddEntity(brick, gen(start + c));
        c := c + 1;
      }
      assert row[..c] == row;
    }

    /** The entity pass of `update`. */
    method UpdateEntities(dt: real, input: PaddleInput)
      requires Valid()
      modifies this`entities
      ensures Valid() && entities == UpdateFrom(old(entities), 0, dt, input, canvasWidth)
    {
      ghost var target := UpdateFrom(entities, 0, dt, input, canvasWidth);
      var i := 0;
      while i < |entities|
        invariant 0 <= i <= |entities|
        invariant SameKeys(old(entities), entities)
        invariant UpdateFrom(entities, i, dt, input, canvasWidth) == target
      {
        if !CoreOf(entities[i].body).destroyed {
          var paddle := FirstOfType(BodiesOf(entities), "paddle");
          entities := entities[i := Entry(entities[i].key, UpdateBody(entities[i].body, dt, paddle, input, canvasWidth))];
        }
        i := i + 1;
      }
      SameKeysDistinct(old(entities), entities);
    }

    /** `removeDestroyedEntities()`: collect the ids of destroyed entities, then remove each. */
    method RemoveDestroyedEntities()
      requires Valid()
      modifies this`entities
      ensures Valid() && entities == Survivors(old(entities))
    {
      ghost var es0 := entities;
      var toRemove: seq<string> := [];
      var i := 0;
      while i < |entities|
        invariant 0 <= i <= |entities| && entities == es0
        invariant toRemove == DestroyedKeys(es0[..i])
      {
        DestroyedKeysSnoc(es0, i);
        if CoreOf(entities[i].body).destroyed {
          toRemove := toRemove + [entities[i].key];
        }
        i := i + 1;
      }
      assert es0[..i] == es0;
      WithoutNoKeys(es0);
      ghost var gone: set<string> := {};
      var k := 0;
      while k < |toRemove|
        invariant 0 <= k <= |toRemove| && Valid()
        invariant forall x :: x in gone <==> x in toRemove[..k]
        invariant entities == WithoutKeys(es0, gone)
      {
        var _ := RemoveEntity(toRemove[k]);
        DeleteFromFiltered(es0, gone, toRemove[k]);
        Helpers.TakeSnoc(toRemove, k);
        gone := gone + {toRemove[k]};
        k := k + 1;
      }
      assert toRemove[..k] == toRemove;
      DestroyedKeysExact(es0);
      DroppingDestroyedKeys(es0, gone);
    }

    /** `detectCollisions()`: the collision system's records, each answered by `handleCollision`. */
    method DetectCollisions()
      requires Valid()
      modifies this`entities, this`combo, collision, collision.spatialHash
      ensures Valid() && collision.handlers == old(collision.handlers) && collision.enabled == old(collision.enabled)
      ensures (entities, combo, collision.checkedPairs) == Detect(old(entities), old(combo), old(CheckerOf()))
    {
      var pairs, w := collision.CheckCollisions(World(BodiesOf(entities), combo));
      ghost var target := RespondAll(pairs, w);
      var k := 0;
      while k < |pairs|
        invariant 0 <= k <= |pairs| && |w.bodies| == |entities|
        invariant RespondAll(pairs[k..], w) == target
      {
        assert pairs[k..][1..] == pairs[k + 1..];
        w := Respond(pairs[k], w);
        k := k + 1;
      }
      assert pairs[k..] == [];
      RebodySame(entities);
      entities := Rebody(entities, w.bodies);
      combo := w.combo;
      SameKeysDistinct(old(entities), entities);
    }

    /** `checkGameState()`. */
    method CheckGameState(gen: nat -> string)
      requires Valid()
      modifies this`state, this`calls, this`entities, this`lives
      ensures Valid() && Snap() == Judged(old(Snap()), canvasWidth, canvasHeight, gen)
    {
      ghost var s0 := Snap();
      var balls := GetEntitiesByType("ball");
      var bricks := GetEntitiesByType("brick");
      if |bricks| == 0 {
        assert Judge(s0.entities, s0.lives) == StageClear;
        var _ := SetState("stageclear", gen);
        assert Snap() == Judged(s0, canvasWidth, canvasHeight, gen);
        return;
      }
      if |balls| == 0 {
        if lives > 0 {
          assert Judge(s0.entities, s0.lives) == LoseLife;
          var paddles := GetEntitiesByType("paddle");
          if |paddles| > 0 {
            var p := CoreOf(paddles[0]);
            assert FirstOfType(BodiesOf(s0.entities), "paddle") == Some(p);
            var spare := NewBall(p.x + p.width / 2.0, p.y - 20.0, 7.0, 0.0, -4.0, 4.0).(attached := true);
            assert spare == SpareBall(p);
            var _ := AddEntity(BallBody(spare), gen(0));
          }
          lives := lives - 1;
          assert Snap() == s0.(entities := entities, lives := s0.lives - 1);
        } else {
          assert Judge(s0.entities, s0.lives) == GameOver;
          var _ := SetState("gameover", gen);
          assert Snap() == Judged(s0, canvasWidth, canvasHeight, gen);
        }
      } else {
        assert Judge(s0.entities, s0.lives) == Carry;
      }
    }

    /** `update(deltaTime)`: nothing unless playing. */
    method Update(dt: real, input: PaddleInput, gen: nat -> string)
      requires Valid()
      modifies this`state, this`calls, this`entities, this`lives, this`combo, collision, collision.spatialHash
      ensures Valid() && collision.handlers == old(collision.handlers) && collision.enabled == old(collision.enabled)
      ensures old(state) != "playing" ==> Snap() == old(Snap()) && CheckerOf() == old(CheckerOf())
      ensures old(state) == "playing" ==>
                (Snap(), collision.checkedPairs) == Frame(old(Snap()), old(CheckerOf()), dt, input, canvasWidth, canvasHeight, gen)
    {
      if state != "playing" {
        return;
      }
      UpdateEntities(dt, input);
      RemoveDestroyedEntities();
      DetectCollisions();
      CheckGameState(gen);
    }

    /**
     * One `gameLoop()` call at time `now`: the fps count, then `update`
     * with the clamped step, then `lastTime := now`. Drawing and the
     * scheduling of the next frame are outside the model.
     */
    method GameLoop(now: real, input: PaddleInput, gen: nat -> string)
      requires Valid()
      modifies this, collision, collision.spatialHash
      ensures Valid() && collision.handlers == old(collision.handlers) && collision.enabled == old(collision.enabled)
      ensures isRunning == old(isRunning)
      ensures !old(isRunning) ==> Snap() == old(Snap()) && CheckerOf() == old(CheckerOf())
                                  && lastTime == old(lastTime) && Meter() == old(Meter())
      ensures old(isRunning) ==> lastTime == now && Meter() == Count(old(Meter()), now)
      ensures old(isRunning) && old(state) != "playing" ==> Snap() == old(Snap()) && CheckerOf() == old(CheckerOf())
      ensures old(isRunning) && old(state) == "playing" ==>
                (Snap(), collision.checkedPairs)
                == Frame(old(Snap()), old(CheckerOf()), FixedStep(now - old(lastTime)), input, canvasWidth, canvasHeight, gen)
    {
      if !isRunning {
        return;
      }
      Advance(now, input, gen);
    }

    /** The body of a running `gameLoop()`: `update` with the clamped step, the fps count, then the clock.
        The fps count reads and writes only its own three fields and `update` never touches them,
        so taking it after `update` rather than before leaves every field as the source leaves it. */
    method Advance(now: real, input: PaddleInput, gen: nat -> string)
      requires Valid()
      modifies this`frameCount, this`lastFpsUpdate, this`actualFps, this`lastTime
      modifies this`state, this`calls, this`entities, this`lives, this`combo, collision, collision.spatialHash
      ensures Valid() && collision.handlers == old(collision.handlers) && collision.enabled == old(collision.enabled)
      ensures lastTime == now && Meter() == Count(old(Meter()), now)
      ensures old(state) != "playing" ==> Snap() == old(Snap()) && CheckerOf() == old(CheckerOf())
      ensures old(state) == "playing" ==>
                (Snap(), collision.checkedPairs)
                == Frame(old(Snap()), old(CheckerOf()), FixedStep(now - old(lastTime)), input, canvasWidth, canvasHeight, gen)
    {
      Update(FixedStep(now - lastTime), input, gen);
      Tally(now);
      lastTime := now;
    }

    /** The fps count of `gameLoop()`. */
    method Tally(now: real)
      requires Valid()
      modifies this`frameCount, this`lastFpsUpdate, this`actualFps
      ensures Valid() && Snap() == old(Snap()) && CheckerOf() == old(CheckerOf())
      ensures Meter() == Count(old(Meter()), now)
    {
      frameCount := frameCount + 1;
      if now - lastFpsUpdate >= 1000.0 {
        actualFps := Some(Round(frameCount as real * 1000.0 / (now - lastFpsUpdate)));
        frameCount := 0;
        lastFpsUpdate := now;
      }
    }

    /** `start()`: running, with the clock at `now`, and the first frame at once. */
    method Start(now: real, input: PaddleInput, gen: nat -> string)
      requires Valid()
      modifies this, collision, collision.spatialHash
      ensures Valid() && isRunning && lastTime == now && Meter() == Count(old(Meter()), now)
      ensures old(state) != "playing" ==> Snap() == old(Snap()) && CheckerOf() == old(CheckerOf())
      ensures old(state) == "playing" ==>
                (Snap(), collision.checkedPairs) == Frame(old(Snap()), old(CheckerOf()), 0.0, input, canvasWidth, canvasHeight, gen)
    {
      ghost var s0, c0 := Snap(), CheckerOf();
      isRunning := true;
      lastTime := now;
      assert Snap() == s0 && CheckerOf() == c0 && FixedStep(now - lastTime) == 0.0;
      GameLoop(now, input, gen);
    }

    /** `stop()`: later `gameLoop` calls do nothing. */
    method Stop()
      modifies this`isRunning
      ensures !isRunning
    {
      isRunning := false;
    }
  }
}
