/**
 * The collision handlers the game registers with the collision system,
 * and the combo counter they drive. A handler receives a record and
 * changes the entities it names; here it maps a world (the entities in
 * registry order plus the page-wide combo counter) to a new world.
 */
module Handlers {
  import opened Options
  import opened Entities
  import opened Balls
  import opened Bricks
  import opened Bodies
  import opened Contacts

  datatype World = World(bodies: seq<Body>, combo: nat)

  /** The four handlers the game registers. */
  datatype Handler = BallPaddleHandler | BallBrickHandler | BallWallHandler | ItemPaddleHandler

  /** `increaseCombo`: one more. */
  function IncreaseCombo(combo: nat): (r: nat)
    ensures r == combo + 1
  {
    combo + 1
  }

  /** `resetGameCombo`. */
  function ResetCombo(combo: nat): (r: nat)
    ensures r == 0
  {
    0
  }

  /** What no handler changes about an entity: its id, type and box. */
  predicate SameFrame(a: Core, b: Core)
  {
    a.id == b.id && a.typeTag == b.typeTag && a.x == b.x && a.y == b.y && a.width == b.width && a.height == b.height
  }

  predicate SameFrames(a: seq<Body>, b: seq<Body>)
  {
    |a| == |b| && forall k :: 0 <= k < |a| ==> SameFrame(CoreOf(a[k]), CoreOf(b[k]))
  }

  lemma SameFramesTransitive(a: seq<Body>, b: seq<Body>, c: seq<Body>)
    requires SameFrames(a, b) && SameFrames(b, c)
    ensures SameFrames(a, c)
  {
  }

  /** `ball.dx = -ball.dx` on a ball; on anything else the assignment has no modelled effect. */
  function FlipDx(b: Body): (r: Body)
    ensures SameFrame(CoreOf(r), CoreOf(b)) && CoreOf(r) == CoreOf(b)
    ensures b.BallBody? ==> r == BallBody(b.ball.(dx := -b.ball.dx))
    ensures !b.BallBody? ==> r == b
  {
    if b.BallBody? then BallBody(b.ball.(dx := -b.ball.dx)) else b
  }

  /** `ball.dy = -ball.dy` on a ball. */
  function FlipDy(b: Body): (r: Body)
    ensures SameFrame(CoreOf(r), CoreOf(b)) && CoreOf(r) == CoreOf(b)
    ensures b.BallBody? ==> r == BallBody(b.ball.(dy := -b.ball.dy))
    ensures !b.BallBody? ==> r == b
  {
    if b.BallBody? then BallBody(b.ball.(dy := -b.ball.dy)) else b
  }

  /** The ball–paddle handler: a ball that has `handlePaddleCollision` bounces off the record's second entity. */
  function OnBallPaddle(rec: Record, w: World): (r: World)
    requires rec.e1 < |w.bodies| && rec.e2 < |w.bodies|
    ensures SameFrames(w.bodies, r.bodies) && r.combo == w.combo
    ensures w.bodies[rec.e1].BallBody? ==>
              r.bodies == w.bodies[rec.e1 := BallBody(PaddleBounce(w.bodies[rec.e1].ball, CoreOf(w.bodies[rec.e2])).1)]
    ensures !w.bodies[rec.e1].BallBody? ==> r == w
  {
    match w.bodies[rec.e1]
    case BallBody(b) => w.(bodies := w.bodies[rec.e1 := BallBody(PaddleBounce(b, CoreOf(w.bodies[rec.e2])).1)])
    case _ => w
  }

  /**
   * The ball–brick handler: a brick takes one point of damage; only if that
   * destroys it does the ball reflect (vertically for top/bottom,
   * horizontally for left/right) and the combo grow.
   */
  function OnBallBrick(rec: Record, w: World): (r: World)
    requires rec.e1 < |w.bodies| && rec.e2 < |w.bodies|
    ensures |r.bodies| == |w.bodies|
    ensures !w.bodies[rec.e2].BrickBody? ==> r == w
    ensures w.bodies[rec.e2].BrickBody? && !HitBrick(w.bodies[rec.e2].brick, 1).0 ==>
              r == w.(bodies := w.bodies[rec.e2 := BrickBody(HitBrick(w.bodies[rec.e2].brick, 1).1)])
    ensures w.bodies[rec.e2].BrickBody? && HitBrick(w.bodies[rec.e2].brick, 1).0 ==> r.combo == w.combo + 1
  {
    match w.bodies[rec.e2]
    case BrickBody(br) =>
      var (gone, hit) := HitBrick(br, 1);
      var bodies := w.bodies[rec.e2 := BrickBody(hit)];
      if gone then
        var ball := bodies[rec.e1];
        var bounced :=
          match SideOf(rec.kind)
          case Some(Top) => FlipDy(ball)
          case Some(Bottom) => FlipDy(ball)
          case Some(Left) => FlipDx(ball)
          case Some(Right) => FlipDx(ball)
          case None => ball;
        World(bodies[rec.e1 := bounced], IncreaseCombo(w.combo))
      else w.(bodies := bodies)
    case _ => w
  }

  /**
   * The ball–wall handler: left and right flip dx, top flips dy (bottom
   * flips nothing), and the combo is reset.
   */
  function OnBallWall(rec: Record, w: World): (r: World)
    requires rec.e1 < |w.bodies|
    ensures SameFrames(w.bodies, r.bodies) && r.combo == 0
    ensures SideOf(rec.kind) in {Some(Left), Some(Right)} ==> r.bodies == w.bodies[rec.e1 := FlipDx(w.bodies[rec.e1])]
    ensures SideOf(rec.kind) == Some(Top) ==> r.bodies == w.bodies[rec.e1 := FlipDy(w.bodies[rec.e1])]
    ensures SideOf(rec.kind) !in {Some(Left), Some(Right), Some(Top)} ==> r.bodies == w.bodies
  {
    var ball := w.bodies[rec.e1];
    var bounced :=
      match SideOf(rec.kind)
      case Some(Left) => FlipDx(ball)
      case Some(Right) => FlipDx(ball)
      case Some(Top) => FlipDy(ball)
      case _ => ball;
    World(w.bodies[rec.e1 := bounced], ResetCombo(w.combo))
  }

  /** Runs handler `h` on record `rec`; the item–paddle handler calls into the item, which is not part of this model. */
  function ApplyHandler(h: Handler, rec: Record, w: World): (r: World)
    ensures |r.bodies| == |w.bodies|
    ensures rec.e1 >= |w.bodies| || rec.e2 >= |w.bodies| ==> r == w
  {
    if rec.e1 >= |w.bodies| || rec.e2 >= |w.bodies| then w
    else
      match h
      case BallPaddleHandler => OnBallPaddle(rec, w)
      case BallBrickHandler => OnBallBrick(rec, w)
      case BallWallHandler => OnBallWall(rec, w)
      case ItemPaddleHandler => w
  }

  /** A brick that survives the hit leaves the ball and the combo alone. */
  lemma SurvivingBrickKeepsBall(rec: Record, w: World)
    requires rec.e1 < |w.bodies| && rec.e2 < |w.bodies| && rec.e1 != rec.e2
    requires w.bodies[rec.e2].BrickBody? && w.bodies[rec.e2].brick.hp > 1
    ensures OnBallBrick(rec, w).bodies[rec.e1] == w.bodies[rec.e1]
    ensures OnBallBrick(rec, w).combo == w.combo
  {
  }

  /** A one-hit brick on a ball–brick record (side top) flips the ball's dy and adds one to the combo. */
  lemma BreakingBrickReflects(rec: Record, w: World)
    requires rec.e1 < |w.bodies| && rec.e2 < |w.bodies| && rec.e1 != rec.e2
    requires rec.kind.BallBrick? && rec.kind.side == Top
    requires w.bodies[rec.e1].BallBody? && w.bodies[rec.e2].BrickBody? && w.bodies[rec.e2].brick.hp <= 1
    ensures var r := OnBallBrick(rec, w);
            r.bodies[rec.e1] == BallBody(w.bodies[rec.e1].ball.(dy := -w.bodies[rec.e1].ball.dy))
            && r.combo == w.combo + 1 && CoreOf(r.bodies[rec.e2]).destroyed
  {
  }

  /** No handler moves, renames or retypes an entity, so later geometric tests in the same pass see the same boxes. */
  lemma HandlersKeepFrames(h: Handler, rec: Record, w: World)
    ensures SameFrames(w.bodies, ApplyHandler(h, rec, w).bodies)
  {
    if rec.e1 < |w.bodies| && rec.e2 < |w.bodies| && h == BallBrickHandler && w.bodies[rec.e2].BrickBody? {
      var (gone, hit) := HitBrick(w.bodies[rec.e2].brick, 1);
      assert SameFrame(hit.core, w.bodies[rec.e2].brick.core);
    }
  }
}
