/**
 * The narrow phase of the collision system: the geometric tests and the
 * classification of an ordered pair of entities into a collision record.
 * These are the pure members of the collision system; the object that
 * runs them over the registry is in the Collision module.
 */
module Contacts {
  import opened Options
  import opened Entities
  import opened Balls
  import opened Bricks
  import opened Bodies

  /** The canvas a wall is taken to bound when it carries none of its own. */
  const DefaultCanvasWidth: real := 800.0
  const DefaultCanvasHeight: real := 600.0
  /** How far the item's box is grown on every side for the pickup test. */
  const ItemReach: real := 10.0

  datatype Side = Left | Right | Top | Bottom

  /** A JavaScript number as far as the side rule needs: a real, or NaN. */
  datatype JsNumber = Finite(v: real) | NaN

  function JsAbs(n: JsNumber): JsNumber
  {
    match n
    case Finite(v) => Finite(Abs(v))
    case NaN => NaN
  }

  /** `a > b`, false whenever either side is NaN. */
  predicate JsGreater(a: JsNumber, b: JsNumber)
  {
    a.Finite? && b.Finite? && a.v > b.v
  }

  /** The decision rule that picks the side of a ball–brick contact from the centre offsets. */
  function SideRule(dx: JsNumber, dy: JsNumber): (s: Side)
  {
    if JsGreater(JsAbs(dx), JsAbs(dy)) then (if JsGreater(dx, Finite(0.0)) then Right else Left)
    else (if JsGreater(dy, Finite(0.0)) then Bottom else Top)
  }

  /**
   * On numbers, the rule gives left or right exactly when the horizontal
   * offset is strictly larger; a tie goes to top or bottom.
   */
  lemma SideRuleOnNumbers(dx: real, dy: real)
    ensures var s := SideRule(Finite(dx), Finite(dy));
            (s == Left || s == Right <==> Abs(dx) > Abs(dy))
            && (s == Right <==> Abs(dx) > Abs(dy) && dx > 0.0)
            && (s == Bottom <==> Abs(dx) <= Abs(dy) && dy > 0.0)
  {
  }

  /**
   * The caller reads `.x` and `.y` off the box's `centerX`, which is a
   * number, so both offsets are NaN and every ball–brick record says top.
   */
  function BallBrickSide(): (s: Side)
    ensures s == Top
  {
    SideRule(NaN, NaN)
  }

  /** A NaN vertical offset forces top, whatever the horizontal one is. */
  lemma NaNOffsetGivesTop(dx: JsNumber, dy: JsNumber)
    requires dy.NaN?
    ensures SideRule(dx, dy) == Top
  {
  }

  /** What a record carries besides the pair; `angle` is kept as the offset and half-width it is computed from. */
  datatype Kind =
    | BallPaddle(offset: real, halfWidth: real, hitX: real, hitY: real)
    | BallBrick(side: Side, distanceSq: real)
    | BallWall(side: Side)
    | BulletBrick
    | ItemPaddle
    | Aabb(penX: real, penY: real)

  /** A collision record: the two entities (by position in the registry), their ids, and the kind. */
  datatype Record = Record(e1: nat, e2: nat, id1: Option<string>, id2: Option<string>, kind: Kind)

  /** `collision.side`, which only ball–brick and ball–wall records have. */
  function SideOf(k: Kind): (r: Option<Side>)
    ensures r.Some? <==> k.BallBrick? || k.BallWall?
    ensures k.BallWall? ==> r == Some(k.side)
    ensures k.BallBrick? ==> r == Some(k.side)
  {
    match k
    case BallBrick(s, _) => Some(s)
    case BallWall(s) => Some(s)
    case _ => None
  }

  /** `aabbCollision`: the closed overlap test. */
  predicate AabbHit(a: Bounds, b: Bounds)
  {
    Overlap(a, b)
  }

  /** `aabbCollision` does not depend on the order, and touching boxes collide. */
  lemma AabbSymmetric(a: Bounds, b: Bounds)
    ensures AabbHit(a, b) == AabbHit(b, a)
    ensures a.right == b.left && a.top <= b.bottom && b.top <= a.bottom && a.left <= a.right && b.left <= b.right
            ==> AabbHit(a, b)
  {
  }

  /** The result of `circleRectCollision`: whether it hits, the closest point and the squared distance to it. */
  datatype CircleContact = CircleContact(collides: bool, closestX: real, closestY: real, distanceSq: real)

  /**
   * `circleRectCollision`: the circle is the ball's box, its radius half the
   * box's width; it hits when the closest point of the rectangle is strictly
   * nearer than the radius.
   */
  function CircleRect(circle: Bounds, rect: Bounds): (r: CircleContact)
    ensures r.closestX == ClampReal(circle.centerX, rect.left, rect.right)
    ensures r.closestY == ClampReal(circle.centerY, rect.top, rect.bottom)
    ensures r.distanceSq == Sq(circle.centerX - r.closestX) + Sq(circle.centerY - r.closestY)
    ensures r.collides <==> circle.centerX - circle.left > 0.0 && r.distanceSq < Sq(circle.centerX - circle.left)
  {
    var px := ClampReal(circle.centerX, rect.left, rect.right);
    var py := ClampReal(circle.centerY, rect.top, rect.bottom);
    var d := Sq(circle.centerX - px) + Sq(circle.centerY - py);
    CircleContact(CircleHitsBox(rect, circle.centerX, circle.centerY, circle.centerX - circle.left), px, py, d)
  }

  lemma SqBelow(a: real, r: real)
    requires r > 0.0 && Sq(a) < Sq(r)
    ensures -r < a < r
  {
    if a >= r {
      MulMono(a, r, a);
      MulMono(a, r, r);
    } else if a <= -r {
      MulMono(-a, r, -a);
      MulMono(-a, r, r);
    }
  }

  /**
   * A circle hit implies that the ball's square box overlaps the rectangle,
   * so the narrow test never reports a pair the box test would reject.
   */
  lemma CircleHitImpliesOverlap(circle: Bounds, rect: Bounds)
    requires 2.0 * circle.centerX == circle.left + circle.right && 2.0 * circle.centerY == circle.top + circle.bottom
    requires circle.right - circle.left == circle.bottom - circle.top
    requires rect.left <= rect.right && rect.top <= rect.bottom
    requires CircleRect(circle, rect).collides
    ensures AabbHit(circle, rect)
  {
    var c := CircleRect(circle, rect);
    var r := circle.centerX - circle.left;
    assert Sq(circle.centerX - c.closestX) < Sq(r);
    assert Sq(circle.centerY - c.closestY) < Sq(r);
    SqBelow(circle.centerX - c.closestX, r);
    SqBelow(circle.centerY - c.closestY, r);
  }

  /** `calculatePenetration`, without the magnitude: the overlap along each axis, or 0. */
  function Penetration(a: Bounds, b: Bounds): (p: (real, real))
    ensures p.0 >= 0.0 && p.1 >= 0.0
    ensures p.0 > 0.0 <==> b.left < a.right && a.left < b.right
    ensures p.1 > 0.0 <==> b.top < a.bottom && a.top < b.bottom
    ensures p.0 > 0.0 ==> p.0 <= a.right - b.left && p.0 <= b.right - a.left
  {
    var ox := if a.right - b.left < b.right - a.left then a.right - b.left else b.right - a.left;
    var oy := if a.bottom - b.top < b.bottom - a.top then a.bottom - b.top else b.bottom - a.top;
    (if ox > 0.0 then ox else 0.0, if oy > 0.0 then oy else 0.0)
  }

  /**
   * `checkBallPaddleCollision`: the ball (its x/y read as the centre) is on
   * the paddle's top band and between its edges. An entity of type 'ball'
   * that is not a ball has no radius, every comparison is false, and there
   * is no record.
   */
  function BallPaddleTest(ball: Body, paddle: Body): (r: Option<Kind>)
    ensures r.Some? ==> ball.BallBody? && r.value.BallPaddle? && OnPaddle(ball.ball, CoreOf(paddle))
    ensures ball.BallBody? && OnPaddle(ball.ball, CoreOf(paddle)) ==> r.Some?
  {
    match ball
    case BallBody(b) =>
      var pb := BodyBounds(paddle);
      if OnPaddle(b, CoreOf(paddle)) then
        Some(BallPaddle(b.core.x - pb.centerX, CoreOf(paddle).width / 2.0, b.core.x, pb.top))
      else None
    case _ => None
  }

  /** `checkBallBrickCollision`: the circle test on the two boxes; the side is always top. */
  function BallBrickTest(ball: Body, brick: Body): (r: Option<Kind>)
    ensures r.Some? <==> CircleRect(BodyBounds(ball), BodyBounds(brick)).collides
    ensures r.Some? ==> r.value == BallBrick(Top, CircleRect(BodyBounds(ball), BodyBounds(brick)).distanceSq)
  {
    var c := CircleRect(BodyBounds(ball), BodyBounds(brick));
    if c.collides then Some(BallBrick(BallBrickSide(), c.distanceSq)) else None
  }

  /** `checkBallWallCollision` against the default 800×600 canvas: left, then right, then top; never bottom. */
  function BallWallTest(ball: Body): (r: Option<Kind>)
    ensures r.Some? ==> r.value.BallWall? && r.value.side != Bottom
    ensures var b := BodyBounds(ball);
            (r == Some(BallWall(Left)) <==> b.left <= 0.0)
            && (r == Some(BallWall(Right)) <==> b.left > 0.0 && b.right >= DefaultCanvasWidth)
            && (r == Some(BallWall(Top)) <==> b.left > 0.0 && b.right < DefaultCanvasWidth && b.top <= 0.0)
  {
    var b := BodyBounds(ball);
    if b.left <= 0.0 then Some(BallWall(Left))
    else if b.right >= DefaultCanvasWidth then Some(BallWall(Right))
    else if b.top <= 0.0 then Some(BallWall(Top))
    else None
  }

  /** The item's box grown by `ItemReach` on every side. */
  function Expanded(b: Bounds): (e: Bounds)
    ensures e.left == b.left - ItemReach && e.right == b.right + ItemReach
    ensures e.top == b.top - ItemReach && e.bottom == b.bottom + ItemReach
  {
    b.(left := b.left - ItemReach, top := b.top - ItemReach, right := b.right + ItemReach, bottom := b.bottom + ItemReach)
  }

  /** An item picks up anything within `ItemReach` of its box, on both axes. */
  lemma ItemReachExact(item: Bounds, paddle: Bounds)
    ensures AabbHit(Expanded(item), paddle) <==>
              paddle.left <= item.right + ItemReach && item.left - ItemReach <= paddle.right
              && paddle.top <= item.bottom + ItemReach && item.top - ItemReach <= paddle.bottom
    ensures AabbHit(item, paddle) && item.left <= item.right && item.top <= item.bottom ==> AabbHit(Expanded(item), paddle)
  {
  }

  /** The generic fallback: an 'aabb' record with the penetration depths. */
  function AabbTest(a: Body, b: Body): (r: Option<Kind>)
    ensures r.Some? <==> AabbHit(BodyBounds(a), BodyBounds(b))
    ensures r.Some? ==> r.value.Aabb?
  {
    if AabbHit(BodyBounds(a), BodyBounds(b)) then
      var p := Penetration(BodyBounds(a), BodyBounds(b));
      Some(Aabb(p.0, p.1))
    else None
  }

  /**
   * `checkEntityCollision(entity1, entity2)`: the type of the first entity
   * picks the arm, the second must match it; an arm that matches returns
   * its own test's verdict, and a pair no arm matches gets the box test.
   */
  function Classify(a: Body, b: Body): (r: Option<Kind>)
    ensures r.Some? && r.value.BulletBrick? <==>
              TypeOf(a) == "bullet" && TypeOf(b) == "brick" && AabbHit(BodyBounds(a), BodyBounds(b))
    ensures r.Some? && r.value.ItemPaddle? <==>
              TypeOf(a) == "item" && TypeOf(b) == "paddle" && AabbHit(Expanded(BodyBounds(a)), BodyBounds(b))
    ensures !(TypeOf(a) == "ball" && TypeOf(b) in {"paddle", "brick", "wall"})
            && !(TypeOf(a) == "bullet" && TypeOf(b) == "brick") && !(TypeOf(a) == "item" && TypeOf(b) == "paddle") ==>
              (r.Some? <==> AabbHit(BodyBounds(a), BodyBounds(b))) && (r.Some? ==> r.value.Aabb?)
  {
    var t1, t2 := TypeOf(a), TypeOf(b);
    if t1 == "ball" && t2 == "paddle" then BallPaddleTest(a, b)
    else if t1 == "ball" && t2 == "brick" then BallBrickTest(a, b)
    else if t1 == "ball" && t2 == "wall" then BallWallTest(a)
    else if t1 == "bullet" && t2 == "brick" then (if AabbHit(BodyBounds(a), BodyBounds(b)) then Some(BulletBrick) else None)
    else if t1 == "item" && t2 == "paddle" then
      (if AabbHit(Expanded(BodyBounds(a)), BodyBounds(b)) then Some(ItemPaddle) else None)
    else AabbTest(a, b)
  }

  /** Which arm answers: a typed record appears only for its own ordered pair of types. */
  lemma ClassifyByTypes(a: Body, b: Body)
    ensures var r := Classify(a, b);
            (r.Some? && r.value.BallPaddle? ==> TypeOf(a) == "ball" && TypeOf(b) == "paddle")
            && (r.Some? && r.value.BallBrick? ==> TypeOf(a) == "ball" && TypeOf(b) == "brick")
            && (r.Some? && r.value.BallWall? ==> TypeOf(a) == "ball" && TypeOf(b) == "wall")
            && (r.Some? && r.value.BulletBrick? ==> TypeOf(a) == "bullet" && TypeOf(b) == "brick")
            && (r.Some? && r.value.ItemPaddle? ==> TypeOf(a) == "item" && TypeOf(b) == "paddle")
  {
  }

  /**
   * The classification depends on the order: with the brick first, a
   * ball–brick contact falls through to the box test and is never a
   * ball–brick record.
   */
  lemma ClassifyAsymmetric(ball: Body, brick: Body)
    requires TypeOf(ball) == "ball" && TypeOf(brick) == "brick"
    ensures Classify(ball, brick) == BallBrickTest(ball, brick)
    ensures Classify(brick, ball) == AabbTest(brick, ball)
    ensures Classify(brick, ball).Some? ==> Classify(brick, ball).value.Aabb?
  {
  }

  /** A brick as the game builds it has its kind as type, so the ball–brick arm never sees it. */
  lemma BricksAreNotTypedBrick(ball: Body, s: BrickState)
    requires TypeOf(ball) == "ball" && s.core.typeTag == "normal"
    ensures Classify(ball, BrickBody(s)) == AabbTest(ball, BrickBody(s))
  {
  }
}
