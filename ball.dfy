/**
 * The ball: a circle whose box is stored by its top-left corner, carried on
 * the paddle until launched, reflected by the side and top walls, with a
 * bounded trail and a timed piercing mode.
 *
 * The source keeps `x`/`y` as the box's top-left corner (the constructor
 * subtracts the radius) but the wall test and the paddle test read them as
 * the centre; the functions below do the same.
 */
module Balls {
  import opened Options
  import opened Entities

  const DefaultRadius: real := 7.0
  const MaxTrailLength: nat := 8
  const White: string := "#ffffff"
  const PiercingColor: string := "#ff00ff"

  /** One trail sample: where the ball was and its colour then. */
  datatype TrailPoint = TrailPoint(x: real, y: real, color: string)

  /** The ball's own state besides the component map. */
  datatype BallState = BallState(core: Core, radius: real, dx: real, dy: real, speed: real, attached: bool,
                                 color: string, trail: seq<TrailPoint>, piercing: bool, piercingTime: real)

  /** The state every operation keeps: a trail of at most eight points. */
  predicate BallInv(b: BallState)
  {
    |b.trail| <= MaxTrailLength
  }

  /** `new Ball(cx, cy, r, dx, dy, speed)`: a box of side 2r centred on (cx, cy), attached. */
  function NewBall(cx: real, cy: real, r: real, dx: real, dy: real, speed: real): (b: BallState)
    ensures BallInv(b) && b.trail == []
    ensures b.attached && !b.piercing && b.piercingTime == 0.0 && b.radius == r
    ensures CoreBounds(b.core).centerX == cx && CoreBounds(b.core).centerY == cy
    ensures b.core.width == 2.0 * r && b.core.height == 2.0 * r
    ensures b.core.typeTag == "ball" && b.core.id == None && !b.core.destroyed && b.core.active
    ensures b.dx == dx && b.dy == dy && b.speed == speed
  {
    BallState(NewCore(cx - r, cy - r, r * 2.0, r * 2.0, "ball"), r, dx, dy, speed, true, White, [], false, 0.0)
  }

  /**
   * `updateAttached`: sit on the first paddle of the registry, if any, with
   * `x + radius` on the paddle's centre line and `y` two radii above its top.
   */
  function FollowPaddle(b: BallState, paddle: Option<Core>): (r: BallState)
    ensures paddle.None? ==> r == b
    ensures paddle.Some? ==> r.core.x + r.radius == CoreBounds(paddle.value).centerX
                             && r.core.y + 2.0 * r.radius == paddle.value.y
    ensures r == b.(core := r.core) && r.core == b.core.(x := r.core.x, y := r.core.y)
  {
    match paddle
    case None => b
    case Some(p) => b.(core := b.core.(x := p.x + p.width / 2.0 - b.radius, y := p.y - b.radius * 2.0))
  }

  /** `updatePosition`: one step of `speed · dt · 60` along (dx, dy). */
  function Integrate(b: BallState, dt: real): (r: BallState)
    ensures r == b.(core := r.core) && r.core == b.core.(x := r.core.x, y := r.core.y)
    ensures r.core.x - b.core.x == b.dx * (b.speed * dt * 60.0)
    ensures r.core.y - b.core.y == b.dy * (b.speed * dt * 60.0)
  {
    var step := b.speed * dt * 60.0;
    b.(core := b.core.(x := b.core.x + b.dx * step, y := b.core.y + b.dy * step))
  }

  /** `Math.abs`. */
  function Abs(v: real): (r: real)
    ensures r >= 0.0 && (r == v || r == -v)
  {
    if v < 0.0 then -v else v
  }

  lemma AbsProduct(a: real, b: real)
    ensures Abs(a * b) == Abs(a) * Abs(b)
  {
    if a < 0.0 && b < 0.0 {
      assert a * b == (-a) * (-b);
    } else if a < 0.0 {
      assert -(a * b) == (-a) * b;
    } else if b < 0.0 {
      assert -(a * b) == a * (-b);
    }
  }

  lemma MulMono(a: real, b: real, h: real)
    requires h > 0.0 && a > b
    ensures a * h > b * h
  {
    assert (a - b) * h > 0.0;
  }

  /** An offset within half a width gives a ratio in [-1, 1], and scaling by it never grows a magnitude. */
  lemma RatioBound(d: real, half: real, v: real)
    requires half > 0.0 && -half <= d <= half
    ensures -1.0 <= d / half <= 1.0
    ensures Abs(d / half * v) <= Abs(v)
  {
    var q := d / half;
    assert q * half == d;
    if q > 1.0 {
      MulMono(q, 1.0, half);
      assert false;
    }
    if q < -1.0 {
      MulMono(-1.0, q, half);
      assert false;
    }
    AbsProduct(q, v);
    assert (1.0 - Abs(q)) * Abs(v) >= 0.0;
  }

  /** Scaling by the ratio `d / half` and multiplying back by `half` gives `d` times the scale. */
  lemma RatioScaled(d: real, half: real, v: real)
    requires half != 0.0
    ensures d / half * v * half == d * v
    ensures half > 0.0 && -half <= d <= half ==> Abs(d / half * v) <= Abs(v)
  {
    var q := d / half;
    assert q * half == d;
    assert q * v * half == (q * half) * v;
    if half > 0.0 && -half <= d <= half {
      RatioBound(d, half, v);
    }
  }

  /**
   * The new `dx` of a paddle bounce: `speed` times the hit point's offset from
   * the paddle's centre over half its width (0 for a paddle of no width).
   */
  function BounceDx(x: real, centerX: real, half: real, speed: real): (dx: real)
    ensures half > 0.0 && -half <= x - centerX <= half ==>
              Abs(dx) <= Abs(speed) && dx * half == (x - centerX) * speed
    ensures x == centerX ==> dx == 0.0
  {
    if half != 0.0 then
      RatioScaled(x - centerX, half, speed);
      (x - centerX) / half * speed
    else 0.0
  }

  /**
   * `checkWallCollisions`: the left wall is checked before the right one, and
   * the top independently; there is no bottom wall.
   */
  function WallBounce(b: BallState, canvasWidth: real): (r: BallState)
    ensures r.radius == b.radius && r.speed == b.speed && r.trail == b.trail && r.attached == b.attached
    ensures r.core == b.core.(x := r.core.x, y := r.core.y)
    ensures canvasWidth >= 2.0 * b.radius ==> b.radius <= r.core.x <= canvasWidth - b.radius
    ensures r.core.y >= b.radius
    ensures b.core.x <= b.radius ==> r.dx >= 0.0 && Abs(r.dx) == Abs(b.dx)
    ensures b.radius < b.core.x && b.core.x >= canvasWidth - b.radius ==> r.dx <= 0.0 && Abs(r.dx) == Abs(b.dx)
    ensures b.radius < b.core.x < canvasWidth - b.radius ==> r.dx == b.dx && r.core.x == b.core.x
    ensures b.core.y <= b.radius ==> r.dy >= 0.0 && Abs(r.dy) == Abs(b.dy)
    ensures b.core.y > b.radius ==> r.dy == b.dy && r.core.y == b.core.y
  {
    var afterX :=
      if b.core.x <= b.radius then b.(core := b.core.(x := b.radius), dx := Abs(b.dx))
      else if b.core.x >= canvasWidth - b.radius then b.(core := b.core.(x := canvasWidth - b.radius), dx := -Abs(b.dx))
      else b;
    if afterX.core.y <= b.radius then afterX.(core := afterX.core.(y := b.radius), dy := Abs(b.dy))
    else afterX
  }

  /** `updateEffects`: the piercing timer runs down by `dt · 1000` ms and ends at radius 7. */
  function RunEffects(b: BallState, dt: real): (r: BallState)
    ensures !b.piercing ==> r == b
    ensures b.piercing ==> r.piercingTime == b.piercingTime - dt * 1000.0
    ensures b.piercing && r.piercingTime <= 0.0 ==> !r.piercing && r.radius == DefaultRadius
    ensures b.piercing && r.piercingTime > 0.0 ==> r.piercing && r.radius == b.radius
    ensures r == b.(piercing := r.piercing, piercingTime := r.piercingTime, radius := r.radius)
  {
    if !b.piercing then b
    else
      var left := b.piercingTime - dt * 1000.0;
      if left <= 0.0 then b.(piercingTime := left, piercing := false, radius := DefaultRadius)
      else b.(piercingTime := left)
  }

  /** `updateTrail`: a free ball appends its position and drops the oldest beyond eight; an attached one clears it. */
  function PushTrail(b: BallState): (r: BallState)
    ensures r == b.(trail := r.trail)
    ensures b.attached ==> r.trail == []
    ensures !b.attached ==> |r.trail| >= 1 && r.trail[|r.trail| - 1] == TrailPoint(b.core.x, b.core.y, b.color)
    ensures !b.attached && |b.trail| < MaxTrailLength ==> r.trail == b.trail + [TrailPoint(b.core.x, b.core.y, b.color)]
    ensures !b.attached && |b.trail| >= MaxTrailLength ==> r.trail == b.trail[1..] + [TrailPoint(b.core.x, b.core.y, b.color)]
    ensures BallInv(b) ==> BallInv(r)
  {
    if !b.attached then
      var pushed := b.trail + [TrailPoint(b.core.x, b.core.y, b.color)];
      if |pushed| > MaxTrailLength then b.(trail := pushed[1..]) else b.(trail := pushed)
    else b.(trail := [])
  }

  /**
   * `update`: nothing for an inactive ball; an attached ball only follows the
   * first paddle; a free ball moves, bounces off the walls, runs its effects
   * timer and records its trail.
   */
  function Tick(b: BallState, dt: real, firstPaddle: Option<Core>, canvasWidth: real): (r: BallState)
    ensures !b.core.active ==> r == b
    ensures b.core.active && b.attached ==> r == FollowPaddle(b, firstPaddle)
    ensures b.core.active && b.attached ==>
              r.dx == b.dx && r.dy == b.dy && r.trail == b.trail && r.piercingTime == b.piercingTime
    ensures b.core.active && !b.attached ==>
              !r.attached && |r.trail| >= 1 && r.trail[|r.trail| - 1].x == r.core.x && r.trail[|r.trail| - 1].y == r.core.y
              && r.core.y >= b.radius && r.speed == b.speed
    ensures BallInv(b) ==> BallInv(r)
  {
    if !b.core.active then b
    else if b.attached then FollowPaddle(b, firstPaddle)
    else PushTrail(RunEffects(WallBounce(Integrate(b, dt), canvasWidth), dt))
  }

  /**
   * The arguments of `launch`: none (a random angle within ±30°, given by its
   * sine and cosine), or a direction in which a missing component counts as 0
   * and `magnitude` is the square root `Math.sqrt` returns.
   */
  datatype Aim = RandomAngle(sin: real, cos: real) | Toward(dx: Option<real>, dy: Option<real>, magnitude: real)

  function OrZero(v: Option<real>): real
  {
    match v case Some(x) => x case None => 0.0
  }

  predicate ValidAim(a: Aim)
  {
    match a
    case RandomAngle(s, c) => s * s + c * c == 1.0 && c > 0.0 && 2.0 * Abs(s) <= 1.0
    case Toward(dx, dy, m) =>
      (dx.Some? || dy.Some?) && m > 0.0 && m * m == OrZero(dx) * OrZero(dx) + OrZero(dy) * OrZero(dy)
  }

  /** `launch`: the ball leaves the paddle with velocity of magnitude `speed`. */
  function Launched(b: BallState, aim: Aim): (r: BallState)
    requires ValidAim(aim)
    ensures r == b.(attached := false, dx := r.dx, dy := r.dy)
  {
    match aim
    case RandomAngle(s, c) => b.(attached := false, dx := s * b.speed, dy := -c * b.speed)
    case Toward(dx, dy, m) =>
      b.(attached := false, dx := (OrZero(dx) / m) * b.speed, dy := (OrZero(dy) / m) * b.speed)
  }

  /** A launch without arguments leaves upwards, within ±30° of vertical, at `speed`. */
  lemma LaunchRandomVelocity(b: BallState, sin: real, cos: real)
    requires ValidAim(RandomAngle(sin, cos))
    ensures var r := Launched(b, RandomAngle(sin, cos));
            !r.attached && r.dx * r.dx + r.dy * r.dy == b.speed * b.speed
            && (b.speed > 0.0 ==> r.dy < 0.0 && 2.0 * Abs(r.dx) <= b.speed)
  {
    var r := Launched(b, RandomAngle(sin, cos));
    assert r.dx * r.dx + r.dy * r.dy == (sin * sin + cos * cos) * (b.speed * b.speed);
    if b.speed > 0.0 {
      AbsProduct(sin, b.speed);
      assert cos * b.speed > 0.0;
      assert (1.0 - 2.0 * Abs(sin)) * b.speed >= 0.0;
    }
  }

  /** A launch towards (dx, dy) moves at `speed` along that direction, not against it. */
  lemma LaunchTowardVelocity(b: BallState, dx: Option<real>, dy: Option<real>, m: real)
    requires ValidAim(Toward(dx, dy, m))
    ensures var r := Launched(b, Toward(dx, dy, m));
            !r.attached && r.dx * r.dx + r.dy * r.dy == b.speed * b.speed
            && r.dx * OrZero(dy) == r.dy * OrZero(dx)
            && (b.speed >= 0.0 ==> r.dx * OrZero(dx) >= 0.0 && r.dy * OrZero(dy) >= 0.0)
  {
    var r := Launched(b, Toward(dx, dy, m));
    var x, y, v := OrZero(dx), OrZero(dy), b.speed;
    var k := v / m;
    assert k * m == v;
    assert r.dx == x * k by { assert (x / m) * v == x * (v / m); }
    assert r.dy == y * k by { assert (y / m) * v == y * (v / m); }
    assert r.dx * r.dx + r.dy * r.dy == (x * x + y * y) * (k * k);
    assert (m * m) * (k * k) == (m * k) * (m * k);
    assert r.dx * y == r.dy * x;
    if v >= 0.0 {
      assert k >= 0.0;
      assert r.dx * x == (x * x) * k;
      assert r.dy * y == (y * y) * k;
    }
  }

  function Reversed(b: BallState): (r: BallState)
    ensures r.dy == -b.dy && r == b.(dy := r.dy)
  {
    b.(dy := -b.dy)
  }

  lemma ReverseTwiceIsIdentity(b: BallState)
    ensures Reversed(Reversed(b)) == b
  {
  }

  /** `setAngle`: given the angle's sine and cosine, the velocity keeps magnitude `speed`. */
  function WithAngle(b: BallState, sin: real, cos: real): (r: BallState)
    requires sin * sin + cos * cos == 1.0
    ensures r == b.(dx := r.dx, dy := r.dy)
    ensures r.dx * r.dx + r.dy * r.dy == b.speed * b.speed
  {
    assert (sin * b.speed) * (sin * b.speed) + (cos * b.speed) * (cos * b.speed) == (sin * sin + cos * cos) * (b.speed * b.speed);
    b.(dx := sin * b.speed, dy := cos * b.speed)
  }

  /** `setPiercing(duration = 5000, radius = 10)`. */
  function WithPiercing(b: BallState, duration: real, radius: real): (r: BallState)
    ensures r.piercing && r.piercingTime == duration && r.radius == radius && r.color == PiercingColor
    ensures r == b.(piercing := true, piercingTime := duration, radius := radius, color := PiercingColor)
  {
    b.(piercing := true, piercingTime := duration, radius := radius, color := PiercingColor)
  }

  /** A piercing ball whose whole duration elapses in one step loses piercing and gets radius 7. */
  lemma PiercingExpires(b: BallState, duration: real, radius: real, dt: real)
    requires dt * 1000.0 >= duration
    ensures var r := RunEffects(WithPiercing(b, duration, radius), dt);
            !r.piercing && r.radius == DefaultRadius && r.piercingTime <= 0.0
  {
  }

  /** Whether the ball (its x/y read as the centre) is on the paddle's top band. */
  predicate OnPaddle(b: BallState, paddle: Core)
  {
    var pb := CoreBounds(paddle);
    b.core.y + b.radius >= pb.top && b.core.y - b.radius <= pb.top + paddle.height
    && b.core.x >= pb.left && b.core.x <= pb.right
  }

  /**
   * `handlePaddleCollision`: `None` (undefined) when attached; otherwise whether
   * the ball was on the paddle, and on a hit the bounce: dx from the offset of
   * the hit point to the paddle's centre, dy upwards, trail cleared.
   */
  function PaddleBounce(b: BallState, paddle: Core): (r: (Option<bool>, BallState))
    ensures b.attached ==> r == (None, b)
    ensures !b.attached ==> r.0 == Some(OnPaddle(b, paddle))
    ensures !b.attached && !OnPaddle(b, paddle) ==> r.1 == b
    ensures !b.attached && OnPaddle(b, paddle) ==>
              r.1 == b.(dx := r.1.dx, dy := r.1.dy, trail := []) && r.1.dy == -Abs(b.dy)
    ensures !b.attached && OnPaddle(b, paddle) && paddle.width > 0.0 ==>
              Abs(r.1.dx) <= Abs(b.speed)
              && (b.core.x == CoreBounds(paddle).centerX ==> r.1.dx == 0.0)
              && r.1.dx * (paddle.width / 2.0) == (b.core.x - CoreBounds(paddle).centerX) * b.speed
  {
    if b.attached then (None, b)
    else if OnPaddle(b, paddle) then
      var pb := CoreBounds(paddle);
      (Some(true), b.(dx := BounceDx(b.core.x, pb.centerX, paddle.width / 2.0, b.speed), dy := -Abs(b.dy), trail := []))
    else (Some(false), b)
  }

  /** `reset`: back on the paddle, still, not piercing, radius 7, white, no trail, live again. */
  function ResetBall(b: BallState): (r: BallState)
    ensures r.attached && r.dx == 0.0 && r.dy == 0.0 && !r.piercing && r.piercingTime == 0.0
    ensures r.radius == DefaultRadius && r.color == White && r.trail == []
    ensures r.core == ResetCore(b.core) && r.speed == b.speed
  {
    b.(core := ResetCore(b.core), attached := true, dx := 0.0, dy := 0.0, piercing := false, piercingTime := 0.0,
       radius := DefaultRadius, color := White, trail := [])
  }

  /**
   * `clone`: a new ball built from the centre `x + radius`, `y + radius`, with
   * the attachment, piercing and colour copied; the trail, id and flags start
   * fresh and the box side becomes twice the radius.
   */
  function CloneBall(b: BallState): (r: BallState)
    ensures r.core.x == b.core.x && r.core.y == b.core.y
    ensures r.core.width == 2.0 * b.radius && r.core.height == 2.0 * b.radius
    ensures r.radius == b.radius && r.dx == b.dx && r.dy == b.dy && r.speed == b.speed
    ensures r.attached == b.attached && r.piercing == b.piercing && r.piercingTime == b.piercingTime && r.color == b.color
    ensures r.trail == [] && r.core.id == None && !r.core.destroyed && r.core.active && r.core.visible
  {
    var n := NewBall(b.core.x + b.radius, b.core.y + b.radius, b.radius, b.dx, b.dy, b.speed);
    n.(attached := b.attached, piercing := b.piercing, piercingTime := b.piercingTime, color := b.color)
  }

  /** A `Ball` object: the entity part (box, flags, components) and the ball's own fields. */
  class Ball {
    const base: Entity
    var radius: real
    var dx: real
    var dy: real
    var speed: real
    var attached: bool
    var color: string
    var trail: seq<TrailPoint>
    var piercing: bool
    var piercingTime: real

    ghost predicate Valid()
      reads this, base
    {
      base.Valid() && BallInv(State())
    }

    function State(): BallState
      reads this, base
    {
      BallState(base.State(), radius, dx, dy, speed, attached, color, trail, piercing, piercingTime)
    }

    constructor (cx: real, cy: real, r: real, dx0: real, dy0: real, speed0: real)
      ensures Valid() && fresh(base) && base.components == []
      ensures State() == NewBall(cx, cy, r, dx0, dy0, speed0)
    {
      base := new Entity(cx - r, cy - r, r * 2.0, r * 2.0, "ball");
      radius, dx, dy, speed := r, dx0, dy0, speed0;
      attached, color, trail := true, White, [];
      piercing, piercingTime := false, 0.0;
    }

    /** Writes a whole state back into the fields (the helper behind each step). */
    method Store(s: BallState)
      requires base.Valid()
      modifies this, base`id, base`typeTag, base`x, base`y, base`width, base`height, base`destroyed, base`active, base`visible
      ensures base.Valid() && State() == s
      ensures base.components == old(base.components) && base.hookLog == old(base.hookLog)
    {
      base.Assign(s.core);
      radius, dx, dy, speed, attached := s.radius, s.dx, s.dy, s.speed, s.attached;
      color, trail, piercing, piercingTime := s.color, s.trail, s.piercing, s.piercingTime;
    }

    method UpdateAttached(firstPaddle: Option<Core>)
      requires Valid()
      modifies this, base`id, base`typeTag, base`x, base`y, base`width, base`height, base`destroyed, base`active, base`visible
      ensures Valid() && State() == FollowPaddle(old(State()), firstPaddle)
      ensures base.components == old(base.components)
    {
      Store(FollowPaddle(State(), firstPaddle));
    }

    method UpdatePosition(dt: real)
      requires Valid()
      modifies this, base`id, base`typeTag, base`x, base`y, base`width, base`height, base`destroyed, base`active, base`visible
      ensures Valid() && State() == Integrate(old(State()), dt)
      ensures base.components == old(base.components)
    {
      var step := speed * dt * 60.0;
      base.x := base.x + dx * step;
      base.y := base.y + dy * step;
    }

    method CheckWallCollisions(canvasWidth: real)
      requires Valid()
      modifies this, base`id, base`typeTag, base`x, base`y, base`width, base`height, base`destroyed, base`active, base`visible
      ensures Valid() && State() == WallBounce(old(State()), canvasWidth)
      ensures base.components == old(base.components)
    {
      if base.x <= radius {
        base.x := radius;
        dx := Abs(dx);
      } else if base.x >= canvasWidth - radius {
        base.x := canvasWidth - radius;
        dx := -Abs(dx);
      }
      if base.y <= radius {
        base.y := radius;
        dy := Abs(dy);
      }
    }

    method UpdateEffects(dt: real)
      requires Valid()
      modifies this
      ensures Valid() && State() == RunEffects(old(State()), dt)
    {
      if piercing {
        piercingTime := piercingTime - dt * 1000.0;
        if piercingTime <= 0.0 {
          piercing := false;
          radius := DefaultRadius;
        }
      }
    }

    method UpdateTrail()
      requires Valid()
      modifies this
      ensures Valid() && State() == PushTrail(old(State()))
    {
      if !attached {
        trail := trail + [TrailPoint(base.x, base.y, color)];
        if |trail| > MaxTrailLength {
          trail := trail[1..];
        }
      } else {
        trail := [];
      }
    }

    /** `update(deltaTime, engine)`; the engine supplies its first paddle and the canvas width. */
    method Update(dt: real, firstPaddle: Option<Core>, canvasWidth: real)
      requires Valid()
      modifies this, base`id, base`typeTag, base`x, base`y, base`width, base`height, base`destroyed, base`active, base`visible
      ensures Valid() && State() == Tick(old(State()), dt, firstPaddle, canvasWidth)
      ensures base.components == old(base.components)
    {
      if !base.active {
        return;
      }
      if attached {
        UpdateAttached(firstPaddle);
        return;
      }
      UpdatePosition(dt);
      CheckWallCollisions(canvasWidth);
      UpdateEffects(dt);
      UpdateTrail();
    }

    method Launch(aim: Aim)
      requires Valid() && ValidAim(aim)
      modifies this
      ensures Valid() && State() == Launched(old(State()), aim)
    {
      attached := false;
      match aim
      case RandomAngle(s, c) =>
        dx, dy := s * speed, -c * speed;
      case Toward(ax, ay, m) =>
        dx, dy := (OrZero(ax) / m) * speed, (OrZero(ay) / m) * speed;
    }

    method ReverseDirection()
      requires Valid()
      modifies this`dy
      ensures Valid() && State() == Reversed(old(State()))
    {
      dy := -dy;
    }

    method SetAngle(sin: real, cos: real)
      requires Valid() && sin * sin + cos * cos == 1.0
      modifies this`dx, this`dy
      ensures Valid() && State() == WithAngle(old(State()), sin, cos)
    {
      dx, dy := sin * speed, cos * speed;
    }

    method SetPiercing(duration: real, r: real)
      requires Valid()
      modifies this
      ensures Valid() && State() == WithPiercing(old(State()), duration, r)
    {
      piercing, piercingTime, radius, color := true, duration, r, PiercingColor;
    }

    method SetSpeed(s: real)
      requires Valid()
      modifies this`speed
      ensures Valid() && State() == old(State()).(speed := s)
    {
      speed := s;
    }

    method HandlePaddleCollision(paddle: Core) returns (hit: Option<bool>)
      requires Valid()
      modifies this
      ensures Valid() && (hit, State()) == PaddleBounce(old(State()), paddle)
    {
      if attached {
        return None;
      }
      var bounced := PaddleBounce(State(), paddle);
      hit := bounced.0;
      dx, dy, trail := bounced.1.dx, bounced.1.dy, bounced.1.trail;
    }

    method Reset()
      requires Valid()
      modifies this, base`destroyed, base`active, base`visible
      ensures Valid() && State() == ResetBall(old(State()))
    {
      base.Reset();
      attached, dx, dy, piercing, piercingTime := true, 0.0, 0.0, false, 0.0;
      radius, color, trail := DefaultRadius, White, [];
    }

    method Clone() returns (b: Ball)
      requires Valid()
      ensures fresh(b) && fresh(b.base) && b.Valid() && b.base.components == []
      ensures b.State() == CloneBall(State())
    {
      b := new Ball(base.x + radius, base.y + radius, radius, dx, dy, speed);
      b.attached, b.piercing, b.piercingTime, b.color := attached, piercing, piercingTime, color;
    }
  }
}
