/**
 * The physics system: a set of objects it integrates each frame
 * (velocity, friction, a speed cap, gravity and canvas reflection), and
 * pure helpers for momentum, elastic collisions and box overlap.
 *
 * `Math.sqrt` appears in the speed cap and in the collision normal; where
 * its value is needed it is an argument `m` with `m >= 0` and
 * `m * m` equal to the squared magnitude.
 */
module Physics {
  import opened Options
  import opened Entities
  import Balls

  const Gravity: real := 0.0
  const Friction: real := 0.98
  const Restitution: real := 1.0
  const MaxVelocity: real := 20.0

  datatype Velocity = Velocity(x: real, y: real)

  /**
   * An object the system moves: the entity fields it reads, an optional
   * velocity and mass, the per-object switches, and whether it has a
   * `getBounds` method.
   */
  datatype PhysBody = PhysBody(core: Core, velocity: Option<Velocity>, mass: Option<real>,
                               applyFriction: bool, applyMaxVelocity: bool, applyGravity: bool,
                               constrainToCanvas: bool, hasBounds: bool)

  datatype Canvas = Canvas(width: real, height: real)

  function SqMag(v: Velocity): real
  {
    v.x * v.x + v.y * v.y
  }

  /** `m` is what `Math.sqrt` returns for the squared magnitude of `v`. */
  predicate IsMagnitude(m: real, v: Velocity)
  {
    m >= 0.0 && m * m == SqMag(v)
  }

  function Scale(v: Velocity, k: real): Velocity
  {
    Velocity(v.x * k, v.y * k)
  }

  /** `a` points the same way as `b` (or one of them is zero). */
  predicate SameDirection(a: Velocity, b: Velocity)
  {
    a.x * b.y == a.y * b.x && a.x * b.x + a.y * b.y >= 0.0
  }

  lemma ScaleKeepsDirection(v: Velocity, k: real)
    requires k > 0.0
    ensures SameDirection(Scale(v, k), v)
  {
    assert v.x * k * v.x + v.y * k * v.y == k * SqMag(v);
    assert SqMag(v) >= 0.0;
  }

  /** The speed cap: a velocity faster than `MaxVelocity` is scaled down to it. */
  function Capped(v: Velocity, m: real): (r: Velocity)
    requires IsMagnitude(m, v)
    ensures SqMag(r) <= MaxVelocity * MaxVelocity
    ensures SameDirection(r, v)
    ensures SqMag(v) <= MaxVelocity * MaxVelocity ==> r == v
  {
    if m > MaxVelocity then
      var k := MaxVelocity / m;
      ScaleKeepsDirection(v, k);
      assert k * m == MaxVelocity;
      assert SqMag(Scale(v, k)) == k * k * SqMag(v);
      assert k * k * (m * m) == (k * m) * (k * m);
      Scale(v, k)
    else
      assert m * m <= MaxVelocity * MaxVelocity by {
        assert m * (MaxVelocity - m) >= 0.0;
        assert m * m <= m * MaxVelocity;
      }
      assert SqMag(v) <= MaxVelocity * MaxVelocity;
      v
  }

  /** The velocity after friction, the one the speed cap measures. */
  function AfterFriction(o: PhysBody, v: Velocity): Velocity
  {
    if o.applyFriction then Scale(v, Friction) else v
  }

  /** `m` is the magnitude the speed cap needs for `o`, if it needs one. */
  predicate RootFor(o: PhysBody, m: real)
  {
    o.velocity.Some? && o.applyMaxVelocity ==> IsMagnitude(m, AfterFriction(o, o.velocity.value))
  }

  // ------------------------------------------------------------ canvas edges

  /**
   * One axis of `constrainToCanvas`: below 0 the position is mirrored
   * (`-p + size/2`) and the velocity made non-negative; past the far edge
   * the position becomes `limit - size/2` and the velocity non-positive.
   */
  function Resolve(p: real, size: real, limit: real, v: Option<real>): (r: (real, Option<real>))
    ensures r.1.Some? <==> v.Some?
    ensures p < 0.0 ==> r.0 == -p + size / 2.0 && (v.Some? ==> r.1.value >= 0.0 && r.1.value == Balls.Abs(v.value))
    ensures !(p < 0.0) && p + size > limit ==>
              r.0 == limit - size / 2.0 && (v.Some? ==> r.1.value <= 0.0 && r.1.value == -Balls.Abs(v.value))
    ensures !(p < 0.0) && !(p + size > limit) ==> r == (p, v)
  {
    if p < 0.0 then
      (-p + size / 2.0, if v.Some? then Some(Balls.Abs(v.value) * Restitution) else None)
    else if p + size > limit then
      (limit - size / 2.0, if v.Some? then Some(-Balls.Abs(v.value) * Restitution) else None)
    else (p, v)
  }

  /** `constrainToCanvas`: an object without `getBounds` is left alone; otherwise both axes are resolved. */
  function ConstrainToCanvas(o: PhysBody, canvas: Canvas): (r: PhysBody)
    ensures r.core == o.core.(x := r.core.x, y := r.core.y)
    ensures r.velocity.Some? <==> o.velocity.Some?
    ensures !o.hasBounds ==> r == o
    ensures o.hasBounds && o.core.x < 0.0 && o.core.width >= 0.0 ==> r.core.x > 0.0
    ensures o.hasBounds && o.core.x < 0.0 && o.velocity.Some? ==> r.velocity.value.x >= 0.0
    ensures o.hasBounds && o.core.x >= 0.0 && o.core.x + o.core.width > canvas.width && o.velocity.Some? ==> r.velocity.value.x <= 0.0
    ensures o.hasBounds && o.core.y < 0.0 && o.velocity.Some? ==> r.velocity.value.y >= 0.0
    ensures o.hasBounds && o.core.y >= 0.0 && o.core.y + o.core.height > canvas.height && o.velocity.Some? ==> r.velocity.value.y <= 0.0
  {
    if !o.hasBounds then o
    else
      var vx := if o.velocity.Some? then Some(o.velocity.value.x) else None;
      var vy := if o.velocity.Some? then Some(o.velocity.value.y) else None;
      var (x, vx') := Resolve(o.core.x, o.core.width, canvas.width, vx);
      var (y, vy') := Resolve(o.core.y, o.core.height, canvas.height, vy);
      o.(core := o.core.(x := x, y := y),
         velocity := if o.velocity.Some? then Some(Velocity(vx'.value, vy'.value)) else None)
  }

  /** With restitution 1 a reflection keeps the speed along each axis. */
  lemma ReflectionKeepsSpeed(o: PhysBody, canvas: Canvas)
    requires o.velocity.Some?
    ensures Balls.Abs(ConstrainToCanvas(o, canvas).velocity.value.x) == Balls.Abs(o.velocity.value.x)
    ensures Balls.Abs(ConstrainToCanvas(o, canvas).velocity.value.y) == Balls.Abs(o.velocity.value.y)
  {
  }

  // ------------------------------------------------------------ one object

  /**
   * `updateObject`: without a velocity nothing happens; otherwise the
   * position advances by `v * dt * 60`, then friction, the speed cap and
   * gravity change the velocity in that order, and the canvas edges apply.
   */
  function UpdateObject(o: PhysBody, dt: real, canvas: Canvas, m: real): (r: PhysBody)
    requires RootFor(o, m)
    ensures o.velocity.None? ==> r == o
    ensures r.velocity.Some? <==> o.velocity.Some?
    ensures o.velocity.Some? && o.applyMaxVelocity && !o.applyGravity && !o.constrainToCanvas ==>
              SqMag(r.velocity.value) <= MaxVelocity * MaxVelocity
    ensures o.velocity.Some? && !o.constrainToCanvas ==>
              r.core.x == o.core.x + o.velocity.value.x * dt * 60.0 && r.core.y == o.core.y + o.velocity.value.y * dt * 60.0
    ensures o.velocity.Some? && o.applyFriction && !o.applyMaxVelocity && !o.constrainToCanvas ==>
              r.velocity.value.x == o.velocity.value.x * Friction
              && r.velocity.value.y == o.velocity.value.y * Friction + (if o.applyGravity then Gravity * dt * 60.0 else 0.0)
  {
    if o.velocity.None? then o
    else
      var v := o.velocity.value;
      var moved := o.core.(x := o.core.x + v.x * dt * 60.0, y := o.core.y + v.y * dt * 60.0);
      var v1 := AfterFriction(o, v);
      var v2 := if o.applyMaxVelocity then Capped(v1, m) else v1;
      var v3 := if o.applyGravity then v2.(y := v2.y + Gravity * dt * 60.0) else v2;
      var stepped := o.(core := moved, velocity := Some(v3));
      if o.constrainToCanvas then ConstrainToCanvas(stepped, canvas) else stepped
  }

  /** Gravity is zero in this game, so the cap holds even for objects that ask for gravity. */
  lemma CapHoldsWithGravity(o: PhysBody, dt: real, canvas: Canvas, m: real)
    requires RootFor(o, m) && o.velocity.Some? && o.applyMaxVelocity && !o.constrainToCanvas
    ensures SqMag(UpdateObject(o, dt, canvas, m).velocity.value) <= MaxVelocity * MaxVelocity
  {
  }

  // ------------------------------------------------------------ the object set

  /** `update`'s step size: at most one sixtieth of a second. */
  function FixedDelta(dt: real): (r: real)
    ensures r <= 1.0 / 60.0 && r <= dt && (r == dt || r == 1.0 / 60.0)
  {
    if dt < 1.0 / 60.0 then dt else 1.0 / 60.0
  }

  /** Every object live (active and not destroyed) is integrated; the others are left as they are. */
  function StepAll(objs: seq<PhysBody>, dt: real, canvas: Canvas, roots: seq<real>): (r: seq<PhysBody>)
    requires |roots| == |objs| && forall k :: 0 <= k < |objs| ==> RootFor(objs[k], roots[k])
    ensures |r| == |objs|
    ensures forall k :: 0 <= k < |objs| ==>
              r[k] == if objs[k].core.active && !objs[k].core.destroyed then UpdateObject(objs[k], dt, canvas, roots[k]) else objs[k]
  {
    if objs == [] then []
    else
      var head := if objs[0].core.active && !objs[0].core.destroyed then UpdateObject(objs[0], dt, canvas, roots[0]) else objs[0];
      [head] + StepAll(objs[1..], dt, canvas, roots[1..])
  }

  /** What `cleanupDestroyedObjects` keeps: the objects not destroyed, in order. */
  function Kept(objs: seq<PhysBody>): (r: seq<PhysBody>)
    ensures |r| <= |objs|
    ensures forall o :: o in r <==> o in objs && !o.core.destroyed
  {
    if objs == [] then []
    else if objs[0].core.destroyed then Kept(objs[1..])
    else [objs[0]] + Kept(objs[1..])
  }

  /** The cleanup over two parts is the cleanup of each part, in order, and one object stays exactly when it is
      not destroyed: so the kept objects keep the set's order and multiplicity. */
  lemma {:induction false} KeptAppend(a: seq<PhysBody>, b: seq<PhysBody>, x: PhysBody)
    ensures Kept(a + b) == Kept(a) + Kept(b)
    ensures Kept([x]) == if x.core.destroyed then [] else [x]
    decreases |a|
  {
    if a == [] {
      assert a + b == b;
    } else {
      assert (a + b)[0] == a[0] && (a + b)[1..] == a[1..] + b;
      KeptAppend(a[1..], b, x);
    }
  }

  /** `Set.delete`: `o` goes, the rest keep their order. */
  function Without(objs: seq<PhysBody>, o: PhysBody): (r: seq<PhysBody>)
    ensures forall p :: p in r <==> p in objs && p != o
    ensures |r| <= |objs|
  {
    if objs == [] then []
    else if objs[0] == o then Without(objs[1..], o)
    else [objs[0]] + Without(objs[1..], o)
  }

  /** Removing from two parts is removing from each part, in order, and one object stays exactly when it is not
      the one removed: so the others keep their order. */
  lemma {:induction false} WithoutAppend(a: seq<PhysBody>, b: seq<PhysBody>, o: PhysBody, x: PhysBody)
    ensures Without(a + b, o) == Without(a, o) + Without(b, o)
    ensures Without([x], o) == if x == o then [] else [x]
    decreases |a|
  {
    if a == [] {
      assert a + b == b;
    } else {
      assert (a + b)[0] == a[0] && (a + b)[1..] == a[1..] + b;
      WithoutAppend(a[1..], b, o, x);
    }
  }

  // ------------------------------------------------------------ pure helpers

  /** `calculateVelocity`: a missing velocity reads as zero. */
  function VelocityOf(o: PhysBody): (r: Velocity)
    ensures o.velocity.Some? ==> r == o.velocity.value
    ensures o.velocity.None? ==> r == Velocity(0.0, 0.0)
  {
    if o.velocity.Some? then o.velocity.value else Velocity(0.0, 0.0)
  }

  /** `object.mass || 1`: a missing or zero mass counts as 1. */
  function MassOf(o: PhysBody): (r: real)
    ensures r != 0.0
    ensures o.mass.Some? && o.mass.value != 0.0 ==> r == o.mass.value
  {
    if o.mass.Some? && o.mass.value != 0.0 then o.mass.value else 1.0
  }

  datatype Momentum = Momentum(total: Velocity, first: Velocity, second: Velocity)

  /** `calculateMomentum` without the magnitude: each object's momentum and their sum. */
  function CalculateMomentum(o1: PhysBody, o2: PhysBody): (r: Momentum)
    ensures r.first == Scale(VelocityOf(o1), MassOf(o1)) && r.second == Scale(VelocityOf(o2), MassOf(o2))
    ensures r.total == Velocity(r.first.x + r.second.x, r.first.y + r.second.y)
  {
    var v1, v2 := VelocityOf(o1), VelocityOf(o2);
    var m1, m2 := MassOf(o1), MassOf(o2);
    Momentum(Velocity(v1.x * m1 + v2.x * m2, v1.y * m1 + v2.y * m2), Velocity(v1.x * m1, v1.y * m1), Velocity(v2.x * m2, v2.y * m2))
  }

  /** The total does not depend on which object comes first. */
  lemma MomentumSymmetric(o1: PhysBody, o2: PhysBody)
    ensures CalculateMomentum(o1, o2).total == CalculateMomentum(o2, o1).total
    ensures CalculateMomentum(o1, o2).first == CalculateMomentum(o2, o1).second
  {
  }

  /**
   * `calculateElasticCollision`, given the centre distance `d`: the new
   * velocities, or `None` where the source divides by zero (coincident
   * centres, or masses summing to zero) and yields NaN.
   */
  function ElasticCollision(o1: PhysBody, o2: PhysBody, d: real): (r: Option<(Velocity, Velocity)>)
    requires IsMagnitude(d, Velocity(o2.core.x - o1.core.x, o2.core.y - o1.core.y))
    ensures r.None? <==> d == 0.0 || MassOf(o1) + MassOf(o2) == 0.0
  {
    var m1, m2 := MassOf(o1), MassOf(o2);
    if d == 0.0 || m1 + m2 == 0.0 then None
    else Some(Exchange(VelocityOf(o1), VelocityOf(o2), m1, m2, (o2.core.x - o1.core.x) / d, (o2.core.y - o1.core.y) / d))
  }

  /** The speed of `v` along the unit normal (nx, ny). */
  function NormalSpeed(v: Velocity, nx: real, ny: real): real
  {
    v.x * nx + v.y * ny
  }

  /** The one-dimensional elastic result for the body of mass `m1` with normal speed `a` meeting mass `m2` at speed `b`. */
  function Exchanged(m1: real, m2: real, a: real, b: real): real
    requires m1 + m2 != 0.0
  {
    ((m1 - m2) * a + 2.0 * m2 * b) / (m1 + m2)
  }

  /** Velocity component `p` after the normal speed changes from `a` to `a'`, projected on `n` and scaled by the restitution. */
  function Shifted(p: real, a': real, a: real, n: real): real
  {
    p + (a' * n - a * n) * Restitution
  }

  /** The velocity change along the normal (nx, ny), scaled by the restitution. */
  function Exchange(v1: Velocity, v2: Velocity, m1: real, m2: real, nx: real, ny: real): (Velocity, Velocity)
    requires m1 + m2 != 0.0
  {
    var v1n, v2n := NormalSpeed(v1, nx, ny), NormalSpeed(v2, nx, ny);
    var v1n', v2n' := Exchanged(m1, m2, v1n, v2n), Exchanged(m2, m1, v2n, v1n);
    (Velocity(Shifted(v1.x, v1n', v1n, nx), Shifted(v1.y, v1n', v1n, ny)),
     Velocity(Shifted(v2.x, v2n', v2n, nx), Shifted(v2.y, v2n', v2n, ny)))
  }

  /** The normal-speed exchange keeps the weighted sum: m1·a' + m2·b' == m1·a + m2·b. */
  lemma ExchangeConserves(m1: real, m2: real, a: real, b: real)
    requires m1 + m2 != 0.0
    ensures m1 * Exchanged(m1, m2, a, b) + m2 * Exchanged(m2, m1, b, a) == m1 * a + m2 * b
  {
    var s := m1 + m2;
    var a', b' := Exchanged(m1, m2, a, b), Exchanged(m2, m1, b, a);
    assert a' * s == (m1 - m2) * a + 2.0 * m2 * b;
    assert b' * s == (m2 - m1) * b + 2.0 * m1 * a;
    assert (m1 * a' + m2 * b') * s == m1 * ((m1 - m2) * a + 2.0 * m2 * b) + m2 * ((m2 - m1) * b + 2.0 * m1 * a);
    assert m1 * ((m1 - m2) * a + 2.0 * m2 * b) + m2 * ((m2 - m1) * b + 2.0 * m1 * a) == (m1 * a + m2 * b) * s;
  }

  /** A momentum-neutral change of normal speeds `a -> a'`, `b -> b'`, projected on an axis component `n`
      and scaled by the restitution, leaves the weighted sum of that component unchanged. */
  lemma NormalShift(m1: real, m2: real, a': real, b': real, a: real, b: real, n: real, p1: real, p2: real)
    requires m1 * a' + m2 * b' == m1 * a + m2 * b
    ensures m1 * Shifted(p1, a', a, n) + m2 * Shifted(p2, b', b, n) == m1 * p1 + m2 * p2
  {
    assert a' * n - a * n == (a' - a) * n;
    assert b' * n - b * n == (b' - b) * n;
    assert m1 * ((a' - a) * n) + m2 * ((b' - b) * n) == (m1 * (a' - a) + m2 * (b' - b)) * n;
  }

  /** The total momentum of two bodies of masses `m1`, `m2` is the same with velocities `w1`, `w2` as with `v1`, `v2`. */
  predicate MomentumKept(m1: real, m2: real, v1: Velocity, v2: Velocity, w1: Velocity, w2: Velocity)
  {
    m1 * w1.x + m2 * w2.x == m1 * v1.x + m2 * v2.x && m1 * w1.y + m2 * w2.y == m1 * v1.y + m2 * v2.y
  }

  /** Along one axis component `n`, the exchange of normal speeds `a`, `b` keeps the weighted sum of that component. */
  lemma AxisConserves(m1: real, m2: real, a: real, b: real, n: real, p1: real, p2: real)
    requires m1 + m2 != 0.0
    ensures m1 * Shifted(p1, Exchanged(m1, m2, a, b), a, n) + m2 * Shifted(p2, Exchanged(m2, m1, b, a), b, n) == m1 * p1 + m2 * p2
  {
    ExchangeConserves(m1, m2, a, b);
    NormalShift(m1, m2, Exchanged(m1, m2, a, b), Exchanged(m2, m1, b, a), a, b, n, p1, p2);
  }

  /** Momentum is kept by any pair of velocities obtained by shifting along the normal with exchanged normal speeds. */
  lemma ShiftedConserves(v1: Velocity, v2: Velocity, m1: real, m2: real, nx: real, ny: real, a: real, b: real, w1: Velocity, w2: Velocity)
    requires m1 + m2 != 0.0
    requires w1 == Velocity(Shifted(v1.x, Exchanged(m1, m2, a, b), a, nx), Shifted(v1.y, Exchanged(m1, m2, a, b), a, ny))
    requires w2 == Velocity(Shifted(v2.x, Exchanged(m2, m1, b, a), b, nx), Shifted(v2.y, Exchanged(m2, m1, b, a), b, ny))
    ensures MomentumKept(m1, m2, v1, v2, w1, w2)
  {
    AxisConserves(m1, m2, a, b, nx, v1.x, v2.x);
    AxisConserves(m1, m2, a, b, ny, v1.y, v2.y);
  }

  /** With restitution 1 the exchange conserves momentum, whatever the normal. */
  lemma ExchangeConservesMomentum(v1: Velocity, v2: Velocity, m1: real, m2: real, nx: real, ny: real, w1: Velocity, w2: Velocity)
    requires m1 + m2 != 0.0
    requires (w1, w2) == Exchange(v1, v2, m1, m2, nx, ny)
    ensures MomentumKept(m1, m2, v1, v2, w1, w2)
  {
    ShiftedConserves(v1, v2, m1, m2, nx, ny, NormalSpeed(v1, nx, ny), NormalSpeed(v2, nx, ny), w1, w2);
  }

  /** With restitution 1 the elastic collision conserves the total momentum. */
  lemma ElasticConservesMomentum(o1: PhysBody, o2: PhysBody, d: real)
    requires IsMagnitude(d, Velocity(o2.core.x - o1.core.x, o2.core.y - o1.core.y))
    requires ElasticCollision(o1, o2, d).Some?
    ensures MomentumKept(MassOf(o1), MassOf(o2), VelocityOf(o1), VelocityOf(o2),
                         ElasticCollision(o1, o2, d).value.0, ElasticCollision(o1, o2, d).value.1)
  {
    var w := ElasticCollision(o1, o2, d).value;
    ExchangeConservesMomentum(VelocityOf(o1), VelocityOf(o2), MassOf(o1), MassOf(o2),
                              (o2.core.x - o1.core.x) / d, (o2.core.y - o1.core.y) / d, w.0, w.1);
  }

  datatype RectHit = RectHit(collides: bool, x: real, y: real, width: real, height: real)

  function Max(a: real, b: real): real { if a < b then b else a }
  function Min(a: real, b: real): real { if a < b then a else b }

  /** `rectRectCollision`: the closed overlap test and the intersection rectangle. */
  function RectRect(b1: Bounds, b2: Bounds): (r: RectHit)
    ensures r.collides == Overlap(b1, b2)
    ensures b1.left <= b1.right && b1.top <= b1.bottom && b2.left <= b2.right && b2.top <= b2.bottom ==>
              (r.collides <==> r.width >= 0.0 && r.height >= 0.0)
    ensures r.x >= b1.left && r.x >= b2.left && r.y >= b1.top && r.y >= b2.top
  {
    RectHit(!(b1.right < b2.left || b1.left > b2.right || b1.bottom < b2.top || b1.top > b2.bottom),
            Max(b1.left, b2.left), Max(b1.top, b2.top),
            Min(b1.right, b2.right) - Max(b1.left, b2.left),
            Min(b1.bottom, b2.bottom) - Max(b1.top, b2.top))
  }

  // ------------------------------------------------------------ the object

  class PhysicsSystem {
    var objects: seq<PhysBody>

    constructor ()
      ensures objects == []
    {
      objects := [];
    }

    /** `addObject`: `Set.add`, so an object already present stays where it is. */
    method AddObject(o: PhysBody)
      modifies this
      ensures o in old(objects) ==> objects == old(objects)
      ensures o !in old(objects) ==> objects == old(objects) + [o]
    {
      if o !in objects {
        objects := objects + [o];
      }
    }

    method RemoveObject(o: PhysBody)
      modifies this
      ensures objects == Without(old(objects), o)
    {
      objects := Without(objects, o);
    }

    function GetObjectCount(): (n: nat)
      reads this
      ensures n == |objects|
    {
      |objects|
    }

    /** `cleanupDestroyedObjects`: collect the destroyed objects, then delete each. */
    method CleanupDestroyedObjects()
      modifies this
      ensures objects == Kept(old(objects))
    {
      var kept: seq<PhysBody> := [];
      var i := 0;
      while i < |objects|
        invariant 0 <= i <= |objects|
        invariant kept + Kept(objects[i..]) == Kept(objects)
      {
        assert objects[i..] == [objects[i]] + objects[i + 1..];
        if !objects[i].core.destroyed {
          kept := kept + [objects[i]];
        }
        i := i + 1;
      }
      assert objects[i..] == [];
      objects := kept;
    }

    /**
     * `update(deltaTime, engine)`: every live object is integrated with the
     * clamped step, then destroyed objects are removed.
     */
    method Update(dt: real, canvas: Canvas, roots: seq<real>)
      requires |roots| == |objects| && forall k :: 0 <= k < |objects| ==> RootFor(objects[k], roots[k])
      modifies this
      ensures objects == Kept(StepAll(old(objects), FixedDelta(dt), canvas, roots))
      ensures forall o :: o in objects ==> !o.core.destroyed
    {
      var fixedDelta := FixedDelta(dt);
      ghost var all := StepAll(objects, fixedDelta, canvas, roots);
      var stepped: seq<PhysBody> := [];
      var i := 0;
      while i < |objects|
        invariant 0 <= i <= |objects| && stepped == all[..i]
      {
        var o := objects[i];
        var next := if o.core.active && !o.core.destroyed then UpdateObject(o, fixedDelta, canvas, roots[i]) else o;
        stepped := stepped + [next];
        i := i + 1;
      }
      assert stepped == all;
      objects := stepped;
      CleanupDestroyedObjects();
    }

    /** `reset`: the set is emptied. */
    method Reset()
      modifies this
      ensures objects == []
    {
      objects := [];
    }
  }

  /** The engine never fills the set, so an update there does nothing. */
  lemma EmptySetStaysEmpty(dt: real, canvas: Canvas)
    ensures Kept(StepAll([], FixedDelta(dt), canvas, [])) == []
  {
  }
}
