/**
 * The paddle: it eases one fifth of the way toward a target x on every
 * tick, the target being moved by keys, buttons, touch or mouse; it is
 * kept inside the canvas, and power-ups widen it (for drawing only) or
 * speed it up until an explicit revert step undoes them.
 */
module Paddles {
  import opened Options
  import opened Entities

  const DefaultSpeed: real := 2.5
  const Cyan: string := "#00f0ff"
  const Yellow: string := "#ffff00"
  const Magenta: string := "#ff00ff"
  const Green: string := "#00ff00"
  const MaxSizeBonus: real := 40.0
  const BoostAmount: real := 1.5

  datatype PaddleState = PaddleState(core: Core, speed: real, targetX: real, color: string, glowColor: string,
                                     speedBonus: real, sizeBonus: real)

  /**
   * What the input system reports for one tick: the direction queries, the
   * x of the first touch when a touch is active and present, and the mouse.
   */
  datatype Controls = Controls(left: bool, right: bool, touchX: Option<real>, mousePressed: bool, mouseX: real)

  /**
   * Everything `handleInput` consults: the engine's input system (if any),
   * the on-screen buttons, and the player's speed level (0 without saved data).
   */
  datatype PaddleInput = PaddleInput(system: Option<Controls>, leftBtn: bool, rightBtn: bool, speedLevel: int)

  /** `new Paddle(x, y, w, h)`. */
  function NewPaddle(x: real, y: real, w: real, h: real): (p: PaddleState)
    ensures p.core == NewCore(x, y, w, h, "paddle")
    ensures p.speed == DefaultSpeed && p.targetX == x && p.color == Cyan && p.glowColor == Cyan
    ensures p.speedBonus == 0.0 && p.sizeBonus == 0.0
  {
    PaddleState(NewCore(x, y, w, h, "paddle"), DefaultSpeed, x, Cyan, Cyan, 0.0, 0.0)
  }

  /** How far one unit of direction moves the target: the speed with its bonus, plus 2 per speed level. */
  function Step(p: PaddleState, speedLevel: int): (d: real)
    ensures speedLevel >= 0 ==> d >= p.speed + p.speedBonus
    ensures speedLevel == 0 && p.speedBonus == 0.0 ==> d == p.speed
  {
    p.speed + p.speedBonus + 2.0 * speedLevel as real
  }

  /** The net direction of keys, touch and buttons, in the order `handleInput` combines them. */
  function Direction(p: PaddleState, c: Controls, leftBtn: bool, rightBtn: bool): (d: int)
    ensures -3 <= d <= 3
    ensures c.touchX.None? && !leftBtn && !rightBtn ==> d == (if c.right then 1 else 0) - (if c.left then 1 else 0)
  {
    var keys := (if c.right then 1 else 0) - (if c.left then 1 else 0);
    var afterTouch :=
      match c.touchX
      case Some(tx) => if tx - (p.core.x + p.core.width / 2.0) > 0.0 then 1 else -1
      case None => keys;
    afterTouch - (if leftBtn then 1 else 0) + (if rightBtn then 1 else 0)
  }

  /**
   * `handleInput`: touch, then mouse, place the target under the cursor;
   * a non-zero net direction then shifts it by `direction · step`.
   */
  function Steered(p: PaddleState, input: PaddleInput): (r: PaddleState)
    ensures r == p.(targetX := r.targetX)
    ensures input.system.None? ==> r == p
    ensures input.system.Some? ==>
              var c := input.system.value;
              var d := Direction(p, c, input.leftBtn, input.rightBtn);
              var placed := if c.mousePressed then c.mouseX - p.core.width / 2.0
                            else if c.touchX.Some? then c.touchX.value - p.core.width / 2.0
                            else p.targetX;
              r.targetX == placed + d as real * Step(p, input.speedLevel)
  {
    match input.system
    case None => p
    case Some(c) =>
      var touched := if c.touchX.Some? then p.(targetX := c.touchX.value - p.core.width / 2.0) else p;
      var moused := if c.mousePressed then touched.(targetX := c.mouseX - p.core.width / 2.0) else touched;
      var d := Direction(p, c, input.leftBtn, input.rightBtn);
      if d != 0 then moused.(targetX := moused.targetX + d as real * Step(p, input.speedLevel)) else moused
  }

  /** With only the left key held the target moves left by one step; with only the right key, right. */
  lemma KeysMoveTarget(p: PaddleState, left: bool, right: bool, mouseX: real, speedLevel: int)
    ensures var r := Steered(p, PaddleInput(Some(Controls(left, right, None, false, mouseX)), false, false, speedLevel));
            r.targetX == p.targetX + ((if right then 1.0 else 0.0) - (if left then 1.0 else 0.0)) * Step(p, speedLevel)
  {
  }

  /**
   * `constrainToCanvas`: a box past the left edge goes to x = 0, one past the
   * right edge to `W − width`; the target follows a clamped box.
   */
  function Constrained(p: PaddleState, canvasWidth: real): (r: PaddleState)
    ensures p.core.x < 0.0 ==> r == p.(core := p.core.(x := 0.0), targetX := 0.0)
    ensures p.core.x >= 0.0 && p.core.x + p.core.width > canvasWidth ==>
              r == p.(core := p.core.(x := canvasWidth - p.core.width), targetX := canvasWidth - p.core.width)
    ensures 0.0 <= p.core.x && p.core.x + p.core.width <= canvasWidth ==> r == p
    ensures p.core.width <= canvasWidth ==> 0.0 <= r.core.x && r.core.x + r.core.width <= canvasWidth
  {
    var b := CoreBounds(p.core);
    if b.left < 0.0 then p.(core := p.core.(x := 0.0), targetX := 0.0)
    else if b.right > canvasWidth then
      p.(core := p.core.(x := canvasWidth - p.core.width), targetX := canvasWidth - p.core.width)
    else p
  }

  /** Clamping is idempotent when the paddle fits the canvas. */
  lemma ConstrainIdempotent(p: PaddleState, canvasWidth: real)
    requires 0.0 <= p.core.width <= canvasWidth
    ensures Constrained(Constrained(p, canvasWidth), canvasWidth) == Constrained(p, canvasWidth)
  {
  }

  /** The easing step: x moves a fifth of the way to the target. */
  function Eased(p: PaddleState): (r: PaddleState)
    ensures r == p.(core := r.core) && r.core == p.core.(x := r.core.x)
    ensures r.targetX - r.core.x == 0.8 * (p.targetX - p.core.x)
  {
    p.(core := p.core.(x := p.core.x + (p.targetX - p.core.x) * 0.2))
  }

  /** `update`: an inactive paddle is untouched; otherwise read input, ease toward the target, clamp. */
  function PaddleTick(p: PaddleState, input: PaddleInput, canvasWidth: real): (r: PaddleState)
    ensures !p.core.active ==> r == p
    ensures p.core.active ==> r == Constrained(Eased(Steered(p, input)), canvasWidth)
  {
    if !p.core.active then p
    else Constrained(Eased(Steered(p, input)), canvasWidth)
  }

  /** The distance still to cover after `n` unclamped easing steps. */
  function Remaining(gap: real, n: nat): (r: real)
    ensures gap >= 0.0 ==> 0.0 <= r <= gap
    ensures gap <= 0.0 ==> gap <= r <= 0.0
    ensures n > 0 && gap > 0.0 ==> r < gap
    ensures n > 0 && gap < 0.0 ==> r > gap
  {
    if n == 0 then gap else 0.8 * Remaining(gap, n - 1)
  }

  /**
   * Without input and away from the edges, a tick shrinks the gap to the target by a fifth;
   * the target itself stays put.
   */
  lemma {:induction false} TickClosesGap(p: PaddleState, speedLevel: int, canvasWidth: real)
    requires p.core.active
    requires 0.0 <= p.core.x && p.core.x + p.core.width <= canvasWidth
    requires 0.0 <= p.targetX && p.targetX + p.core.width <= canvasWidth
    ensures var r := PaddleTick(p, PaddleInput(None, false, false, speedLevel), canvasWidth);
            r.targetX == p.targetX && r.targetX - r.core.x == Remaining(p.targetX - p.core.x, 1)
            && 0.0 <= r.core.x && r.core.x + r.core.width <= canvasWidth
  {
    var e := Eased(p);
    assert e.core.x == 0.8 * p.core.x + 0.2 * p.targetX;
    assert 0.0 <= e.core.x && e.core.x + e.core.width <= canvasWidth;
  }

  /** `widen`: ten more pixels of drawing width, never past 40; the box used for collisions is unchanged. */
  function Widened(p: PaddleState): (r: PaddleState)
    ensures r.sizeBonus <= MaxSizeBonus
    ensures p.sizeBonus <= 30.0 ==> r.sizeBonus == p.sizeBonus + 10.0
    ensures p.sizeBonus >= 30.0 ==> r.sizeBonus == MaxSizeBonus
    ensures r.glowColor == Yellow && r.core == p.core
    ensures r == p.(sizeBonus := r.sizeBonus, glowColor := Yellow)
  {
    p.(sizeBonus := if p.sizeBonus + 10.0 < MaxSizeBonus then p.sizeBonus + 10.0 else MaxSizeBonus, glowColor := Yellow)
  }

  /** `n` widenings in a row. */
  function WidenTimes(p: PaddleState, n: nat): (r: PaddleState)
    ensures r.core == p.core
    ensures n > 0 ==> r.sizeBonus <= MaxSizeBonus && r.glowColor == Yellow
    ensures p.sizeBonus <= MaxSizeBonus ==> p.sizeBonus <= r.sizeBonus <= MaxSizeBonus
    ensures r == p.(sizeBonus := r.sizeBonus, glowColor := r.glowColor)
  {
    if n == 0 then p else Widened(WidenTimes(p, n - 1))
  }

  /** From no bonus, `n` widenings give a bonus of min(40, 10·n); the collision box never changes. */
  lemma {:induction false} WidenSaturates(p: PaddleState, n: nat)
    requires p.sizeBonus == 0.0
    ensures WidenTimes(p, n).sizeBonus == if n >= 4 then MaxSizeBonus else 10.0 * n as real
    ensures CoreBounds(WidenTimes(p, n).core) == CoreBounds(p.core)
  {
    if n > 0 {
      WidenSaturates(p, n - 1);
    }
  }

  /** The widen timer's expiry: bonus 0 and the default glow. */
  function WidenReverted(p: PaddleState): (r: PaddleState)
    ensures r.sizeBonus == 0.0 && r.glowColor == Cyan
    ensures r == p.(sizeBonus := 0.0, glowColor := Cyan)
  {
    p.(sizeBonus := 0.0, glowColor := Cyan)
  }

  /** `boostSpeed(amount)`: the bonus is `speed · (amount − 1)`, and the paddle turns magenta. */
  function Boosted(p: PaddleState, amount: real): (r: PaddleState)
    ensures r.speedBonus == p.speed * (amount - 1.0) && r.color == Magenta
    ensures r == p.(speedBonus := r.speedBonus, color := Magenta)
    ensures amount == BoostAmount && p.speed >= 0.0 ==> Step(r, 0) == 1.5 * p.speed
  {
    p.(speedBonus := p.speed * (amount - 1.0), color := Magenta)
  }

  /** The boost timer's expiry: bonus 0 and the default colour. */
  function BoostReverted(p: PaddleState): (r: PaddleState)
    ensures r.speedBonus == 0.0 && r.color == Cyan
    ensures r == p.(speedBonus := 0.0, color := Cyan)
  {
    p.(speedBonus := 0.0, color := Cyan)
  }

  /** A boost followed by its expiry leaves a paddle that had no bonus and the default colour as it was. */
  lemma BoostThenExpire(p: PaddleState, amount: real)
    requires p.speedBonus == 0.0 && p.color == Cyan
    ensures BoostReverted(Boosted(p, amount)) == p
  {
  }

  /** `activate`: the entity becomes active and glows green. */
  function Activated(p: PaddleState): (r: PaddleState)
    ensures r.core == p.core.(active := true) && r.glowColor == Green
    ensures r == p.(core := r.core, glowColor := Green)
  {
    p.(core := p.core.(active := true), glowColor := Green)
  }

  /** The activation glow's expiry. */
  function ActivateReverted(p: PaddleState): (r: PaddleState)
    ensures r == p.(glowColor := Cyan)
  {
    p.(glowColor := Cyan)
  }

  /** `applyPowerUp`: 'widen' widens, 'speed' boosts by 1.5, anything else activates. */
  function PoweredUp(p: PaddleState, kind: string): (r: PaddleState)
    ensures kind == "widen" ==> r == Widened(p)
    ensures kind == "speed" ==> r.speedBonus == p.speed * 0.5 && r.color == Magenta
    ensures kind != "widen" && kind != "speed" ==> r.core.active && r.glowColor == Green
  {
    match kind
    case "widen" => Widened(p)
    case "speed" => Boosted(p, BoostAmount)
    case _ => Activated(p)
  }

  /** `reset`: the entity flags reset, no bonuses, default colours; speed and target stay. */
  function ResetPaddle(p: PaddleState): (r: PaddleState)
    ensures r.core == ResetCore(p.core)
    ensures r.speedBonus == 0.0 && r.sizeBonus == 0.0 && r.color == Cyan && r.glowColor == Cyan
    ensures r.speed == p.speed && r.targetX == p.targetX
  {
    p.(core := ResetCore(p.core), speedBonus := 0.0, sizeBonus := 0.0, color := Cyan, glowColor := Cyan)
  }

  /** Resetting a powered-up paddle removes every power-up. */
  lemma ResetClearsPowerUps(p: PaddleState, kind: string)
    ensures var r := ResetPaddle(PoweredUp(p, kind));
            r.speedBonus == 0.0 && r.sizeBonus == 0.0 && r.color == Cyan && r.glowColor == Cyan && r.core.active
  {
  }

  /** `clone`: a new paddle on the same box with speed, bonuses and colours copied; the target is the new x. */
  function ClonePaddle(p: PaddleState): (r: PaddleState)
    ensures r.core == NewCore(p.core.x, p.core.y, p.core.width, p.core.height, "paddle")
    ensures r.speed == p.speed && r.speedBonus == p.speedBonus && r.sizeBonus == p.sizeBonus
    ensures r.color == p.color && r.glowColor == p.glowColor && r.targetX == p.core.x
  {
    NewPaddle(p.core.x, p.core.y, p.core.width, p.core.height).(speed := p.speed, speedBonus := p.speedBonus,
      sizeBonus := p.sizeBonus, color := p.color, glowColor := p.glowColor)
  }

  /** A `Paddle` object: the entity part and the paddle's own fields. */
  class Paddle {
    const base: Entity
    var speed: real
    var targetX: real
    var color: string
    var glowColor: string
    var speedBonus: real
    var sizeBonus: real

    ghost predicate Valid()
      reads this, base
    {
      base.Valid()
    }

    function State(): PaddleState
      reads this, base
    {
      PaddleState(base.State(), speed, targetX, color, glowColor, speedBonus, sizeBonus)
    }

    constructor (x: real, y: real, w: real, h: real)
      ensures Valid() && fresh(base) && base.components == []
      ensures State() == NewPaddle(x, y, w, h)
    {
      base := new Entity(x, y, w, h, "paddle");
      speed := DefaultSpeed;
      targetX := x;
      color, glowColor := Cyan, Cyan;
      speedBonus, sizeBonus := 0.0, 0.0;
    }

    method Update(input: PaddleInput, canvasWidth: real)
      requires Valid()
      modifies this, base`x
      ensures Valid() && State() == PaddleTick(old(State()), input, canvasWidth)
    {
      if !base.active {
        return;
      }
      HandleInput(input);
      base.x := base.x + (targetX - base.x) * 0.2;
      ConstrainToCanvas(canvasWidth);
    }

    method HandleInput(input: PaddleInput)
      requires Valid()
      modifies this`targetX
      ensures Valid() && State() == Steered(old(State()), input)
    {
      if input.system.None? {
        return;
      }
      ghost var p := State();
      var c := input.system.value;
      var direction := 0;
      if c.left {
        direction := direction - 1;
      }
      if c.right {
        direction := direction + 1;
      }
      assert direction == (if c.right then 1 else 0) - (if c.left then 1 else 0);
      if c.touchX.Some? {
        var center := base.x + base.width / 2.0;
        direction := if c.touchX.value - center > 0.0 then 1 else -1;
        targetX := c.touchX.value - base.width / 2.0;
      }
      if c.mousePressed {
        targetX := c.mouseX - base.width / 2.0;
      }
      assert targetX == if c.mousePressed then c.mouseX - p.core.width / 2.0
                        else if c.touchX.Some? then c.touchX.value - p.core.width / 2.0
                        else p.targetX;
      if input.leftBtn {
        direction := direction - 1;
      }
      if input.rightBtn {
        direction := direction + 1;
      }
      assert direction == Direction(p, c, input.leftBtn, input.rightBtn);
      if direction != 0 {
        targetX := targetX + direction as real * (speed + speedBonus + 2.0 * input.speedLevel as real);
      }
      assert targetX == Steered(p, input).targetX;
      assert State() == p.(targetX := targetX);
    }

    method ConstrainToCanvas(canvasWidth: real)
      requires Valid()
      modifies this`targetX, base`x
      ensures Valid() && State() == Constrained(old(State()), canvasWidth)
    {
      var b := base.GetBounds();
      if b.left < 0.0 {
        base.x := 0.0;
        targetX := 0.0;
      } else if b.right > canvasWidth {
        base.x := canvasWidth - base.width;
        targetX := canvasWidth - base.width;
      }
    }

    method Widen()
      requires Valid()
      modifies this`sizeBonus, this`glowColor
      ensures Valid() && State() == Widened(old(State()))
    {
      sizeBonus := if sizeBonus + 10.0 < MaxSizeBonus then sizeBonus + 10.0 else MaxSizeBonus;
      glowColor := Yellow;
    }

    /** What the widen timer does when it fires. */
    method ExpireWiden()
      requires Valid()
      modifies this`sizeBonus, this`glowColor
      ensures Valid() && State() == WidenReverted(old(State()))
    {
      sizeBonus, glowColor := 0.0, Cyan;
    }

    method BoostSpeed(amount: real)
      requires Valid()
      modifies this`speedBonus, this`color
      ensures Valid() && State() == Boosted(old(State()), amount)
    {
      speedBonus := speed * (amount - 1.0);
      color := Magenta;
    }

    /** What the boost timer does when it fires. */
    method ExpireBoost()
      requires Valid()
      modifies this`speedBonus, this`color
      ensures Valid() && State() == BoostReverted(old(State()))
    {
      speedBonus, color := 0.0, Cyan;
    }

    method Activate()
      requires Valid()
      modifies this`glowColor, base`active
      ensures Valid() && State() == Activated(old(State()))
    {
      base.SetActive(true);
      glowColor := Green;
    }

    /** What the activation-glow timer does when it fires. */
    method ExpireActivate()
      requires Valid()
      modifies this`glowColor
      ensures Valid() && State() == ActivateReverted(old(State()))
    {
      glowColor := Cyan;
    }

    method ApplyPowerUp(kind: string)
      requires Valid()
      modifies this, base`active
      ensures Valid() && State() == PoweredUp(old(State()), kind)
    {
      if kind == "widen" {
        Widen();
      } else if kind == "speed" {
        BoostSpeed(BoostAmount);
      } else {
        Activate();
      }
    }

    method Reset()
      requires Valid()
      modifies this, base`destroyed, base`active, base`visible
      ensures Valid() && State() == ResetPaddle(old(State()))
    {
      base.Reset();
      speedBonus, sizeBonus := 0.0, 0.0;
      color, glowColor := Cyan, Cyan;
    }

    method Clone() returns (p: Paddle)
      requires Valid()
      ensures fresh(p) && fresh(p.base) && p.Valid() && p.State() == ClonePaddle(State())
    {
      p := new Paddle(base.x, base.y, base.width, base.height);
      p.speed, p.speedBonus, p.sizeBonus := speed, speedBonus, sizeBonus;
      p.color, p.glowColor := color, glowColor;
    }
  }
}
