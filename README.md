# Neon Breaker engine, modelled in Dafny

This project models the simulation core of Neon Breaker, a neon-styled
brick-breaker for the browser, together with the bookkeeping around it.
It covers:

- the base **entity**: a box with `destroyed` / `active` / `visible` flags and a
  name-to-component map;
- the three entity variants:
  - the **ball**: wall reflection, a bounded trail, the piercing timer, launch and the paddle bounce;
  - the **brick**: hit points and points from fixed tables, and one-time destruction with its reward;
  - the **paddle**: easing toward a target, clamping to the canvas, and power-ups with explicit revert steps;
- the **collision system**:
  - the spatial hash (broad phase);
  - the geometric tests and the classifier of an ordered pair (narrow phase);
  - the handler table, the set of checked pairs and the `checkCollisions` pass;
- the game's collision **handlers** and their combo counter;
- the **physics system**: integration, friction, speed cap, gravity, canvas reflection, momentum and elastic collisions;
- the **game engine**:
  - the registry of entities in insertion order;
  - `setState` with its entry actions and the event bus;
  - the frame order (entity updates, sweep, collision detection with the engine's own responses, win/loss check) and the game loop's delta clamp;
- the **progress store** `GameData`: clamped setters, duplicate-free owned lists, equipping, buffs, settings, validation and listeners, over an abstract key-value store;
- the page-level **gameplay** rules: the pause toggle, the combo timer, skill cooldowns and the stage/round rewards;
- the **input handler**: keys, touches, mouse, consume-once gestures and swipe classification;
- the **performance optimizer**: object pools, the bounded FPS history, the quality table, list caps, dirty regions and the automatic level switch;
- the **admin panel**'s operations on the stage table, the shop prices and the player's saved record;
- the static `Utils` helpers.

Code that updates objects in place is modelled as classes whose methods
update their fields. Each method is proved against a pure function of the
old state (`ensures State() == Tick(old(State()), ...)`), and the
properties of those functions are proved as lemmas. Pure code is modelled
as functions on datatypes.

Outside inputs are parameters:

- the clock (`now`, in milliseconds);
- random draws and angles;
- the ids the engine generates (a function `gen` of how many ids were drawn);
- square roots (an argument `m` with `m * m` equal to the squared magnitude);
- form fields (`Option<int>`, `None` for text that does not parse).

Numbers are exact reals and unbounded integers.

## Behaviour kept as written

The model follows the code where the code does something its authors
probably did not mean. A lemma names each case.

- A brick passes `'brick'` to the entity and then overwrites its type with
  its kind (js/entities/brick.js:4-8). The engine's search for type `brick`
  therefore finds none, and the opening `checkGameState` clears the stage
  at once. Lemmas: `Contacts.BricksAreNotTypedBrick`,
  `Engine.InitialLayoutHasNoBrickType`, `Engine.OpeningCheckClearsStage`.
- The ball–brick test reads `.x` / `.y` off a number, so both offsets are
  NaN and the side is always `top` (js/systems/collision.js:152-167). The
  side rule on numbers is modelled too (`Contacts.SideRuleOnNumbers`), and
  `Contacts.NaNOffsetGivesTop` shows what the caller gets.
- The set of checked pairs is cleared only by `reset`, never by
  `checkCollisions`: a pair is reported once ever.
- Classification depends on argument order: a (brick, ball) pair is a
  plain `aabb` record (`Contacts.ClassifyAsymmetric`).
- A ball stores the top-left corner of its box, but the wall test, the
  paddle bounce and the ball–paddle test read `x` / `y` as the centre.
- Collision responses run twice: once in the handlers during
  `checkCollisions`, and again in the engine's `handleCollision`
  (`Engine.WallResponseTwice`, `Engine.EngineOverridesPaddleBounce`).
- The engine calls `system.update(entities, dt, engine)` on each system
  (js/core/game-engine.js:276-280). The physics system's `update` takes
  `(deltaTime, engine)`, and nothing ever adds an object to its set, so its
  step does nothing (`Physics.EmptySetStaysEmpty`). The collision system
  has no `update` of its own. `Engine.Frame` therefore leaves the systems
  step out.
- The remaining lives are `player.maxLives`, read from `gameData` at
  each check and lowered through `updatePlayerData`. That path bypasses
  the [1, 10] clamp of `setMaxLives` (`Progress.UpdateBypassesLivesClamp`,
  `Engine.LastLifeBypassesClamp`). The engine model keeps its own copy of
  that number instead (see `Engine.GameEngine.CheckGameState` below).
- Entering `menu` calls `loadMenuEntities`, which the engine does not
  define, so that entry action throws after clearing the registry.
- The game loop passes the clamped frame time in milliseconds (at most
  1000/60). The entities treat it as seconds: the piercing and particle
  timers multiply it by 1000 and the physics step by 60.
- The default equipped slots are named `weapon` and `ball`, while owned
  items are listed under `weapons` and `balls`. `equipItem('weapon', …)`
  therefore always fails (`Progress.DefaultSlotNamesRefused`).
- A touch held for 500 ms or more still counts as a tap
  (`Input.LongPressStillTaps`).
- At the `balanced` level the scale is exactly 0.8, so antialiasing stays
  off.
- Returning a bullet to its pool resets only its position and speed
  (`Performance.BulletResetKeepsUpgrades`).
- `parseInt(v) || d` turns an entered 0 into the default
  (`Admin.ZeroInputsFallBack`).

Behaviour of the code that a reader may not expect:

- `hit` on a destroyed brick still lowers its hit points and returns
  `true`. Only the reward is not repeated.
- A brick's type tag is not the fixed `brick`.
- Pair de-duplication lasts until `reset`, not one tick.
- Paddle power-ups expire through timers. Here each timer is an explicit
  revert step (`ExpireWiden`, `ExpireBoost`, `ExpireActivate`).
- Movement happens in each entity's own update, not in the physics system.

## Model

| member | source | states |
|---|---|---|
| Entities.BoundsOf | js/core/entity.js:66-75 | the bounds start at the position and extend by the size; the centre is the midpoint of each side pair |
| Entities.OverlapSymmetricAndClosed | js/core/entity.js:78-86 | the box test is symmetric and is the closed-interval overlap on both axes, so boxes that only touch collide |
| Entities.OverlapSelf | js/core/entity.js:78-86 | a box collides with itself exactly when it is not inverted |
| Entities.ClampReal | js/utils/helpers.js:4-6 | the clamped value lies in [min, max], and a value already inside is returned unchanged |
| Entities.ClampIsNearest | js/core/entity.js:92-94 | clamping to the box edge gives the nearest coordinate of the box on that axis |
| Entities.CircleHitMeansNearPoint | js/core/entity.js:89-100 | if any point of the box lies strictly inside the circle, the circle test reports a hit (the clamped point is the nearest one) |
| Entities.CloneOf | js/core/entity.js:163-164 | a component's clone is a new copy of the same kind |
| Entities.FindName | js/core/entity.js:15 | the position of a key in the component map's insertion order, or -1 exactly when the key is absent |
| Entities.Lookup | js/core/entity.js:35-37 | `get` returns nothing exactly when the key is absent, and otherwise a component stored under that key |
| Entities.Put | js/core/entity.js:19-22 | `set` keeps an existing key in its place and appends a new key last; other entries are unchanged |
| Entities.Delete | js/core/entity.js:30 | `delete` removes exactly the entries with that key |
| Entities.DestroyHooks | js/core/entity.js:140-144 | destroy hooks run at most once per component, in insertion order |
| Entities.DestroyHooksAppend | js/core/entity.js:140-144 | the hook calls of a concatenation are those of each part, in order; one component yields exactly one call, its own, when it has a `destroy` hook and none otherwise — so every component with a hook is called once, in insertion order |
| Entities.DestroyHooksExactly | js/core/entity.js:140-144 | a component's destroy hook runs exactly when the component has a `destroy` method |
| Entities.CloneSlot | js/core/entity.js:162-168 | a cloned entry keeps its name, and holds the component's clone when it has `clone` and the same component otherwise |
| Entities.CloneSlots | js/core/entity.js:162-168 | the clone's map has one entry per original entry, in the same order |
| Entities.LookupAfterPut | js/core/entity.js:19-22 | after `set`, `get` finds the new component, other keys are unaffected, and keys stay distinct |
| Entities.LookupByMembership | js/core/entity.js:35-37 | with distinct keys, `get(name)` returns a component exactly when that entry is in the map |
| Entities.LookupAfterDelete | js/core/entity.js:25-32 | after removal the key is gone, other keys are unaffected, and keys stay distinct |
| Entities.DeleteKeepsDistinct | js/core/entity.js:30 | deleting a key never creates duplicate keys |
| Entities.NewCore | js/core/entity.js:3-16 | a new entity has no id, is neither destroyed nor inactive, is visible, and has the given box and type |
| Entities.DestroyCore | js/core/entity.js:135-137 | `destroy` marks the entity destroyed and inactive and changes nothing else |
| Entities.ResetCore | js/core/entity.js:150-155 | `reset` makes the entity live, active and visible and changes nothing else |
| Entities.ResetAfterDestroy | js/core/entity.js:135-155 | `reset` undoes `destroy` on an entity that was live, active and visible |
| Entities.Entity.State | js/core/entity.js:3-12 | the entity's own fields, read as one value |
| Entities.Entity.constructor | js/core/entity.js:3-16 | the new entity has the constructor's state and an empty component map |
| Entities.Entity.AddComponent | js/core/entity.js:19-22 | the map becomes `Put` of the old map, and `getComponent(name)` returns the new component |
| Entities.Entity.RemoveComponent | js/core/entity.js:25-32 | the component's `destroy` runs when it has one, the key is gone, and the map becomes `Delete` of the old one |
| Entities.Entity.SetPosition | js/core/entity.js:45-49 | only the position changes |
| Entities.Entity.Move | js/core/entity.js:52-56 | the position moves by (dx, dy); nothing else changes |
| Entities.Entity.SetSize | js/core/entity.js:59-63 | only the size changes |
| Entities.Entity.SetActive | js/core/entity.js:113-121 | `activate`/`deactivate` change only the active flag |
| Entities.Entity.SetVisible | js/core/entity.js:124-132 | `show`/`hide` change only the visible flag |
| Entities.Entity.Destroy | js/core/entity.js:135-147 | the flags follow `DestroyCore`, the map is kept, and every component with `destroy` has it called once, in order |
| Entities.Entity.Reset | js/core/entity.js:150-155 | the flags follow `ResetCore` |
| Entities.Entity.Clone | js/core/entity.js:158-171 | the copy is a new entity with the same box and type and no id; each component is cloned or shared |
| Entities.Entity.GetComponent | js/core/entity.js:35-37 | a component is returned exactly when `hasComponent` holds, and it is the one stored under that name |
| Entities.Entity.HasComponent | js/core/entity.js:40-42 | true exactly when some entry of the component map carries the name |
| Entities.Entity.GetBounds | js/core/entity.js:66-75 | left/top are the position, right/bottom add the size, and the centre is the midpoint of each side pair |
| Entities.Entity.CollidesWith | js/core/entity.js:78-86 | true exactly when the two closed boxes overlap on both axes (touching edges count) |
| Entities.Entity.CollidesWithCircle | js/core/entity.js:89-100 | a hit needs a positive radius, and a box with non-negative size is always hit by a circle centred inside it |
| Balls.NewBall | js/entities/ball.js:3-21 | a new ball is centred on the given point with a box of side twice the radius, attached, not piercing, with no trail and the given velocity and speed |
| Balls.FollowPaddle | js/entities/ball.js:47-54 | with no paddle nothing changes; otherwise the ball sits over the paddle's centre line, two radii above its top, and only its position changes |
| Balls.Integrate | js/entities/ball.js:57-61 | the position moves by the velocity times `speed · dt · 60` and nothing else changes |
| Balls.RatioBound | js/entities/ball.js:280-283 | an offset within half the paddle width gives a ratio in [-1, 1], so scaling the speed by it never increases its magnitude |
| Balls.BounceDx | js/entities/ball.js:280-283 | the bounce dx has magnitude at most the speed and is proportional to the offset from the paddle centre; a centre hit goes straight up |
| Balls.WallBounce | js/entities/ball.js:64-81 | after the wall test the ball lies between the side walls and below the top, its velocity points away from a wall it touched with unchanged magnitude, and is untouched away from the walls |
| Balls.RunEffects | js/entities/ball.js:84-99 | a non-piercing ball is unchanged; otherwise the timer falls by `dt · 1000` and piercing ends, with radius 7, exactly when it reaches 0 |
| Balls.PushTrail | js/entities/ball.js:102-112 | a free ball appends its current point and drops the oldest one beyond eight; an attached ball clears its trail; the trail never exceeds eight points |
| Balls.Tick | js/entities/ball.js:24-44 | an inactive ball is unchanged; an attached ball only follows the paddle; a free ball ends below the top wall with its last trail point at its new position, and the trail bound holds |
| Balls.Launched | js/entities/ball.js:115-135 | launching detaches the ball and changes only its velocity |
| Balls.LaunchRandomVelocity | js/entities/ball.js:120-126 | a launch with no direction leaves upwards within 30 degrees of vertical at exactly `speed` |
| Balls.LaunchTowardVelocity | js/entities/ball.js:127-131 | a launch towards (dx, dy) leaves at exactly `speed`, parallel to and in the sense of the given direction |
| Balls.Reversed | js/entities/ball.js:145-147 | only the vertical velocity changes, to its negation |
| Balls.ReverseTwiceIsIdentity | js/entities/ball.js:145-147 | reversing twice restores the ball |
| Balls.WithAngle | js/entities/ball.js:150-153 | setting an angle changes only the velocity and keeps its magnitude equal to `speed` |
| Balls.WithPiercing | js/entities/ball.js:156-162 | piercing turns on with the given duration, radius and the piercing colour; nothing else changes |
| Balls.PiercingExpires | js/entities/ball.js:84-99 | a piercing ball whose whole duration elapses in one step stops piercing and returns to radius 7 |
| Balls.PaddleBounce | js/entities/ball.js:270-291 | an attached ball gives no answer and no change; a miss changes nothing; a hit sends the ball upwards, clears the trail and sets dx within the speed, proportional to the offset from the paddle centre |
| Balls.ResetBall | js/entities/ball.js:294-306 | a reset ball is attached, still, not piercing, of radius 7, white, with no trail and a reset entity part; the speed is kept |
| Balls.CloneBall | js/entities/ball.js:309-323 | a clone keeps the position, radius, velocity, speed, attachment, piercing and colour, has a box of side twice the radius, and starts with no trail, no id and live flags |
| Balls.Ball.constructor | js/entities/ball.js:3-21 | the new object's state is `NewBall` of its arguments, with no components |
| Balls.Ball.UpdateAttached | js/entities/ball.js:47-54 | the new state is `FollowPaddle` of the old one; components are untouched |
| Balls.Ball.UpdatePosition | js/entities/ball.js:57-61 | the new state is `Integrate` of the old one |
| Balls.Ball.CheckWallCollisions | js/entities/ball.js:64-81 | the new state is `WallBounce` of the old one |
| Balls.Ball.UpdateEffects | js/entities/ball.js:84-99 | the new state is `RunEffects` of the old one |
| Balls.Ball.UpdateTrail | js/entities/ball.js:102-112 | the new state is `PushTrail` of the old one |
| Balls.Ball.Update | js/entities/ball.js:24-44 | the new state is `Tick` of the old one; components are untouched |
| Balls.Ball.Launch | js/entities/ball.js:115-135 | the new state is `Launched` of the old one |
| Balls.Ball.ReverseDirection | js/entities/ball.js:145-147 | the new state is `Reversed` of the old one |
| Balls.Ball.SetAngle | js/entities/ball.js:150-153 | the new state is `WithAngle` of the old one |
| Balls.Ball.SetPiercing | js/entities/ball.js:156-162 | the new state is `WithPiercing` of the old one |
| Balls.Ball.SetSpeed | js/entities/ball.js:176-178 | only the speed changes |
| Balls.Ball.HandlePaddleCollision | js/entities/ball.js:270-291 | the result and new state are those of `PaddleBounce` |
| Balls.Ball.Reset | js/entities/ball.js:294-306 | the new state is `ResetBall` of the old one |
| Balls.Ball.Clone | js/entities/ball.js:309-323 | a new object whose state is `CloneBall` of this one, with no components |
| Bricks.InitialHp | js/entities/brick.js:24-33 | hit points lie in 1..3, and every kind other than strong and metal has one |
| Bricks.InitialPoints | js/entities/brick.js:35-45 | points lie in 10..50, and an unknown kind is worth 10 |
| Bricks.PointsPerHp | js/entities/brick.js:24-45 | every kind is worth at least ten points per hit point |
| Bricks.NewBrick | js/entities/brick.js:3-21 | a new brick has full hp for its kind, that kind's points, no shake, flash or particles, and the type tag of its kind |
| Bricks.BrickTypeOverwritten | js/entities/brick.js:4-8 | the entity's type tag is "brick" only when the kind itself is "brick", so a normal brick is not tagged "brick" |
| Bricks.Animated | js/entities/brick.js:58-72 | only the shake and flash timers change; shake runs down in ms while positive; the flash never rises, never goes below 0, and falls by `3 · dt` until it reaches 0 |
| Bricks.AgeParticles | js/entities/brick.js:75-85 | only particles still alive remain, none are added, and if all outlive the step all remain |
| Bricks.AgeParticlesAppend | js/entities/brick.js:75-85 | aging distributes over concatenation, and one particle is kept, with `dt · 1000` less life, exactly when that life stays positive — so the result is the input particles, in order, each aged, with the spent ones dropped |
| Bricks.ParticlesAged | js/entities/brick.js:75-85 | only the particle list changes, to the aged one |
| Bricks.BrickTick | js/entities/brick.js:47-55 | an inactive or destroyed brick is unchanged; otherwise only the timers and particles change: the shake timer runs down by `dt · 1000` while positive, the flash falls by `3 · dt` and stops at 0, and the particles are aged as by `AgeParticles` (never more of them) |
| Bricks.Burst | js/entities/brick.js:135-155 | a bomb bursts into 20 particles and any other kind into 8, each with life 1000 |
| Bricks.DestroyBrick | js/entities/brick.js:105-117 | destroying a destroyed brick changes nothing; otherwise it becomes destroyed and inactive, adds its burst and pays its points once |
| Bricks.DestroyIdempotent | js/entities/brick.js:105-117 | destroying twice is destroying once, and the reward is paid at most once |
| Bricks.HitBrick | js/entities/brick.js:88-102 | a hit lowers hp by the damage and sets the flash; it reports destruction exactly when hp reaches 0 or below, and otherwise starts a 200 ms shake without paying |
| Bricks.HitDestroyedBrick | js/entities/brick.js:88-117 | hitting an already destroyed brick lowers hp but pays nothing |
| Bricks.UnitHitsToDestroy | js/entities/brick.js:3-117 | a fresh brick falls to its first unit hit exactly when its kind has one hit point, and then pays its points once |
| Bricks.WithHp | js/entities/brick.js:380-385 | hp is clamped at 0 from below and 0 destroys the brick; a positive hp changes nothing else |
| Bricks.WithType | js/entities/brick.js:388-393 | the tag, max hp, hp and points all follow the new kind and nothing else changes |
| Bricks.ResetBrick | js/entities/brick.js:396-404 | a reset brick is live with full hp and no shake, flash or particles; points, rewards paid and colour are kept |
| Bricks.ResetAllowsSecondReward | js/entities/brick.js:88-117 | after a reset a one-hp brick that was destroyed falls to a unit hit again and pays a second reward |
| Bricks.CloneBrick | js/entities/brick.js:407-418 | a clone is a new brick of the same box, colour and kind with hp, max hp and points copied |
| Bricks.Brick.constructor | js/entities/brick.js:3-21 | the new object's state is `NewBrick` of its arguments |
| Bricks.Brick.Update | js/entities/brick.js:47-55 | the new state is `BrickTick` of the old one |
| Bricks.Brick.UpdateAnimations | js/entities/brick.js:58-72 | the new state is `Animated` of the old one |
| Bricks.Brick.UpdateParticles | js/entities/brick.js:75-85 | the new state is `ParticlesAged` of the old one |
| Bricks.Brick.Destroy | js/entities/brick.js:105-117 | the new state is `DestroyBrick` of the old one |
| Bricks.Brick.Hit | js/entities/brick.js:88-102 | the result and new state are those of `HitBrick` |
| Bricks.Brick.SetHp | js/entities/brick.js:380-385 | the new state is `WithHp` of the old one |
| Bricks.Brick.SetType | js/entities/brick.js:388-393 | the new state is `WithType` of the old one |
| Bricks.Brick.Reset | js/entities/brick.js:396-404 | the new state is `ResetBrick` of the old one |
| Bricks.Brick.Clone | js/entities/brick.js:407-418 | a new object whose state is `CloneBrick` of this one |
| Paddles.NewPaddle | js/entities/paddle.js:3-15 | a new paddle has speed 2.5, its target at its own x, the default colours and no bonuses |
| Paddles.Direction | js/entities/paddle.js:38-73 | the net direction lies in -3..3, and with keys alone it is right minus left |
| Paddles.Steered | js/entities/paddle.js:35-80 | only the target changes; with no input system nothing changes; otherwise the mouse, else the touch, places the target under the cursor and a non-zero direction then shifts it by direction times the step |
| Paddles.KeysMoveTarget | js/entities/paddle.js:41-79 | with keys only, the target moves by one step towards the key held, and not at all when both or neither are held |
| Paddles.Constrained | js/entities/paddle.js:83-94 | a paddle past the left edge snaps to 0, one past the right edge snaps to the edge, one inside is unchanged, and a paddle no wider than the canvas ends inside it |
| Paddles.ConstrainIdempotent | js/entities/paddle.js:83-94 | clamping twice is clamping once |
| Paddles.Eased | js/entities/paddle.js:25-28 | only x changes, and the gap to the target shrinks to four fifths |
| Paddles.PaddleTick | js/entities/paddle.js:18-32 | an inactive paddle is unchanged; otherwise it reads input, eases and is clamped, in that order |
| Paddles.TickClosesGap | js/entities/paddle.js:18-32 | without input and away from the edges a tick keeps the target and shrinks the gap to it by a fifth, and the paddle stays on the canvas |
| Paddles.Widened | js/entities/paddle.js:147-150 | the size bonus grows by 10 up to 40, the glow turns yellow, and the collision box is unchanged |
| Paddles.WidenSaturates | js/entities/paddle.js:147-150 | from no bonus, n widenings give a bonus of min(40, 10n) and never change the collision box |
| Paddles.WidenReverted | js/entities/paddle.js:153-156 | the widen timer restores bonus 0 and the default glow and changes nothing else |
| Paddles.Boosted | js/entities/paddle.js:159-162 | the speed bonus becomes `speed · (amount − 1)` and the paddle turns magenta, so the default boost makes the step 1.5 times the speed |
| Paddles.BoostReverted | js/entities/paddle.js:165-168 | the boost timer restores bonus 0 and the default colour and changes nothing else |
| Paddles.BoostThenExpire | js/entities/paddle.js:159-168 | a boost followed by its expiry restores a paddle that had no bonus and the default colour |
| Paddles.Activated | js/entities/paddle.js:171-175 | activation makes the entity active and the glow green, and changes nothing else |
| Paddles.ActivateReverted | js/entities/paddle.js:176-178 | the activation timer restores only the default glow |
| Paddles.PoweredUp | js/entities/paddle.js:182-193 | "widen" widens, "speed" boosts by 1.5, and any other kind activates |
| Paddles.ResetPaddle | js/entities/paddle.js:196-202 | a reset paddle has reset entity flags, no bonuses and the default colours; speed and target are kept |
| Paddles.ResetClearsPowerUps | js/entities/paddle.js:182-202 | resetting after any power-up leaves no bonus, the default colours and an active paddle |
| Paddles.ClonePaddle | js/entities/paddle.js:205-213 | a clone is a new paddle on the same box with speed, bonuses and colours copied and its target at its x |
| Paddles.Step | js/entities/paddle.js:77-78 | with a non-negative speed level the step is at least speed plus bonus, and with level 0 and no bonus it is the base speed |
| Paddles.Remaining | js/entities/paddle.js:26-28 | the remaining gap keeps its sign and never grows, and any easing step strictly shrinks a non-zero gap |
| Paddles.WidenTimes | js/entities/paddle.js:147-150 | only the size bonus and the glow change; after at least one widening the bonus is at most 40 and the glow yellow, and a bonus within the cap never shrinks |
| Paddles.Paddle.constructor | js/entities/paddle.js:3-15 | the new object's state is `NewPaddle` of its arguments |
| Paddles.Paddle.Update | js/entities/paddle.js:18-32 | the new state is `PaddleTick` of the old one |
| Paddles.Paddle.HandleInput | js/entities/paddle.js:35-80 | the new state is `Steered` of the old one |
| Paddles.Paddle.ConstrainToCanvas | js/entities/paddle.js:83-94 | the new state is `Constrained` of the old one |
| Paddles.Paddle.Widen | js/entities/paddle.js:147-150 | the new state is `Widened` of the old one |
| Paddles.Paddle.ExpireWiden | js/entities/paddle.js:153-156 | the new state is `WidenReverted` of the old one |
| Paddles.Paddle.BoostSpeed | js/entities/paddle.js:159-162 | the new state is `Boosted` of the old one |
| Paddles.Paddle.ExpireBoost | js/entities/paddle.js:165-168 | the new state is `BoostReverted` of the old one |
| Paddles.Paddle.Activate | js/entities/paddle.js:171-175 | the new state is `Activated` of the old one |
| Paddles.Paddle.ExpireActivate | js/entities/paddle.js:176-178 | the new state is `ActivateReverted` of the old one |
| Paddles.Paddle.ApplyPowerUp | js/entities/paddle.js:182-193 | the new state is `PoweredUp` of the old one |
| Paddles.Paddle.Reset | js/entities/paddle.js:196-202 | the new state is `ResetPaddle` of the old one |
| Paddles.Paddle.Clone | js/entities/paddle.js:205-213 | a new object whose state is `ClonePaddle` of this one |
| Bodies.DestroyBody | js/core/entity.js:135-147 | destroying marks any entity destroyed, and inactive unless it already was destroyed; a brick uses its own idempotent `destroy`, anything else the entity's |
| Bodies.UpdateBody | js/core/game-engine.js:285-290 | each kind runs its own step (a ball sees the first paddle, a paddle reads the input), and a plain entity is unchanged |
| Bodies.UpdateKeepsIdentity | js/core/game-engine.js:285-290 | an update never changes an entity's id, type or destroyed flag |
| Bodies.FindKey | js/core/game-engine.js:143 | the position of a key in the registry's insertion order, -1 exactly when it is absent, and no earlier entry has that key |
| Bodies.GetEntry | js/core/game-engine.js:156-158 | `get` finds nothing exactly when the id is absent, and otherwise an entity stored under that id |
| Bodies.SetEntry | js/core/game-engine.js:139-145 | `set` keeps an existing id in its place and appends a new id last; other entries are unchanged |
| Bodies.DeleteEntry | js/core/game-engine.js:147-154 | `delete` removes exactly the entries with that id |
| Bodies.GetAfterSet | js/core/game-engine.js:139-158 | after `set`, `get` finds the new entity, other ids are unaffected, and ids stay distinct |
| Bodies.SetKeepsKeysDistinct | js/core/game-engine.js:139-158 | `set` never makes two registry entries share an id |
| Bodies.FindKeyUnique | js/core/game-engine.js:139-158 | with distinct ids, the lookup of an id lands on the one entry holding it |
| Bodies.DeleteKeepsKeysDistinct | js/core/game-engine.js:147-154 | deleting an id never creates duplicate ids |
| Bodies.BodiesOf | js/core/game-engine.js:160-162 | the registry's values, one per entry, in insertion order |
| Bodies.OfType | js/core/game-engine.js:160-162 | `getEntitiesByType` keeps exactly the entities of that type, in order |
| Bodies.OfTypeAppend | js/core/game-engine.js:160-162 | the filter distributes over concatenation, and one entity is kept exactly when it has the type — so order and multiplicity are those of the entity list |
| Bodies.OfTypeEmpty | js/core/game-engine.js:160-162 | the filtered list is empty exactly when no entity has that type |
| Bodies.FirstOfType | js/entities/ball.js:47-54 | the first paddle is absent exactly when there is no paddle, and otherwise is the first entity of that type |
| Bodies.Survivors | js/core/game-engine.js:310-320 | the entries that are not destroyed, in order |
| Bodies.SurvivorsAppend | js/core/game-engine.js:310-320 | the sweep distributes over concatenation, and one entry is kept exactly when it is not destroyed — so the survivors keep their order and multiplicity |
| Bodies.DestroyedKeys | js/core/game-engine.js:311-316 | the ids collected are exactly those of destroyed entries |
| Bodies.WithoutKeys | js/core/game-engine.js:318 | removing a set of ids leaves exactly the entries whose id is not in it |
| Bodies.DeleteFromFiltered | js/core/game-engine.js:318 | removing the ids one by one is removing the whole set at once |
| Bodies.DroppingDestroyedKeys | js/core/game-engine.js:310-320 | with distinct ids, removing the ids of destroyed entries leaves exactly the survivors, in order |
| Spatial.Insert | js/systems/collision.js:377-381 | adding to a cell creates it on first use and leaves the other cells as they were |
| Spatial.AddRowsMembers | js/systems/collision.js:377-382 | the inner loop lists entity k in exactly the cells (x, y) .. (x, y1), in addition to what was there |
| Spatial.AddColsMembers | js/systems/collision.js:376-383 | the two loops list entity k in exactly the cells of its span, in addition to what was there |
| Spatial.AddEntitiesMembers | js/systems/collision.js:364-384 | an entity is listed in a cell exactly when it was before or it is live and the cell is in its span |
| Spatial.CellsExact | js/systems/collision.js:361-385 | after `update`, an entity is listed in a cell exactly when it is live and the cell lies in the span of its box |
| Spatial.AddRowsOrdered | js/systems/collision.js:377-382 | adding an entity larger than all listed keeps every cell in increasing order, with no duplicates |
| Spatial.AddColsOrdered | js/systems/collision.js:376-383 | the same for the whole span, and only entity k is added |
| Spatial.AddEntitiesOrdered | js/systems/collision.js:364-384 | adding the entities in order keeps every cell increasing and non-empty |
| Spatial.CellsWellFormed | js/systems/collision.js:361-385 | no cell of a freshly built grid is empty or lists an entity twice |
| Spatial.AddUnique | js/systems/collision.js:404 | adding to the result set keeps it a set and adds exactly that entity |
| Spatial.GatherContents | js/systems/collision.js:401-407 | one cell contributes exactly its members other than the query, without duplicates |
| Spatial.NearRowsContents | js/systems/collision.js:398-409 | one column of the span contributes exactly the members of its cells other than the query |
| Spatial.NearColsContents | js/systems/collision.js:397-410 | the whole span contributes exactly the members of its cells other than the query |
| Spatial.NearbyExact | js/systems/collision.js:389-413 | `getNearby` returns exactly the entities listed in some cell of the query's span, never the query itself, each once |
| Spatial.DivMono | js/systems/collision.js:393-396 | the floor of a coordinate over the cell size never decreases as the coordinate grows |
| Spatial.OverlapSharesCell | js/systems/collision.js:389-413 | two overlapping upright boxes share a grid cell |
| Spatial.NoFalseNegatives | js/systems/collision.js:361-413 | every other live entity whose upright box overlaps the query's upright box is among the nearby entities |
| Spatial.NearbyAreLive | js/systems/collision.js:361-413 | every nearby entity is another live entity that shares a cell with the query |
| Spatial.LiveBelow | js/systems/collision.js:365-367 | the indices below k of the live entities |
| Spatial.LiveIndices | js/systems/collision.js:365-367 | the grid's entity set is exactly the indices of the live entities |
| Spatial.BuildCells | js/systems/collision.js:361-385 | an entity is listed in a cell exactly when it is live and the cell lies in the span of its bounds |
| Spatial.Nearby | js/systems/collision.js:389-413 | an entity is returned exactly when it differs from the query and shares a cell of the query's span, and none is returned twice |
| Spatial.SpatialHash.constructor | js/systems/collision.js:354-358 | a new grid has the given cell size and no cells or entities |
| Spatial.SpatialHash.Update | js/systems/collision.js:361-386 | the grid is rebuilt to `BuildCells` of the entities, and its entity set to the live indices |
| Spatial.SpatialHash.AddSpan | js/systems/collision.js:376-383 | the two inner loops add entity k to exactly the cells of its span |
| Spatial.SpatialHash.GetNearby | js/systems/collision.js:389-413 | the result is `Nearby` of the grid, so `NearbyExact` and `NoFalseNegatives` apply to it |
| Spatial.SpatialHash.Reset | js/systems/collision.js:416-419 | the grid has no cells and no entities |
| Contacts.SideRuleOnNumbers | js/systems/collision.js:158-167 | on numbers the side is left or right exactly when the horizontal offset is strictly larger in magnitude, with its sign picking right; otherwise bottom or top by the vertical sign |
| Contacts.BallBrickSide | js/systems/collision.js:153-167 | the offsets are read off a number's `.x`/`.y`, so both are NaN and every ball–brick record says top |
| Contacts.NaNOffsetGivesTop | js/systems/collision.js:161-167 | a NaN vertical offset gives top whatever the horizontal offset is |
| Contacts.AabbSymmetric | js/systems/collision.js:253-258 | the box test does not depend on the order of its arguments, and boxes that only touch collide |
| Contacts.CircleRect | js/systems/collision.js:261-277 | the closest point is the circle's centre clamped to the rectangle, and the test hits exactly when the radius (half the box width) is positive and the distance to that point is strictly below it |
| Contacts.SqBelow | js/systems/collision.js:273 | a square below the radius's square means the value lies strictly within the radius |
| Contacts.CircleHitImpliesOverlap | js/systems/collision.js:143-150 | a circle hit implies that the ball's square box overlaps the rectangle, so the narrow test never reports a pair the box test rejects |
| Contacts.Penetration | js/systems/collision.js:280-289 | each axis's penetration is non-negative, positive exactly when the boxes overlap strictly on that axis, and no larger than either overlap length |
| Contacts.BallPaddleTest | js/systems/collision.js:112-140 | a ball–paddle record appears exactly for a ball on the paddle's top band and between its edges |
| Contacts.BallBrickTest | js/systems/collision.js:143-178 | a ball–brick record appears exactly when the circle test hits, always with side top and the squared distance as penetration |
| Contacts.BallWallTest | js/systems/collision.js:181-210 | against the default 800×600 canvas the side is left when the ball touches x = 0, else right when it touches the right edge, else top when it touches y = 0; there is never a bottom side |
| Contacts.Expanded | js/systems/collision.js:229-241 | the item's box is grown by 10 on every side |
| Contacts.ItemReachExact | js/systems/collision.js:229-250 | an item picks up a paddle exactly when their boxes come within 10 of each other on both axes, so any real overlap is a pickup |
| Contacts.AabbTest | js/systems/collision.js:93-106 | the fallback record appears exactly when the boxes overlap, and is an 'aabb' record |
| Contacts.ClassifyByTypes | js/systems/collision.js:64-109 | a typed record appears only for its own ordered pair of types |
| Contacts.ClassifyAsymmetric | js/systems/collision.js:64-109 | the result depends on the order: ball then brick uses the circle test, brick then ball falls through to an 'aabb' record |
| Contacts.BricksAreNotTypedBrick | js/systems/collision.js:72-73 | a brick built with kind "normal" has that kind as type, so the ball–brick arm never sees it and the box test answers |
| Contacts.Classify | js/systems/collision.js:64-109 | a bullet–brick record appears exactly for a bullet and a brick whose boxes overlap, an item–paddle one exactly when the grown item box overlaps the paddle, and an untyped pair gives an aabb record exactly when the boxes overlap |
| Contacts.SideOf | js/systems/collision.js:153-207 | only ball–brick and ball–wall records carry a side, and it is the side the record was built with |
| Handlers.IncreaseCombo | js/main-new.js:29-31 | the combo grows by one |
| Handlers.ResetCombo | js/main-new.js:54-55 | the combo becomes 0 |
| Handlers.SameFramesTransitive | js/main-new.js:178-256 | keeping ids, types and boxes is transitive over a sequence of handlers |
| Handlers.FlipDx | js/main-new.js:205-209 | a ball's dx is negated and nothing else changes; other entities are unchanged |
| Handlers.FlipDy | js/main-new.js:204-205 | a ball's dy is negated and nothing else changes; other entities are unchanged |
| Handlers.OnBallPaddle | js/main-new.js:180-192 | a ball bounces off the record's paddle as `handlePaddleCollision` does; a non-ball is left alone; no id, type or box changes and the combo is kept |
| Handlers.OnBallBrick | js/main-new.js:195-220 | the brick takes one point of damage; only if that destroys it does the ball reflect by the record's side and the combo grow by one |
| Handlers.OnBallWall | js/main-new.js:223-239 | left and right flip dx, top flips dy, any other side flips nothing, and the combo is reset |
| Handlers.ApplyHandler | js/main-new.js:178-256 | every handler keeps the number of entities, and a record naming a missing entity changes nothing |
| Handlers.SurvivingBrickKeepsBall | js/main-new.js:199-203 | a brick that survives its hit leaves the ball and the combo alone |
| Handlers.BreakingBrickReflects | js/main-new.js:199-215 | a one-hit brick on a top-side record flips the ball's dy and adds one to the combo |
| Handlers.HandlersKeepFrames | js/main-new.js:178-256 | no handler moves, renames or retypes an entity |
| Collision.Register | js/systems/collision.js:11-18 | the handler is stored under "t1-t2" and under "t2-t1", and every other key is unchanged |
| Collision.Dispatch | js/systems/collision.js:316-327 | running the handler for a record never adds or removes entities; without a handler for the type pair nothing happens |
| Collision.DispatchEitherOrder | js/systems/collision.js:11-18 | a handler registered for two types runs for a record whose entities have those types in either order |
| Collision.Mark | js/systems/collision.js:292-302 | marking creates the checked set on first use and only adds to it |
| Collision.MarkThenChecked | js/systems/collision.js:292-313 | after marking a pair of entities with ids, the pair counts as checked in both orders |
| Collision.AlreadyCheckedGrows | js/systems/collision.js:305-313 | a pair checked in a set stays checked in any larger set |
| Collision.SameIdsChecked | js/systems/collision.js:305-313 | checking is symmetric in the two ids |
| Collision.ScanPair | js/systems/collision.js:41-55 | one candidate step never adds or removes entities |
| Collision.ScanNear | js/systems/collision.js:41-55 | the candidates of one entity never add or remove entities |
| Collision.ScanFrom | js/systems/collision.js:33-56 | the outer loop never adds or removes entities |
| Collision.Pass | js/systems/collision.js:21-59 | a whole pass keeps the number of entities |
| Collision.ScanPairFacts | js/systems/collision.js:45-54 | one candidate step keeps the pass invariant: recorded pairs are checked, none repeats, none was checked at the start, and the set only grows |
| Collision.ScanNearFacts | js/systems/collision.js:41-55 | the inner loop keeps the pass invariant |
| Collision.ScanFromFacts | js/systems/collision.js:33-56 | the outer loop keeps the pass invariant |
| Collision.PassRecordsEachPairOnce | js/systems/collision.js:21-59 | in one call no pair of ids is recorded twice, each recorded pair ends up checked, the set only grows, and no pair already checked at the start is recorded |
| Collision.SuppressedOnLaterCalls | js/systems/collision.js:21-59 | the checked set is never cleared between calls, so a pair with ids recorded by one call is never recorded by the next, in either order |
| Collision.CollisionSystem.constructor | js/systems/collision.js:3-8 | a new system is enabled, with no pairs, no handlers, no checked set and an empty grid |
| Collision.CollisionSystem.AddCollisionHandler | js/systems/collision.js:11-18 | the handler table becomes `Register` of the old one |
| Collision.CollisionSystem.MarkAsChecked | js/systems/collision.js:292-302 | the checked set becomes `Mark` of the old one |
| Collision.CollisionSystem.HandleCollision | js/systems/collision.js:316-327 | the world after the call is `Dispatch` of the record |
| Collision.CollisionSystem.CheckCollisions | js/systems/collision.js:21-59 | a disabled system returns no pairs and changes nothing; an enabled one rebuilds the grid from the entities and returns and keeps the pairs and world of `Pass` |
| Collision.CollisionSystem.ScanCandidate | js/systems/collision.js:45-54 | the recorded pairs and checked set become those of `ScanPair` |
| Collision.CollisionSystem.SetEnabled | js/systems/collision.js:330-332 | the flag becomes the argument |
| Collision.CollisionSystem.Reset | js/systems/collision.js:335-339 | no recorded pairs, no checked set and an empty grid |
| Physics.ScaleKeepsDirection | js/systems/physics.js:57-61 | scaling a velocity by a positive factor keeps its direction |
| Physics.Capped | js/systems/physics.js:55-62 | after the speed cap the squared speed is at most 20², the direction is kept, and a velocity already within the cap is unchanged |
| Physics.Resolve | js/systems/physics.js:83-105 | on one axis, below 0 the position is mirrored and the velocity made its absolute value; past the far edge the position is `limit − size/2` and the velocity minus its absolute value; otherwise nothing changes |
| Physics.ConstrainToCanvas | js/systems/physics.js:76-106 | only the position and velocity change; an object without `getBounds` is untouched; overflowing the left or top edge leaves a non-negative velocity on that axis, the right or bottom edge a non-positive one |
| Physics.ReflectionKeepsSpeed | js/systems/physics.js:76-106 | with restitution 1 a reflection keeps the speed along each axis |
| Physics.UpdateObject | js/systems/physics.js:41-73 | an object without velocity is unchanged; otherwise the position advances by `v · dt · 60`, friction multiplies both components by 0.98, and with the cap on the squared speed ends at most 20² |
| Physics.CapHoldsWithGravity | js/systems/physics.js:55-67 | gravity is 0, so the speed cap holds even for objects that ask for gravity |
| Physics.FixedDelta | js/systems/physics.js:28 | the step is the smaller of dt and 1/60 |
| Physics.StepAll | js/systems/physics.js:30-34 | every live object is integrated and every other object is left as it is |
| Physics.Kept | js/systems/physics.js:271-283 | exactly the objects not destroyed remain, in order |
| Physics.KeptAppend | js/systems/physics.js:271-283 | the cleanup distributes over concatenation, and one object is kept exactly when it is not destroyed — so the kept objects are in set order |
| Physics.Without | js/systems/physics.js:17-19 | removing an object leaves exactly the others, in order |
| Physics.WithoutAppend | js/systems/physics.js:17-19 | removal distributes over concatenation, and one object is dropped exactly when it is the removed one — so the others stay in order |
| Physics.VelocityOf | js/systems/physics.js:109-119 | a missing velocity reads as zero, and a present one as itself |
| Physics.MassOf | js/systems/physics.js:126-127 | a missing or zero mass counts as 1, so the mass is never 0 |
| Physics.CalculateMomentum | js/systems/physics.js:122-144 | each object's momentum is its velocity times its mass, and the total is their sum |
| Physics.MomentumSymmetric | js/systems/physics.js:122-144 | swapping the objects swaps their momenta and keeps the total |
| Physics.ElasticCollision | js/systems/physics.js:147-184 | the result is undefined (NaN in the source) exactly when the centres coincide or the masses sum to 0 |
| Physics.ExchangeConserves | js/systems/physics.js:167-168 | the new normal speeds keep the mass-weighted sum |
| Physics.NormalShift | js/systems/physics.js:169-182 | a momentum-neutral change of normal speeds, projected on an axis and scaled by the restitution, keeps that axis's weighted sum |
| Physics.AxisConserves | js/systems/physics.js:161-182 | along either axis the exchanged normal speeds keep the mass-weighted sum of that velocity component |
| Physics.ShiftedConserves | js/systems/physics.js:169-182 | any pair of velocities shifted along the normal by the exchanged normal speeds keeps the total momentum on both axes |
| Physics.ExchangeConservesMomentum | js/systems/physics.js:161-183 | with restitution 1 the velocity exchange conserves momentum on both axes whatever the normal |
| Physics.ElasticConservesMomentum | js/systems/physics.js:147-184 | with restitution 1 the elastic collision conserves the total momentum on both axes |
| Physics.RectRect | js/systems/physics.js:209-225 | the test is the closed box overlap; for upright boxes it hits exactly when the intersection has non-negative width and height, and the intersection starts inside both boxes |
| Physics.PhysicsSystem.constructor | js/systems/physics.js:3-9 | a new system has no objects |
| Physics.PhysicsSystem.AddObject | js/systems/physics.js:12-14 | an object already present stays where it is; a new one is appended |
| Physics.PhysicsSystem.RemoveObject | js/systems/physics.js:17-19 | the set becomes `Without` the object |
| Physics.PhysicsSystem.GetObjectCount | js/systems/physics.js:22-24 | the number of objects held |
| Physics.PhysicsSystem.CleanupDestroyedObjects | js/systems/physics.js:271-283 | the set becomes `Kept` of the old one |
| Physics.PhysicsSystem.Update | js/systems/physics.js:27-38 | every live object is integrated with the clamped step, then the destroyed ones are removed, so none remains |
| Physics.PhysicsSystem.Reset | js/systems/physics.js:286-288 | the set is empty |
| Physics.EmptySetStaysEmpty | js/core/game-engine.js:278 | the engine never fills the set, so an update there does nothing |
| Engine.Subscribe | js/core/game-engine.js:450-459 | `on` creates the listener map on first use and puts the callback last in its event's list; other events keep their lists |
| Engine.CallsOf | js/core/game-engine.js:461-471 | `emit` calls each listener once, in registration order, with the event's data, even past a listener that throws |
| Engine.EmittedAfterSubscribe | js/core/game-engine.js:450-471 | a callback added with `on` is called by the next `emit` of its event, after the earlier ones |
| Engine.WithId | js/core/game-engine.js:140-142 | a truthy id is kept, otherwise the generated one is assigned; the kind and type are unchanged |
| Engine.WithEntity | js/core/game-engine.js:139-145 | the entity is stored under its own id, or under the generated one when it has none |
| Engine.WithEntityFinds | js/core/game-engine.js:139-158 | after `addEntity`, `getEntity` of its id returns it, and ids stay distinct |
| Engine.SetEntryFrom | js/core/game-engine.js:143 | every entry after `set` was there before or is the new one |
| Engine.WithEntitiesFrom | js/core/game-engine.js:139-145 | adding entities never creates an entity of a type none of them has |
| Engine.WithEntitiesKeepKeysDistinct | js/core/game-engine.js:139-145 | adding entities one after another keeps the ids distinct |
| Engine.WithoutEntity | js/core/game-engine.js:147-154 | `removeEntity` of an absent id changes nothing and returns nothing; otherwise the entity is destroyed, removed and returned; either way the id is absent afterwards |
| Engine.DeleteAbsent | js/core/game-engine.js:147-154 | deleting an id that is not registered changes nothing |
| Engine.Rebody | js/core/game-engine.js:285-290 | the entities are updated in place: ids and order are kept and the bodies are the new ones |
| Engine.SameKeysDistinct | js/core/game-engine.js:285-290 | keeping the ids position by position keeps them distinct |
| Engine.SurvivorsKeepKeysDistinct | js/core/game-engine.js:310-320 | the sweep of destroyed entities keeps the ids distinct |
| Engine.InitialBodies | js/core/game-engine.js:183-208 | the opening layout is the paddle (80×12, centred, 30 above the bottom), an attached ball of radius 7 and speed 4 above it, then 15 bricks |
| Engine.BrickPlacement | js/core/game-engine.js:211-229 | brick (r, c) is a 60×20 brick of kind normal with 1 hp and 10 points, placed 65 apart in a centred grid from y = 60, rows 25 apart, coloured by row modulo 5 |
| Engine.BrickRow | js/core/game-engine.js:222-228 | the row from column c holds the columns c .. cols − 1 |
| Engine.BrickRowAt | js/core/game-engine.js:222-228 | the k-th brick of a row from column c is the brick at column c + k |
| Engine.GridKinds | js/core/game-engine.js:211-229 | every brick `createBricks` makes has type normal |
| Engine.RowsLength | js/core/game-engine.js:221-229 | rows r .. rows − 1 hold (rows − r)·cols bricks |
| Engine.RowsShift | js/core/game-engine.js:221-229 | past the first row, the rows from r continue with the rows from r + 1 |
| Engine.RowIndexIsProduct | js/core/game-engine.js:221-229 | m full rows of cols bricks come before row m |
| Engine.RowsLayout | js/core/game-engine.js:221-229 | row from + m, column c sits after m full rows |
| Engine.BrickGridLayout | js/core/game-engine.js:211-229 | the grid has rows·cols bricks, and brick (r, c) sits at index r·cols + c |
| Engine.InitialLayoutHasNoBrickType | js/core/game-engine.js:183-229 | the opening layout has no entity of type "brick", because bricks carry their kind as type |
| Engine.Respond | js/core/game-engine.js:335-386 | the engine's response keeps the number of entities (leaving out the particles) and the combo |
| Engine.Struck | js/core/game-engine.js:359 | `brick.hit()` with damage 1 on a brick, nothing on anything else |
| Engine.Aimed | js/core/game-engine.js:339-351 | the ball's dy becomes −|dy| and dx·(width/2) is 4 times the offset of the ball's centre from the paddle's centre |
| Engine.AimedBounds | js/core/game-engine.js:346-347 | a ball centred on the paddle leaves straight up, and one within the paddle's width gets |dx| ≤ 4 |
| Engine.RespondAll | js/core/game-engine.js:322-332 | answering a list of records keeps the number of entities (leaving out the particles) and the combo |
| Engine.WallResponseTwice | js/core/game-engine.js:372-384 | on a side-wall record the game's handler and the engine's response each negate dx, so the ball keeps its direction and only the combo reset remains |
| Engine.EngineOverridesPaddleBounce | js/core/game-engine.js:339-351 | on a ball–paddle record the engine's response overrides the game's bounce: dx ends as the engine's, dy as −|dy|, and the position is unchanged |
| Engine.Transition | js/core/game-engine.js:67-136 | `setState` assigns the state, emits one stateChange and then the entry event of the new state; entering menu empties the registry and throws; entering playing with no entities creates the opening layout; other states keep the registry |
| Engine.Judge | js/core/game-engine.js:389-424 | the stage is clear exactly when no entity has type brick; otherwise no ball loses a life while lives remain and ends the game when none do |
| Engine.SpareBall | js/core/game-engine.js:404-410 | the spare ball is attached, centred over the paddle 20 above its top, with dy −4, speed 4 and radius 7 |
| Engine.Judged | js/core/game-engine.js:389-424 | a clear stage moves to stageclear, a lost game to gameover; a lost ball adds a spare ball on the first paddle, if any, and lowers the lives by one without changing the state |
| Engine.OpeningCheckClearsStage | js/core/game-engine.js:183-229 | the first check of a new game finds no entity of type brick and clears the stage |
| Engine.LastLifeBypassesClamp | js/core/game-engine.js:400-418 | a lost ball with one life left leaves the counter at 0, outside the [1, 10] range of `setMaxLives`, and the next lost ball ends the game |
| Engine.WithEntitiesAppend | js/core/game-engine.js:139-145 | adding a list in two parts is adding the first part, then the second with the ids that follow |
| Engine.RowsUpToThenRest | js/core/game-engine.js:221-229 | the first r rows followed by the rest are the whole grid |
| Engine.DestroyedKeysSnoc | js/core/game-engine.js:312-316 | the collected ids of a longer prefix are those of the shorter one plus the next entry's if it is destroyed |
| Engine.DestroyedKeysAppend | js/core/game-engine.js:312-316 | the collected ids of two parts are those of each part, in order |
| Engine.WithoutNoKeys | js/core/game-engine.js:318 | removing no ids changes nothing |
| Engine.DestroyedKeysExact | js/core/game-engine.js:310-320 | with distinct ids, an entry whose id was collected is itself destroyed |
| Engine.RowsStep | js/core/game-engine.js:221-229 | the bricks of r + 1 rows are those of r rows and then row r, with the ids that follow |
| Engine.RowsUpToAll | js/core/game-engine.js:221-229 | all rows built in turn are the whole grid |
| Engine.UpdateFrom | js/core/game-engine.js:285-290 | the entity pass keeps every key in place, changes no id, type or lifecycle flag, and leaves destroyed entities (and those already passed) as they were |
| Engine.Detect | js/core/game-engine.js:322-332 | collision detection keeps the ids in place, and a disabled collision system changes nothing |
| Engine.TransitionKeepsKeysDistinct | js/core/game-engine.js:67-136 | a state change keeps the ids distinct |
| Engine.JudgedKeepsKeysDistinct | js/core/game-engine.js:389-424 | the win/loss check keeps the ids distinct |
| Engine.FrameBookkeeping | js/core/game-engine.js:272-297 | a frame keeps the ids distinct, lowers the lives by at most one, and moves the state only to stageclear or gameover |
| Engine.SweepDropsKey | js/core/game-engine.js:310-320 | the sweep removes the id of a destroyed entity |
| Engine.SameKeysLack | js/core/game-engine.js:285-290 | an id absent before an in-place update is absent after it |
| Engine.JudgedAddsOnlySpare | js/core/game-engine.js:389-424 | the check adds at most the spare ball, under the next generated id |
| Engine.FrameDropsDestroyed | js/core/game-engine.js:272-297 | an entity destroyed when a frame starts is no longer registered when it ends, unless the spare ball got the same id |
| Engine.FixedStep | js/core/game-engine.js:259 | the step is the smaller of the elapsed time and the frame interval |
| Engine.Round | js/core/game-engine.js:251 | `Math.round` gives the integer within half of x, halves rounded up |
| Engine.Count | js/core/game-engine.js:248-255 | under a second since the last reading the frame count grows by one; after at least a second the reading is the rounded frame rate over that interval and the count restarts |
| Engine.WithEntitiesOne | js/core/game-engine.js:139-145 | adding a list of one is `addEntity` with the next id |
| Engine.WithEntitiesSnoc | js/core/game-engine.js:222-228 | one more entity of a list is added after the ones before it, with the next id |
| Engine.CallsOfSnoc | js/core/game-engine.js:464-470 | one more listener called is appended after the earlier calls |
| Engine.RebodySame | js/core/game-engine.js:285-290 | writing back the bodies a registry already has changes nothing |
| Engine.Frame | js/core/game-engine.js:272-297 | a frame keeps the listeners; while still playing it emits nothing; otherwise the state is stageclear or gameover, the lives are unchanged, and exactly the stateChange event and the new state's own event are emitted |
| Engine.GameEngine.constructor | js/core/game-engine.js:3-19 | a new engine is in menu with no entities, no listeners, the stored lives, combo 0, not running, and an enabled collision system with no handlers |
| Engine.GameEngine.On | js/core/game-engine.js:450-459 | the listeners become `Subscribe` of the old ones |
| Engine.GameEngine.Emit | js/core/game-engine.js:461-471 | the calls made are those of `Emitted`, after the earlier ones |
| Engine.GameEngine.AddEntity | js/core/game-engine.js:139-145 | the registry becomes `WithEntity` of the old one and `getEntity` of the returned entity's id finds it |
| Engine.GameEngine.RemoveEntity | js/core/game-engine.js:147-154 | the registry and result are those of `WithoutEntity` |
| Engine.GameEngine.GetEntity | js/core/game-engine.js:156-158 | an entity is returned exactly when the id is registered, and it is the one stored under it |
| Engine.GameEngine.ClearEntities | js/core/game-engine.js:168-175 | the registry is empty |
| Engine.GameEngine.SetState | js/core/game-engine.js:67-136 | the engine's state, registry and calls become those of `Transition` |
| Engine.GameEngine.InitializeGameEntities | js/core/game-engine.js:183-208 | the opening layout is added in order with generated ids |
| Engine.GameEngine.CreateBricks | js/core/game-engine.js:211-229 | the grid is added row by row with generated ids |
| Engine.GameEngine.CreateRow | js/core/game-engine.js:222-228 | the bricks of one row are added column by column |
| Engine.GameEngine.UpdateEntities | js/core/game-engine.js:285-290 | the registry becomes `UpdateFrom` of the old one |
| Engine.GameEngine.RemoveDestroyedEntities | js/core/game-engine.js:310-320 | the registry becomes the survivors of the old one |
| Engine.GameEngine.DetectCollisions | js/core/game-engine.js:322-332 | the registry, combo and checked set become those of `Detect`; handlers and the switch are kept |
| Engine.GameEngine.CheckGameState | js/core/game-engine.js:389-424 | the engine becomes `Judged` of its old state |
| Engine.GameEngine.Update | js/core/game-engine.js:272-297 | nothing changes unless playing; while playing the engine becomes `Frame` of its old state |
| Engine.GameEngine.GameLoop | js/core/game-engine.js:242-269 | a stopped engine does nothing; a running one counts the frame, runs `update` with the clamped step and records the time |
| Engine.GameEngine.Advance | js/core/game-engine.js:245-265 | the clock records now, the fps counter becomes `Count` of the old one, and while playing the engine becomes `Frame` of its old state with the step clamped by `FixedStep`; otherwise the engine is unchanged |
| Engine.GameEngine.Tally | js/core/game-engine.js:248-255 | the fps counter becomes `Count` of the old one; the engine's state and collision checker are unchanged |
| Engine.GameEngine.Start | js/core/game-engine.js:232-236 | the engine is running with the clock at now, and the first frame runs with a zero step |
| Engine.GameEngine.Stop | js/core/game-engine.js:238-240 | the engine is not running |
| Engine.GameEngine.GetEntitiesByType | js/core/game-engine.js:160-162 | a body is listed exactly when some registered entity has it and its type is the one asked for, and the list is no longer than the registry |
| Engine.GameEngine.HasEntities | js/core/game-engine.js:164-166 | true exactly when some entity is registered; an empty registry has no balls and no bricks |
| Helpers.Clamp | js/utils/helpers.js:4-6 | for a proper range the result lies in [min, max]; a value inside is unchanged, one below gives min, one above gives max |
| Helpers.LerpEnds | js/utils/helpers.js:8-10 | interpolation gives the start at 0, the end at 1 and the midpoint at 0.5 |
| Helpers.DigitValue | js/utils/helpers.js:30-34 | a hexadecimal digit is worth less than 16 |
| Helpers.HexChar | js/utils/helpers.js:40 | `toString(16)` writes each digit as a lower-case hexadecimal character |
| Helpers.DigitValueOfHexChar | js/utils/helpers.js:30-40 | reading back a written digit gives the digit |
| Helpers.ByteOf | js/utils/helpers.js:32-34 | two hexadecimal digits give a value below 256 |
| Helpers.HexToRgb | js/utils/helpers.js:29-36 | a colour is parsed exactly when it is six hexadecimal digits with an optional leading '#', in either case, and each channel is below 256 |
| Helpers.HexDigits | js/utils/helpers.js:40 | a number is written as at least one lower-case hexadecimal digit |
| Helpers.HexDigitsStep | js/utils/helpers.js:40 | writing 16n + d is writing n and then the digit d |
| Helpers.ByteStep | js/utils/helpers.js:40 | writing 256n + c is writing n and then the two digits of c |
| Helpers.Packed | js/utils/helpers.js:40 | `(1 << 24) + (r << 16) + (g << 8) + b` for channels below 256 |
| Helpers.SevenDigits | js/utils/helpers.js:40 | the packed value is written as a '1' followed by the six digits of the three channels |
| Helpers.RgbToHex | js/utils/helpers.js:39-41 | the result is '#' and six lower-case hexadecimal digits |
| Helpers.HexRoundTrip | js/utils/helpers.js:29-41 | parsing the colour written for three channels below 256 gives back those channels |
| Helpers.Darken | js/utils/helpers.js:47-49 | a darkened channel is below 256, never brighter, lowered by the amount and floored at 0 |
| Helpers.DarkenColor | js/utils/helpers.js:43-52 | an hsl colour is returned as it is; any other colour becomes a seven-character hex colour |
| Helpers.DarkenColorChannels | js/utils/helpers.js:43-52 | each channel of the result is the source channel darkened by the amount, an unparseable colour counting as white |
| Helpers.FindFrom | js/utils/helpers.js:55-59 | the first occurrence of a pattern at or after a position, or -1 exactly when there is none |
| Helpers.ReplaceFirstAtStart | js/utils/helpers.js:55-59 | replacing a pattern the string starts with replaces that prefix |
| Helpers.ReplaceKeepsPrefix | js/utils/helpers.js:55-59 | replacing the first ')' keeps any prefix without ')' |
| Helpers.NatToString | js/utils/helpers.js:63 | a natural number is written as at least one decimal digit |
| Helpers.Rgba | js/utils/helpers.js:54-64 | an hsl colour becomes an hsla one, an rgb colour an rgba one, and anything else `rgba(r, g, b, alpha)` of its parsed channels, white when it does not parse |
| Helpers.RgbaClosed | js/utils/helpers.js:55-59 | for `pre + x + ")" + y` with `pre` "hsl" or "rgb" and no ')' in `x`, the result is `pre + "a" + x + ", " + alpha + ")" + y`, so an rgba colour gives "rgbaa(…, alpha)" |
| Helpers.RgbaUnclosed | js/utils/helpers.js:55-59 | an "hsl…" or "rgb…" colour with no ')' only gains the 'a' after its prefix |
| Helpers.ReplaceFirstClosing | js/utils/helpers.js:55 | replacing the first ')' of `x + ")" + y`, with no ')' in `x`, gives `x + q + y` |
| Helpers.ReplaceFirstUnclosed | js/utils/helpers.js:55 | a text without ')' is left as it is |
| Helpers.RandomIndexInRange | js/utils/helpers.js:70 | `Math.floor(Math.random() * (i + 1))` lies in 0..i |
| Helpers.Shuffle | js/utils/helpers.js:67-74 | the shuffled copy has the same length and the same elements with the same multiplicities |
| Helpers.IndexOf | js/utils/helpers.js:77 | `indexOf` is -1 exactly when the item is absent, and otherwise the position of its first occurrence |
| Helpers.Remove | js/utils/helpers.js:76-83 | the result is true exactly when the item occurs; then its first occurrence alone is removed, and otherwise the list is unchanged |
| Helpers.RemoveLastAdded | js/utils/helpers.js:76-83 | removing an item just appended to a list without it gives back the list |
| Helpers.IndexOfLastAdded | js/utils/helpers.js:77 | an item just appended to a list without it is found at the end |
| Helpers.Last | js/utils/helpers.js:85-87 | the last element, or nothing (undefined) exactly when the list is empty |
| Helpers.TimeParts | js/utils/helpers.js:90-93 | an hour or more shows hours and minutes, a minute or more minutes and seconds, anything less seconds alone; the parts add up to the seconds given |
| Helpers.FormatTime | js/utils/helpers.js:90-102 | from an hour up the text is "<h>시간 <m>분", from a minute up "<m>분 <s>초", and below a minute "<s>초", each number in decimal digits |
| Helpers.Lerp | js/utils/helpers.js:8-10 | for a factor in [0, 1] the result lies between start and end, whichever is larger |
| Helpers.ReplaceFirst | js/utils/helpers.js:55-59 | a string without the pattern is returned as it is; otherwise exactly the first occurrence is replaced and the text around it kept |
| Progress.WithCategory | js/data/game-data.js:41-44 | saving one category copies exactly that category of the live data into the store and leaves the other seven stored categories as they were |
| Progress.WithEveryCategory | js/data/game-data.js:34-39 | saving the eight categories one after another makes the store equal to the live data |
| Progress.Clamped | js/data/game-data.js:141-174 | `Math.max(lo, Math.min(hi, v))` lies in [lo, hi]; a value inside is kept, one below gives lo, one above gives hi |
| Progress.ClampedIdempotent | js/data/game-data.js:141-174 | clamping an already clamped value changes nothing |
| Progress.Credited | js/data/game-data.js:86-94 | the coin balance never goes below 0: it is the sum when that is non-negative and 0 otherwise |
| Progress.EarnThenSpend | js/data/game-data.js:86-94 | earning an amount and then spending the same amount gives back the starting balance |
| Progress.OverspendEmpties | js/data/game-data.js:86-94 | spending more than the balance leaves exactly 0 coins |
| Progress.Accrued | js/data/game-data.js:307-312 | adding score or playtime never lowers the total; a negative amount adds nothing |
| Progress.AccruedAllMonotone | js/data/game-data.js:307-323 | over any run of additions the total never drops and is at least the start plus any single positive amount |
| Progress.Reached | js/data/game-data.js:105-113 | setting the round stores it as current, keeps the highest round at least as large as both the old highest and the new round, and touches nothing else |
| Progress.HighestIsBestRound | js/data/game-data.js:105-113 | after any sequence of rounds the highest round is the maximum of the starting highest and every round set, and is one of them; it is never below the current round |
| Progress.Assigned | js/data/game-data.js:79-84 | `Object.assign` overwrites exactly the fields present in the update and keeps the others |
| Progress.AssignedIdempotent | js/data/game-data.js:79-84 | applying the same update twice is the same as once, and an empty update changes nothing |
| Progress.UpdateBypassesLivesClamp | js/data/game-data.js:79-84 | an update through `updatePlayerData` can store 0 lives, which `setMaxLives` would have raised to 1 |
| Progress.OwnedOfType | js/data/game-data.js:212-215 | the list for a type holds exactly the items owned under that type, and is the empty list for an unknown type |
| Progress.WithOwned | js/data/game-data.js:179-192 | adding reports true exactly when the item was not owned; the item is owned afterwards; on true it is appended to its type's list (created if missing), on false nothing changes |
| Progress.WithOwnedKeepsDuplicateFree | js/data/game-data.js:179-192 | adding an item never creates a duplicate in any list |
| Progress.WithoutOwned | js/data/game-data.js:194-205 | removing reports true exactly when the item was owned; then one occurrence leaves its list and nothing else; otherwise nothing changes |
| Progress.AddThenRemove | js/data/game-data.js:179-205 | adding a new item and removing it again restores the lists and reports success |
| Progress.RemoveOnly | js/data/game-data.js:194-205 | in a list without duplicates the removed item is no longer present |
| Progress.RemovedIsGone | js/data/game-data.js:194-205 | with duplicate-free lists a removed item is no longer owned |
| Progress.Equipped | js/data/game-data.js:217-227 | equipping succeeds exactly when the item is owned under that type; then only that slot changes, to the item; otherwise nothing changes |
| Progress.DefaultSlotNamesRefused | js/data/game-data.js:217-227 | with the default data the slot key `weapon` cannot be equipped because items are owned under `weapons`, while `weapons` itself can |
| Progress.Merged | js/data/game-data.js:275-279 | merging settings or game configuration keeps every old key, adds every new one, takes each updated value and keeps each untouched one |
| Progress.MissingLists | js/data/game-data.js:341-347 | one error per item type at most |
| Progress.MissingListsExact | js/data/game-data.js:341-347 | a type is reported exactly when it is one of the checked types and has no list |
| Progress.MissingListsStep | js/data/game-data.js:341-347 | one more checked type extends the errors found so far by that type's error, if any |
| Progress.ListErrors | js/data/game-data.js:341-347 | the loop over the item types collects exactly the missing lists, and none exactly when every type has a list |
| Progress.DataModelValid | js/data/storage-manager.js:11-64 | the default data passes validation: every item type has a list |
| Progress.Notices | js/data/game-data.js:387-398 | emitting calls every listener of the event once, in registration order, with the event's payload |
| Progress.OnChangeThenRemove | js/data/game-data.js:370-385 | registering a new listener and then removing it restores the listener table |
| Progress.DataModel | js/data/storage-manager.js:10-64 | the default record has no coins, no buffs and no passives, and every equipped item is owned |
| Progress.GameData.constructor | js/data/game-data.js:3-18 | the live data starts as the loaded store, with no listeners |
| Progress.GameData.SaveCategory | js/data/game-data.js:41-44 | the store receives the live copy of the named category |
| Progress.GameData.EmitChange | js/data/game-data.js:387-398 | the calls made are the listeners of the event, in order, each with the payload |
| Progress.GameData.UpdatePlayerData | js/data/game-data.js:79-84 | the player record takes the update's fields, the player category is saved and `player` is emitted |
| Progress.GameData.AddCoins | js/data/game-data.js:86-94 | the balance becomes the credited amount (never negative) and is returned, saved and emitted as `coins` |
| Progress.GameData.SetCurrentRound | js/data/game-data.js:105-113 | the round becomes current, the highest round never falls below it, and the change is saved and emitted as `round` |
| Progress.GameData.SetCurrentStage | js/data/game-data.js:119-124 | only the current stage changes; saved and emitted as `stage` |
| Progress.GameData.SetCharacterStage | js/data/game-data.js:126-130 | only the character stage changes; saved and emitted as `characterStage` |
| Progress.GameData.SetMaxLives | js/data/game-data.js:141-146 | the lives are clamped to [1, 10]; saved and emitted as `maxLives` |
| Progress.GameData.SetSpeedLevel | js/data/game-data.js:148-152 | the speed level is clamped to [0, 3]; saved and emitted |
| Progress.GameData.SetFireRateLevel | js/data/game-data.js:158-162 | the fire-rate level is clamped to [0, 3]; saved and emitted |
| Progress.GameData.SetBulletCount | js/data/game-data.js:168-172 | the bullet count is clamped to [1, 5]; saved and emitted |
| Progress.GameData.AddOwnedItem | js/data/game-data.js:179-192 | the owned lists follow `WithOwned`; only a real addition is saved and emitted |
| Progress.GameData.RemoveOwnedItem | js/data/game-data.js:194-205 | the owned lists follow `WithoutOwned`; only a real removal is saved and emitted |
| Progress.GameData.GetOwnedItemsByType | js/data/game-data.js:212-215 | the result holds exactly the items owned under the type |
| Progress.GameData.EquipItem | js/data/game-data.js:217-227 | the equipped slots follow `Equipped`; only a success is saved and emitted |
| Progress.GameData.GetEquippedItem | js/data/game-data.js:229-232 | an item is returned exactly when the slot is filled, and it is the slot's item |
| Progress.GameData.AddBuff | js/data/game-data.js:234-238 | the buff is present with the given value afterwards; saved and emitted as `buff` |
| Progress.GameData.RemoveBuff | js/data/game-data.js:240-244 | the buff is absent afterwards and the others stay; saved and emitted as `removedBuff` |
| Progress.GameData.AddPassive | js/data/game-data.js:254-258 | the passive is present with the given value afterwards; saved and emitted as `passive` |
| Progress.GameData.RemovePassive | js/data/game-data.js:260-264 | the passive is absent afterwards and the others stay; saved and emitted as `removedPassive` |
| Progress.GameData.UpdateSettings | js/data/game-data.js:275-279 | the settings are merged with the updates; saved and emitted as `settings` |
| Progress.GameData.SetSetting | js/data/game-data.js:285-290 | one setting takes the value; saved and emitted as `setting` |
| Progress.GameData.UpdateGameConfig | js/data/game-data.js:292-296 | the game configuration is merged with the updates; saved and emitted as `gameConfig` |
| Progress.GameData.AddScore | js/data/game-data.js:307-312 | the total score grows by the points when they are positive and is returned, saved and emitted |
| Progress.GameData.AddPlaytime | js/data/game-data.js:319-323 | the total playtime grows by the seconds when they are positive; saved and emitted |
| Progress.GameData.Validate | js/data/game-data.js:330-355 | valid exactly when every item type has a list, with one error per missing list |
| Progress.GameData.Reset | js/data/game-data.js:357-368 | resetting a category restores its defaults, saves and emits `reset`; resetting everything makes both the live data and the store the defaults and emits `resetAll` |
| Progress.GameData.OnChange | js/data/game-data.js:370-375 | the listener is appended to the event's list, which is created when missing |
| Progress.GameData.RemoveListener | js/data/game-data.js:377-385 | the first occurrence of the listener leaves the event's list; an unknown event changes nothing |
| Progress.GameData.HasBuff | js/data/game-data.js:246-248 | true exactly when the buff has an entry, whatever its value |
| Progress.GameData.HasPassive | js/data/game-data.js:266-268 | true exactly when the passive has an entry, whatever its value |
| Gameplay.Toggled | js/main-new.js:602-612 | pausing a playing game and resuming a paused one swap the two states; any other state is left alone; lives, combo and listeners never change, and the entities survive (a resume with no entities rebuilds them) |
| Gameplay.ToggleTwiceResumes | js/main-new.js:602-612 | toggling twice from play returns to play with the same entities, lives and combo, having emitted the pause and resume notifications in order |
| Gameplay.ResumeWithoutEntitiesRebuilds | js/main-new.js:602-612 | resuming a paused game that has no entities creates the initial paddle, ball and bricks |
| Gameplay.TogglePause | js/main-new.js:602-612 | the engine's state becomes `Toggled` of its old state; without an engine nothing happens |
| Gameplay.Bumped | js/main-new.js:29-51 | a combo hit counts one more and restarts the two-second expiry only when the combo popup exists |
| Gameplay.Cleared | js/main-new.js:54-67 | resetting the combo zeroes the count and cancels the expiry |
| Gameplay.ComboExpired | js/main-new.js:47-49 | at or after the deadline the combo is reset; before it, or with no deadline, nothing changes |
| Gameplay.ComboLastsTwoSeconds | js/main-new.js:29-67 | with the popup present, a hit keeps the combo alive for less than 2000 ms and resets it from 2000 ms on |
| Gameplay.NoPopupNoExpiry | js/main-new.js:38-50 | without the popup no timer is set, so the combo never expires |
| Gameplay.HasCdDown | js/main-new.js:89 | the cooldown buff counts only when a data store exists and holds the `cdDown` buff |
| Gameplay.CooldownMultiplier | js/main-new.js:89 | the multiplier is 0.8 with the buff and 1 without it |
| Gameplay.Duration | js/main-new.js:88-90 | every skill's cooldown is positive and never longer than its base cooldown |
| Gameplay.Remaining | js/main-new.js:91 | the remaining time is never negative nor above the duration, and is positive exactly while the elapsed time is below the duration |
| Gameplay.Percentage | js/main-new.js:93 | the overlay is 0 when nothing remains and otherwise the remaining share of the duration times 100 |
| Gameplay.OverlayBounds | js/main-new.js:86-94 | the overlay height stays within [0, 100] and is 0 once the whole cooldown has elapsed |
| Gameplay.ScaledBound | js/main-new.js:93 | a share of the duration scaled to 100 stays within [0, 100] |
| Gameplay.SkillSlots.constructor | js/main-new.js:598 | the slots start absent: the engine has no `skillCDs` until a game starts |
| Gameplay.SkillSlots.Link | js/main-new.js:598 | starting a game fills missing cooldowns with three zeros and keeps existing ones |
| Gameplay.SkillSlots.UseSkill | js/main-new.js:614-627 | using skill n backdates slot n-1 by half its cooldown and changes no other slot; without linked cooldowns the write is lost |
| Gameplay.SkillSlots.UpdateSkillCooldowns | js/main-new.js:77-96 | the loop computes, for each of the three slots, the overlay height of its cooldown at the current time |
| Gameplay.CooldownsOf | js/main-new.js:80 | missing cooldowns read as three zeros |
| Gameplay.HalfLeftAfterUse | js/main-new.js:86-94 | right after a skill is used its overlay shows exactly 50% |
| Gameplay.ReadyHalfCooldownAfterUse | js/main-new.js:86-94 | a used skill is ready again after half its cooldown |
| Gameplay.OrOne | js/main-new.js:678 | `x \|\| 1` keeps a non-zero number and turns 0 into 1 |
| Gameplay.StageReward | js/main-new.js:674-685 | the stage-clear reward is 50 + 20 per stage, at least 70 |
| Gameplay.RoundBonus | js/main-new.js:687-698 | the round-clear bonus is 500 + 200 per round, at least 700 |
| Gameplay.RewardsGrow | js/main-new.js:674-698 | each further stage adds 20 coins to the reward and each further round 200 to the bonus |
| Gameplay.ShowStageClear | js/main-new.js:674-685 | the reward follows the current stage (stage 1 without a store); with the label and the store, only the coins change, by the reward, the player category is saved and the coin listeners are notified; without the label nothing in the store changes |
| Gameplay.ShowRoundClear | js/main-new.js:687-698 | the bonus follows the current round (round 1 without a store); with the label and the store, only the coins change, by the bonus, the player category is saved and the coin listeners are notified; without the label nothing in the store changes |
| Gameplay.Overlay | js/main-new.js:86-94 | the overlay percentage is never negative, and it is positive exactly while the slot's cooldown, shortened by cdDown, has not elapsed |
| Input.Ids | js/utils/input-handler.js:170-174 | every identifier of the listed touches is in the set |
| Input.Started | js/utils/input-handler.js:149-157 | a touch start tracks every listed touch and keeps the touches already tracked |
| Input.Moved | js/utils/input-handler.js:160-167 | a move updates only touches already tracked and never changes their start times |
| Input.Ended | js/utils/input-handler.js:170-174 | a touch end forgets exactly the listed touches and keeps the others unchanged |
| Input.StartThenEndClears | js/utils/input-handler.js:149-174 | starting and then ending the same touches leaves nothing tracked |
| Input.MoveIgnoresUntracked | js/utils/input-handler.js:160-167 | moving a touch that was never started changes nothing |
| Input.NormalizedRange | js/utils/input-handler.js:131 | `(angle * 180 / PI + 360) % 360` lies in [0, 360): a non-negative angle is kept and a negative one gains 360 |
| Input.SwipeSectors | js/utils/input-handler.js:131-141 | a swipe is right for bearings in [-45, 45), down in [45, 135), left from 135 or below -135, and up in [-135, -45) |
| Input.GestureBegin | js/utils/input-handler.js:104-110 | a touch start records the first touch's time and position and raises the tap flag; with no touches listed only the start time changes, because `Date.now()` is stored before `touch.clientX` throws |
| Input.SwipeNeedsSpeedAndDistance | js/utils/input-handler.js:112-142 | a swipe is recorded exactly when the touch lasted under 500 ms and moved more than 50 pixels |
| Input.QuickTouchTaps | js/utils/input-handler.js:123-126 | a touch shorter than 200 ms that moved under 10 pixels is a tap with no swipe |
| Input.LongPressStillTaps | js/utils/input-handler.js:104-142 | a touch held 500 ms or longer still leaves the tap flag raised by its start |
| Input.Invocations | js/utils/input-handler.js:326-336 | emitting calls every callback of the event once, in registration order, with the event |
| Input.InputHandler.constructor | js/utils/input-handler.js:3-25 | no keys, touches or gestures, the mouse at (0, 0) released, and an empty callback list for each of the eight events, and the gesture start time and point at 0 (set up at js/utils/input-handler.js:100-102) |
| Input.InputHandler.Emit | js/utils/input-handler.js:326-336 | the calls made are the event's callbacks in order; an unknown event calls nothing |
| Input.InputHandler.On | js/utils/input-handler.js:311-315 | a callback is appended for a known event; an unknown event is ignored |
| Input.InputHandler.Off | js/utils/input-handler.js:317-324 | the first occurrence of the callback leaves a known event's list; an unknown event is ignored |
| Input.InputHandler.OnKeyDown | js/utils/input-handler.js:37-40 | the key is marked down and `keydown` is emitted |
| Input.InputHandler.OnKeyUp | js/utils/input-handler.js:42-45 | the key is marked up and `keyup` is emitted |
| Input.InputHandler.HandleTouchStart | js/utils/input-handler.js:149-157 | the loop tracks the listed touches as `Started` says |
| Input.InputHandler.HandleTouchMove | js/utils/input-handler.js:160-167 | the loop moves tracked touches as `Moved` says |
| Input.InputHandler.HandleTouchEnd | js/utils/input-handler.js:170-174 | the loop forgets the ended touches as `Ended` says |
| Input.InputHandler.OnTouchStart | js/utils/input-handler.js:50-54 | tracking, gesture start and `touchstart` emission, in that order |
| Input.InputHandler.OnTouchMove | js/utils/input-handler.js:56-60 | tracked touches move and `touchmove` is emitted |
| Input.InputHandler.OnTouchEnd | js/utils/input-handler.js:62-66 | the changed touches are forgotten, the gesture is classified and `touchend` is emitted |
| Input.InputHandler.OnTouchCancel | js/utils/input-handler.js:68-71 | a cancel forgets the changed touches without emitting anything |
| Input.InputHandler.OnMouseDown | js/utils/input-handler.js:76-79 | the mouse moves to the point pressed and `mousedown` is emitted |
| Input.InputHandler.OnMouseMove | js/utils/input-handler.js:81-84 | the mouse moves without changing its pressed state and `mousemove` is emitted |
| Input.InputHandler.OnMouseUp | js/utils/input-handler.js:86-89 | the mouse moves to the point released and `mouseup` is emitted |
| Input.InputHandler.OnMouseLeave | js/utils/input-handler.js:92-95 | leaving releases the mouse where it was and emits `mouseup` |
| Input.InputHandler.GetTouchPosition | js/utils/input-handler.js:213-216 | a position is returned exactly for a tracked touch, and it is that touch's position |
| Input.InputHandler.GetRelativePosition | js/utils/input-handler.js:222-240 | with touches active the result is touch 0's offset from the element, or none; otherwise the pressed mouse's offset, or none when released |
| Input.InputHandler.DidTap | js/utils/input-handler.js:243-247 | returns the tap flag and clears it, leaving the swipe |
| Input.InputHandler.GetSwipe | js/utils/input-handler.js:249-253 | returns the swipe and clears it, leaving the tap flag |
| Input.InputHandler.DirectionPressed | js/utils/input-handler.js:256-282 | a direction is pressed when one of its keys is down or the pending swipe is that direction; the swipe is consumed only when no key is down |
| Input.InputHandler.IsLeftPressed | js/utils/input-handler.js:256-261 | left is ArrowLeft, a, A or a left swipe; the swipe is read only when no key is down; after a key press the gestures are left as they were, otherwise the swipe is cleared |
| Input.InputHandler.IsRightPressed | js/utils/input-handler.js:263-268 | right is ArrowRight, d, D or a right swipe; the swipe is read only when no key is down; after a key press the gestures are left as they were, otherwise the swipe is cleared |
| Input.InputHandler.IsUpPressed | js/utils/input-handler.js:270-275 | up is ArrowUp, w, W or an up swipe; the swipe is read only when no key is down; after a key press the gestures are left as they were, otherwise the swipe is cleared |
| Input.InputHandler.IsDownPressed | js/utils/input-handler.js:277-282 | down is ArrowDown, s, S or a down swipe; the swipe is read only when no key is down; after a key press the gestures are left as they were, otherwise the swipe is cleared |
| Input.InputHandler.IsFirePressed | js/utils/input-handler.js:284-289 | fire is space, z, Z or a pending tap; the tap is consumed only when no key is down |
| Input.InputHandler.Reset | js/utils/input-handler.js:339-344 | no keys, touches or gestures remain and the mouse is at (0, 0) released |
| Input.InputHandler.Pause | js/utils/input-handler.js:347-350 | the handler is marked paused |
| Input.InputHandler.Resume | js/utils/input-handler.js:352-356 | the handler is unpaused and its input state reset |
| Input.InputHandler.IsKeyDown | js/utils/input-handler.js:197-199 | a key never pressed is not down, and a key that is down makes `isAnyKeyDown` true |
| Input.InputHandler.IsAnyKeyDown | js/utils/input-handler.js:201-203 | true exactly when some key's flag is true; with no key recorded it is false |
| Input.InputHandler.IsTouchActive | js/utils/input-handler.js:205-207 | true exactly when some touch is tracked; with none, `getTouchPosition(0)` finds nothing |
| Input.InputHandler.IsPausePressed | js/utils/input-handler.js:291-295 | true exactly when Escape, p or P is down, and then some key is down |
| Input.InputHandler.IsSkillPressed | js/utils/input-handler.js:298-308 | skill n is pressed only for n in 1..3, exactly when the digit key n is down |
| Input.OnThenOff | js/utils/input-handler.js:311-324 | registering a new callback and removing it again restores the callback table |
| Input.Normalized | js/utils/input-handler.js:131 | an angle above −360° is brought into [0, 360); one below stays in (−360, 0], as JavaScript's `%` keeps the sign |
| Input.Classify | js/utils/input-handler.js:133-141 | on [0, 360) each direction owns the quarter turn centred on its axis: right around 0°/360°, down around 90°, left around 180°, up around 270° |
| Input.GestureFinish | js/utils/input-handler.js:112-144 | a touch end without a changed touch, or one 500 ms or more after the start, leaves the gestures as they were; a change leaves either a swipe or a tap, never both; a touch under 500 ms that moved more than 50 px sets the swipe to the sector of its bearing and clears the tap |
| Input.SwipeDirection | js/utils/input-handler.js:129-141 | for such a swipe the direction is right, down, left or up exactly when the bearing lies in that direction's sector, and no tap is left |
| Performance.Create | js/utils/performance-optimizer.js:53-84 | only the `particle` and `bullet` pools exist; a new object is of the pool's kind and inactive |
| Performance.Recycled | js/utils/performance-optimizer.js:60-64 | a returned object is inactive; a particle gets back every field it was created with, a bullet only its position and its speed (0, -10) |
| Performance.BulletResetKeepsUpgrades | js/utils/performance-optimizer.js:79-82 | a returned bullet keeps its size, colour, damage and piercing |
| Performance.FirstInactive | js/utils/performance-optimizer.js:90 | `find(o => !o.active)` gives the first inactive object, or none when all are active |
| Performance.FirstInactiveAt | js/utils/performance-optimizer.js:90 | an inactive object with only active objects before it is the one found |
| Performance.Taken | js/utils/performance-optimizer.js:86-99 | taking reuses the first inactive object, else appends a new one; the object handed out is active, and every slot keeps its kind |
| Performance.ReuseBeforeGrowth | js/utils/performance-optimizer.js:86-99 | while some object is inactive the pool does not grow and the object handed out is no later than it |
| Performance.TakeThenReturn | js/utils/performance-optimizer.js:86-107 | an object taken and returned is the next one handed out, without growing the pool |
| Performance.InactiveOnly | js/utils/performance-optimizer.js:386 | an object is kept exactly when it is in the pool and inactive |
| Performance.InactiveOnlyAppend | js/utils/performance-optimizer.js:386 | the filter distributes over concatenation, and one object is kept exactly when inactive — so every inactive object is kept, in pool order |
| Performance.Trimmed | js/utils/performance-optimizer.js:386 | collection keeps at most 20 objects, all inactive: the last `min(20, n)` of the `n` inactive ones, in pool order |
| Performance.TrimmedKeepsKind | js/utils/performance-optimizer.js:383-387 | trimming a pool never brings in an object of another kind |
| Performance.AverageFps | js/utils/performance-optimizer.js:140-145 | the average is 60 for an empty history and otherwise the sum over the count |
| Performance.SumBounds | js/utils/performance-optimizer.js:143 | the sum of samples within [lo, hi] lies between count times lo and count times hi |
| Performance.AverageBetween | js/utils/performance-optimizer.js:140-145 | the average of samples within [lo, hi] is within [lo, hi] |
| Performance.MeanBounds | js/utils/performance-optimizer.js:144 | a mean whose count-multiple lies in [count lo, count hi] lies in [lo, hi] |
| Performance.SteadyAverage | js/utils/performance-optimizer.js:140-145 | a history of identical samples averages to that sample |
| Performance.Recorded | js/utils/performance-optimizer.js:126-131 | a sample is appended, the oldest dropped once the history would exceed 60, and the newest sample is last |
| Performance.RecordedShifts | js/utils/performance-optimizer.js:126-131 | on a full history every sample moves one place towards the front and the length stays 60 |
| Performance.Settings | js/utils/performance-optimizer.js:192-199 | the quality keeps the scale and effects flag and turns antialiasing on exactly for a scale above 0.8 |
| Performance.QualityFor | js/utils/performance-optimizer.js:166-189 | only the levels `minimal`, `balanced` and `quality` set anything |
| Performance.LevelTable | js/utils/performance-optimizer.js:166-189 | the three levels give scale 0.5/0.8/1.0, effects off/on/on, antialiasing off/off/on, 50/100/200 entities and 10/25/50 particles |
| Performance.AutoLevel | js/utils/performance-optimizer.js:366-380 | below 45 fps the level is minimal, below 55 balanced, from 58 quality, and in between it stays |
| Performance.AutoLevelHysteresis | js/utils/performance-optimizer.js:366-380 | frame rates in [55, 58) never change the level |
| Performance.Capped | js/utils/performance-optimizer.js:321-335 | without a limit the list is unchanged; otherwise it is the list's first elements, no more than the limit, and all of them when fewer |
| Performance.Fresh | js/utils/performance-optimizer.js:262-264 | exactly the regions younger than 100 ms are kept |
| Performance.TouchingIsClean | js/utils/performance-optimizer.js:268-277 | a rectangle that only touches a dirty region's edge does not overlap it |
| Performance.SampleOf | js/utils/performance-optimizer.js:125 | the sample times the frame time is 1000 for a non-zero frame time, positive for a positive one, and 0 for a zero frame time |
| Performance.PerformanceOptimizer.constructor | js/utils/performance-optimizer.js:3-32 | 60 fps, an empty history, level `balanced` with no quality applied, two empty pools, dirty rectangles on, and frame time, last frame time, draw calls and entity count at 0 |
| Performance.PerformanceOptimizer.GetFromPool | js/utils/performance-optimizer.js:86-99 | an unknown pool gives nothing; otherwise the pool becomes `Taken` of itself and the index handed out is that object's |
| Performance.PerformanceOptimizer.ReturnToPool | js/utils/performance-optimizer.js:101-107 | the object at the index is recycled and nothing else changes |
| Performance.PerformanceOptimizer.BeginFrame | js/utils/performance-optimizer.js:109-120 | the frame time is the time since the last frame, the draw calls restart at 0 and the frame count grows by one |
| Performance.PerformanceOptimizer.EndFrame | js/utils/performance-optimizer.js:122-138 | every tenth frame records 1000 / frame time and the fps becomes the history's average; other frames change neither |
| Performance.PerformanceOptimizer.CalculateAverageFps | js/utils/performance-optimizer.js:140-145 | the average of the history, or 60 when it is empty |
| Performance.PerformanceOptimizer.SetOptimizationLevel | js/utils/performance-optimizer.js:160-163 | the level is stored and its quality applied; an unknown level keeps the old quality |
| Performance.PerformanceOptimizer.ApplyOptimizations | js/utils/performance-optimizer.js:166-189 | the quality becomes the current level's; an unknown level changes nothing |
| Performance.PerformanceOptimizer.AutoOptimize | js/utils/performance-optimizer.js:366-380 | the level follows `AutoLevel` of the current fps and its quality is applied unless the fps is in [55, 58) |
| Performance.PerformanceOptimizer.LimitEntities | js/utils/performance-optimizer.js:321-328 | the entities are capped at the current limit, and the count is recorded only when a limit applies |
| Performance.PerformanceOptimizer.LimitParticles | js/utils/performance-optimizer.js:331-335 | without a positive limit the list is returned as it is; with one, the result is the first `min(n, limit)` particles |
| Performance.PerformanceOptimizer.MarkDirtyRegion | js/utils/performance-optimizer.js:252-265 | the new region is added and regions 100 ms old or older are dropped; a region of positive size then reads as dirty |
| Performance.PerformanceOptimizer.GarbageCollect | js/utils/performance-optimizer.js:383-396 | each pool keeps at most its last 20 inactive objects and the dirty regions are cleared |
| Performance.PerformanceOptimizer.IsDirtyRegion | js/utils/performance-optimizer.js:268-277 | without dirty rectangles every region is dirty; with them, a region is dirty exactly when it overlaps some recorded region |
| Performance.PerformanceOptimizer.MaxEntities | js/utils/performance-optimizer.js:166-189 | a limit exists exactly when a level was applied, and it is 50, 100 or 200 |
| Performance.PerformanceOptimizer.MaxParticles | js/utils/performance-optimizer.js:166-189 | a limit exists exactly when a level was applied, and it is 10, 25 or 50 |
| Admin.Fixed | admin.js:446-448 | `parseFloat(x.toFixed(d))` lies within half a unit of the last kept digit of x |
| Admin.RoundedUp | admin.js:446-448 | rounding half up at a scale of at least 1 moves a value by at most half a step |
| Admin.WithinHalf | admin.js:446-448 | the rounded numerator over the scale is within half a step of the value |
| Admin.OrDefault | admin.js:380-412 | `parseInt(v) \|\| d` keeps a non-zero number and gives the default for an empty field or 0 |
| Admin.ZeroInputsFallBack | admin.js:380-412 | typing 0 for coins, round or lives stores the default (0, 1, 4) instead |
| Admin.Range | admin.js:466 | the keys 1..n, with exactly n of them |
| Admin.Least | admin.js:466 | the smallest key of a non-empty table |
| Admin.Greatest | admin.js:441-443 | `Math.max(...keys)` is a key and no key is larger |
| Admin.SortedKeys | admin.js:466 | `sort((a, b) => a - b)` lists every key once, in strictly ascending order |
| Admin.NextStage | admin.js:445-450 | a new stage has one more row up to 8, the same columns up to 9, speed up to 8, strength up to 0.5 and explosion chance down to 0.02 |
| Admin.NextStageHarder | admin.js:440-455 | within those caps a new stage is never easier than the last one |
| Admin.DefaultTop | admin.js:53-61 | the default table's highest stage is 7 |
| Admin.EighthDefaultStage | admin.js:53-61 | adding to the defaults creates stage 8 with 6 rows, 7 columns, speed 5.1, strength 0.21 and explosion chance 0.05 |
| Admin.Numbered | admin.js:463-468 | listing the kept keys gives stages numbered 1..n in that order |
| Admin.Renumbered | admin.js:463-471 | after a removal the stages are numbered 1..n in ascending order of their old keys |
| Admin.RenumberedKeepsOrder | admin.js:463-471 | renumbering keeps the relative order of any two stages |
| Admin.RenumberedContiguous | admin.js:463-471 | a table already numbered 1..n is unchanged by renumbering |
| Admin.RemoveFromContiguous | admin.js:457-476 | removing stage k from 1..n numbers the rest 1..n-1, stages before k keep their number and later ones move down by one |
| Admin.Ids | admin.js:623-631 | the ids are exactly those of the listed items |
| Admin.PriceMap | admin.js:623-631 | the price table has exactly one key per item id |
| Admin.PriceMapOfUnique | admin.js:623-631 | with unique ids every item's price is the one listed for its id |
| Admin.Repriced | admin.js:98-106 | overlaying a saved price never changes an item's id |
| Admin.OverlaidItems | admin.js:98-106 | every item is repriced in place, in order |
| Admin.Overlaid | admin.js:98-106 | every category keeps its place and only its items are repriced |
| Admin.OverlayPrices | admin.js:98-106 | after loading saved prices an item shows the saved price when there is one and its default otherwise, and no id is added or lost |
| Admin.Saved | admin.js:633-647 | saving writes every field of the player record except the stage |
| Admin.UnlockedOwnsAll | admin.js:546-552 | unlocking marks every shop item owned and keeps other owned entries |
| Admin.AdminPanel.constructor | admin.js:3-22 | the record starts with the default progress and the tables start from the defaults with the saved stages and prices applied |
| Admin.AdminPanel.LoadDefaultConfigs | admin.js:51-112 | the stages are the saved table when there is one and the defaults otherwise; the shop is the default shop with the saved prices laid over it |
| Admin.AdminPanel.SaveGameData | admin.js:633-647 | the store receives the record's saved fields |
| Admin.AdminPanel.AddCoins | admin.js:373-378 | the coins grow by the amount, with no lower bound, and are saved |
| Admin.AdminPanel.SetCoins | admin.js:380-385 | the coins become the field's value, or 0 for empty or 0 |
| Admin.AdminPanel.SetProgress | admin.js:387-393 | round, character stage and lives take the fields' values with defaults 1, 0 and 4 |
| Admin.AdminPanel.ResetProgress | admin.js:395-404 | round 1, character stage 0 and 4 lives, saved |
| Admin.AdminPanel.SetAbilities | admin.js:406-412 | speed, fire rate and bullet count take the fields' values with defaults 0, 0 and 1 |
| Admin.AdminPanel.MaxAbilities | admin.js:564-571 | 6 lives, speed and fire rate 3 and 5 bullets, saved |
| Admin.AdminPanel.UnlockAll | admin.js:546-562 | every shop item owned, the four skill buffs and two passives set, abilities at their maxima, saved |
| Admin.AdminPanel.AddStage | admin.js:440-455 | the new stage takes the number after the highest and follows `NextStage` of the highest; an empty table gains nothing |
| Admin.AdminPanel.RemoveStage | admin.js:457-476 | with more than one stage the key is dropped and the rest renumbered; the last stage is never removed |
| Admin.AdminPanel.GetPricesObj | admin.js:623-631 | the loops build the price table of every shop item |
| Admin.AllItemsOverlaid | admin.js:98-106 | repricing the shop and then listing its items is the same as repricing the listed items |
| Admin.PriceMapOverlaid | admin.js:98-106 | an id's price after the overlay is the saved one when saved and the old one otherwise |
| Admin.DefaultStages | admin.js:53-61 | the stages are numbered 1..7 and each is harder than the one before: no fewer rows or columns, a faster ball, more strong and no more explosive bricks |
| Admin.DefaultShopUnique | admin.js:64-89 | no item id appears twice in the shop, so the price list gives every item its own price |
| Admin.DefaultShopFreeOwned | admin.js:64-89 | every item the shop prices at 0 is one a new player already owns |
| Admin.DefaultRecord | admin.js:5-18 | every equipped item is owned, and a new player has no buffs and no passives |
| Admin.Unlocked | admin.js:547-551 | every id owned before is still present and every listed item is marked owned |

## Left out

**Outside the model**
- Rendering: every `render*` / `draw*` method, `renderDebug`, the renderers, `Ball.setRainbow` and the particle visuals. Only a brick's particle lives are kept.
- Engine.Respond: each ball–brick response also calls `createParticles` (js/core/game-engine.js:364), which registers 8 `Particle` entities through `addEntity` (js/core/game-engine.js:427-438). The model leaves these registry additions out, because `Particle` is not part of this model and its velocities are random. So where the model keeps the number of entities, the source's registry grows by 8 per ball–brick response; the same holds for `Engine.RespondAll` and `Engine.Frame`.
- Sound, vibration, the service worker and the DOM: screens, toasts, tabs, buttons and the `adminBtn` wiring.
- Timers and the clock:
  - `setTimeout` expiries are explicit steps (`ExpireWiden`, `ExpireBoost`, `ExpireActivate`, `Gameplay.ComboExpired`);
  - `requestAnimationFrame` is one `GameLoop` call per frame;
  - `Date.now` / `performance.now` are read once per call, as `now`.
- Randomness and trigonometry: random ids, the random launch angle, `Utils.randomRange` / `randomInt`, shuffle's swap indices and `atan2` / `sin` / `cos` are inputs.
- Square roots: distances are compared squared, or the root is an argument with its defining property.
- Contacts.BallBrickTest: the record's penetration is the squared distance, where js/systems/collision.js:173 stores its square root. No handler reads that field.
- Helpers.TimeParts / Helpers.FormatTime: only whole, non-negative seconds are modelled (`nat`). `formatTime` (js/utils/helpers.js:90-102) takes any number, so `formatTime(5.5)` gives "5.5초" and `formatTime(-5)` gives "-5초"; those texts are not modelled.
- Brick `giveReward`'s random coin bonus and `dropItem`'s item spawn: they use `Math.random` and the `Item` class, which is not part of this model. Only the score each reward adds is kept.
- Physics `lineCircleCollision`: it reassigns a `const` (js/systems/physics.js:244), so it throws whenever the discriminant is non-negative, and it needs a square root.
- Physics `circleRectCollision`: it divides its normal by a square root.
- The input and audio systems the engine registers (`InputControllerSystem`, `AudioSystem`): their classes are not part of this model.
- The systems step of `update`: as described above, it changes nothing in the source.

**Engine, input, performance and admin parts not modelled**
- Game engine `setupCanvas`, `handleResize`, `handleVisibilityChange`, `getPerformanceInfo`, `debug` and `destroy`: canvas and page plumbing.
- Storage manager: migration, versioning and `localStorage` access. The store is abstract (`Progress.GameData.stored`) with the defaults of `Progress.DataModel`.
- Input handler `paused`: it is set by `pause` / `resume` but never consulted, as in the source.
- Input handler `debug` and `destroy`.
- Performance optimizer:
  - offscreen canvas;
  - memory usage;
  - `calculateFPSStability`, which needs a square root;
  - `optimizeRendering`, `optimizePhysics`, `optimizeForDevice`, `detectLowEndDevice`, `testCanvasPerformance`;
  - `getMetrics`, `debug`, `getPerformanceReport`, `getRecommendations`.
- Admin panel:
  - `loadGameData`, `savePrices`, `resetPrices`, `saveStages`, `resetStages`, `exportData`, `importData`, `resetAllData`, `backupData`, `restoreData`: they read the DOM, files or `localStorage` directly;
  - shop items keep only their id and price;
  - `toFixed` is modelled on exact reals, by its rounding bound.

**Contracts weaker than, or different from, the source**
- Admin.AdminPanel.AddStage: on an empty table the source throws, because `Math.max()` of nothing gives `-Infinity`; the model returns `None` and changes nothing.
- Admin.AdminPanel.constructor: starts from the default record instead of reading the saved one (`loadGameData` is left out).
- Helpers.Remove: returns the shortened list instead of splicing the caller's array in place.
- Progress.GameData.Validate: the player's numbers are integers in the model, so the two `typeof … !== 'number'` checks always pass, and only the four item lists are checked.
- Gameplay.SkillSlots.UseSkill: a skill number outside 1..3 changes nothing; the source writes a `NaN` entry at an index no slot reads (index 3 lengthens the array).
- Performance.PerformanceOptimizer.ReturnToPool: the object is named by its index in the pool; returning an object from elsewhere is not modelled.
- Performance.PerformanceOptimizer.EndFrame: a zero frame time records 0 instead of `Infinity`.
- Balls.BounceDx: a paddle of half-width 0 gives `dx` 0, where js/entities/ball.js:282 divides by zero and yields `NaN` or an infinity; the game's paddle is 80 wide and is never resized, so the case does not arise in play.
- Engine.Aimed: a paddle of width 0 keeps the ball's old `dx`, where js/core/game-engine.js:345 divides by zero; the game's paddle is 80 wide and `setSize` is never called.
- Balls.ValidAim: requires a positive magnitude, so `launch(0, 0)` is outside the model; js/entities/ball.js:127-130 would divide by a zero magnitude and give a `NaN` velocity. The game only calls `launch` with no arguments (the random-angle branch).
- Contacts.BallWallTest: the canvas is fixed at 800 by 600, the fallback of js/systems/collision.js:183, instead of being read from `wall.canvas`; a wall carrying a canvas of another size is not modelled.
- Physics.PhysicsSystem: the set of registered bodies is a sequence of values, while js/systems/physics.js:12-19 keeps a `Set` of object references; the sharing of one object between the physics set and the engine's entity list (aliasing) is not captured.
- Engine.GameEngine.CheckGameState: the lives are a field of the engine, copied from the stored `maxLives` once, when the engine is built. The source reads `gameData.getPlayerData().maxLives` afresh at each check (js/core/game-engine.js:401, 417), so a change to the store after the engine is built (the engine is built once, at js/main-new.js:163) is seen there and missed here. The decrement's `updatePlayerData` call (js/core/game-engine.js:418) also saves the `player` category and emits a `player` change (js/data/game-data.js:79-83); the model lowers only its own counter. `Progress.GameData.UpdatePlayerData` models that call on the store.
- Engine.GameEngine.ClearEntities: the `destroy()` call on each entity (js/core/game-engine.js:168-175) is left out. No part of this model keeps an entity once it leaves the registry, so its `destroyed` flag cannot be observed afterwards.
