/**
 * The page-level gameplay rules around the engine: the pause toggle, the
 * combo counter with its two-second expiry, the skill cooldown slots, and
 * the coin rewards for clearing a stage or a round.
 *
 * The clock (`Date.now()`) is a parameter `now`, in milliseconds; the
 * combo timer is an explicit deadline checked by `ComboExpired`.
 */
module Gameplay {
  import opened Options
  import opened Bodies
  import opened Handlers
  import opened Engine
  import Progress

  // ------------------------------------------------------------ pause

  /** `togglePause` on the engine's state: playing and paused swap, anything else stays. */
  function Toggled(s: EngineState, width: real, height: real, gen: nat -> string): (r: EngineState)
    ensures s.state == "playing" ==> r.state == "paused" && r.entities == s.entities
    ensures s.state == "paused" ==> r.state == "playing" && (s.entities != [] ==> r.entities == s.entities)
    ensures s.state != "playing" && s.state != "paused" ==> r == s
    ensures r.lives == s.lives && r.combo == s.combo && r.listeners == s.listeners
  {
    if s.state == "playing" then Transition(s, "paused", width, height, gen).0
    else if s.state == "paused" then Transition(s, "playing", width, height, gen).0
    else s
  }

  /**
   * Pausing and resuming returns to play with the same entities, after
   * telling listeners of both state changes and of the pause.
   */
  lemma ToggleTwiceResumes(s: EngineState, width: real, height: real, gen: nat -> string)
    requires s.state == "playing" && s.entities != []
    ensures var r := Toggled(Toggled(s, width, height, gen), width, height, gen);
            r.state == "playing" && r.entities == s.entities && r.lives == s.lives && r.combo == s.combo
            && r.calls == s.calls + Emitted(s.listeners, "stateChange", StateChange("playing", "paused"))
                                  + Emitted(s.listeners, "pause", NoData)
                                  + Emitted(s.listeners, "stateChange", StateChange("paused", "playing"))
  {
    var p := Toggled(s, width, height, gen);
    assert p == Transition(s, "paused", width, height, gen).0;
    assert Toggled(p, width, height, gen) == Transition(p, "playing", width, height, gen).0;
  }

  /**
   * Resuming with an empty registry runs the playing entry action, which
   * lays out a fresh opening board.
   */
  lemma ResumeWithoutEntitiesRebuilds(s: EngineState, width: real, height: real, gen: nat -> string)
    requires s.state == "paused" && s.entities == []
    ensures Toggled(s, width, height, gen).entities == WithEntities([], InitialBodies(width, height), gen, 0)
  {
  }

  /** `togglePause()`: nothing without an engine. */
  method TogglePause(engine: GameEngine?, gen: nat -> string)
    requires engine != null ==> engine.Valid()
    modifies engine
    ensures engine != null ==> engine.Valid()
    ensures engine != null ==> engine.Snap() == Toggled(old(engine.Snap()), engine.canvasWidth, engine.canvasHeight, gen)
  {
    if engine == null {
      return;
    }
    var currentState := engine.state;
    if currentState == "playing" {
      var _ := engine.SetState("paused", gen);
    } else if currentState == "paused" {
      var _ := engine.SetState("playing", gen);
    }
  }

  // ------------------------------------------------------------ combo

  /** The page's combo counter and the deadline of its pending reset timer, if one is armed. */
  datatype ComboClock = ComboClock(count: nat, deadline: Option<real>)

  const ComboWindow: real := 2000.0

  /**
   * `increaseCombo` at time `now`: one more, the old timer cleared, and a
   * new two-second timer armed only when the combo popup exists.
   */
  function Bumped(c: ComboClock, now: real, hasPopup: bool): (r: ComboClock)
    ensures r.count == c.count + 1
    ensures hasPopup ==> r.deadline == Some(now + ComboWindow)
    ensures !hasPopup ==> r.deadline == None
  {
    ComboClock(IncreaseCombo(c.count), if hasPopup then Some(now + ComboWindow) else None)
  }

  /** `resetGameCombo`: zero, with no timer pending. */
  function Cleared(c: ComboClock): (r: ComboClock)
    ensures r.count == 0 && r.deadline == None
  {
    ComboClock(ResetCombo(c.count), None)
  }

  /** The timer firing: at or after its deadline the combo resets. */
  function ComboExpired(c: ComboClock, now: real): (r: ComboClock)
    ensures c.deadline.Some? && now >= c.deadline.value ==> r == Cleared(c)
    ensures c.deadline.None? || now < c.deadline.value ==> r == c
  {
    if c.deadline.Some? && now >= c.deadline.value then Cleared(c) else c
  }

  /** A combo that is not extended for two seconds falls back to zero; before that it holds. */
  lemma ComboLastsTwoSeconds(c: ComboClock, t: real, later: real)
    requires t <= later
    ensures later >= t + ComboWindow ==> ComboExpired(Bumped(c, t, true), later).count == 0
    ensures later < t + ComboWindow ==> ComboExpired(Bumped(c, t, true), later).count == c.count + 1
  {
  }

  /** Without the popup no timer is armed, so the combo only resets on a wall hit. */
  lemma NoPopupNoExpiry(c: ComboClock, t: real, later: real)
    ensures ComboExpired(Bumped(c, t, false), later).count == c.count + 1
  {
  }

  // ------------------------------------------------------------ skill cooldowns

  const BaseCooldowns: seq<real> := [8000.0, 10000.0, 12000.0]

  /** `gameData?.hasBuff('cdDown')`: false without a data store. */
  function HasCdDown(store: Progress.GameData?): (b: bool)
    reads store
    ensures b <==> store != null && "cdDown" in store.data.buffs
  {
    store != null && store.HasBuff("cdDown")
  }

  /** The `cdDown` buff shortens every cooldown to 80%. */
  function CooldownMultiplier(cdDown: bool): (m: real)
    ensures 0.0 < m <= 1.0
    ensures cdDown <==> m < 1.0
  {
    if cdDown then 0.8 else 1.0
  }

  function Duration(slot: nat, cdDown: bool): (d: real)
    requires slot < |BaseCooldowns|
    ensures d > 0.0
    ensures d <= BaseCooldowns[slot]
  {
    BaseCooldowns[slot] * CooldownMultiplier(cdDown)
  }

  /** Time still to wait: never negative, never more than the duration once the slot's time has passed. */
  function Remaining(duration: real, elapsed: real): (r: real)
    ensures r >= 0.0
    ensures elapsed >= 0.0 && duration >= 0.0 ==> r <= duration
    ensures r > 0.0 <==> elapsed < duration
    ensures r > 0.0 ==> r + elapsed == duration
  {
    if duration - elapsed > 0.0 then duration - elapsed else 0.0
  }

  /** The height of the cooldown overlay, in percent. */
  function Percentage(remaining: real, duration: real): (p: real)
    requires duration > 0.0
    ensures remaining <= 0.0 ==> p == 0.0
    ensures remaining > 0.0 ==> p * duration == remaining * 100.0
  {
    if remaining > 0.0 then remaining / duration * 100.0 else 0.0
  }

  /** The overlay shown for slot `slot` whose last use is recorded as `cd`. */
  function Overlay(slot: nat, cd: real, now: real, cdDown: bool): (p: real)
    requires slot < |BaseCooldowns|
    ensures p >= 0.0
    ensures p > 0.0 <==> now - cd < Duration(slot, cdDown)
  {
    var duration := Duration(slot, cdDown);
    Percentage(Remaining(duration, now - cd), duration)
  }

  /** The overlay stays within [0, 100] once the slot's recorded time has passed, and empties when the cooldown is over. */
  lemma OverlayBounds(slot: nat, cd: real, now: real, cdDown: bool)
    requires slot < |BaseCooldowns| && now >= cd
    ensures 0.0 <= Overlay(slot, cd, now, cdDown) <= 100.0
    ensures now - cd >= Duration(slot, cdDown) ==> Overlay(slot, cd, now, cdDown) == 0.0
  {
    var duration := Duration(slot, cdDown);
    var remaining := Remaining(duration, now - cd);
    if remaining > 0.0 {
      ScaledBound(Percentage(remaining, duration), duration, remaining);
    }
  }

  /** A share `x` of `d`, scaled to percent, lies in [0, 100]. */
  lemma ScaledBound(p: real, d: real, x: real)
    requires d > 0.0 && 0.0 <= x <= d && p * d == x * 100.0
    ensures 0.0 <= p <= 100.0
  {
  }

  /**
   * `gameEngine.skillCDs`: the time each of the three skills was last
   * charged, absent until a game starts.
   */
  class SkillSlots {
    var cds: Option<seq<real>>

    ghost predicate Valid()
      reads this
    {
      cds.Some? ==> |cds.value| == |BaseCooldowns|
    }

    constructor()
      ensures Valid() && cds == None
    {
      cds := None;
    }

    /** `startGame`'s `skillCDs = skillCDs || [0, 0, 0]`. */
    method Link()
      requires Valid()
      modifies this
      ensures Valid()
      ensures old(cds).Some? ==> cds == old(cds)
      ensures old(cds).None? ==> cds == Some([0.0, 0.0, 0.0])
    {
      if cds.None? {
        cds := Some([0.0, 0.0, 0.0]);
      }
    }

    /**
     * `useSkill(n)` at time `now`: slot n-1 is backdated by half its
     * cooldown, so only half the wait remains. Without linked slots the
     * source writes into a temporary array that is dropped.
     */
    method UseSkill(n: int, now: real, cdDown: bool)
      requires Valid()
      modifies this
      ensures Valid()
      ensures old(cds).Some? && 1 <= n <= |BaseCooldowns|
              ==> cds == Some(old(cds).value[n - 1 := now - Duration(n - 1, cdDown) * 0.5])
      ensures old(cds).None? || n < 1 || n > |BaseCooldowns| ==> cds == old(cds)
    {
      if cds.Some? && 1 <= n <= |BaseCooldowns| {
        var skillCDs := cds.value;
        skillCDs := skillCDs[n - 1 := now - BaseCooldowns[n - 1] * CooldownMultiplier(cdDown) * 0.5];
        cds := Some(skillCDs);
      }
    }

    /** `updateSkillCooldowns`: the overlay height of each slot at time `now` (all empty before a game starts). */
    method UpdateSkillCooldowns(now: real, cdDown: bool) returns (heights: seq<real>)
      requires Valid()
      ensures |heights| == |BaseCooldowns|
      ensures forall k :: 0 <= k < |heights| ==> heights[k] == Overlay(k, CooldownsOf(cds)[k], now, cdDown)
    {
      var skillCDs := CooldownsOf(cds);
      heights := [];
      var index := 0;
      while index < |skillCDs|
        invariant 0 <= index <= |skillCDs|
        invariant |heights| == index
        invariant forall k :: 0 <= k < index ==> heights[k] == Overlay(k, skillCDs[k], now, cdDown)
      {
        var elapsed := now - skillCDs[index];
        var duration := BaseCooldowns[index] * CooldownMultiplier(cdDown);
        var remaining := if duration - elapsed > 0.0 then duration - elapsed else 0.0;
        var percentage := if remaining > 0.0 then remaining / duration * 100.0 else 0.0;
        heights := heights + [percentage];
        index := index + 1;
      }
    }
  }

  /** `skillCDs || [0, 0, 0]`. */
  function CooldownsOf(cds: Option<seq<real>>): (r: seq<real>)
    requires cds.Some? ==> |cds.value| == |BaseCooldowns|
    ensures |r| == |BaseCooldowns|
    ensures cds.None? ==> r == [0.0, 0.0, 0.0]
  {
    if cds.Some? then cds.value else [0.0, 0.0, 0.0]
  }

  /** Right after a skill is used, its overlay shows exactly half the cooldown left. */
  lemma HalfLeftAfterUse(slot: nat, now: real, cdDown: bool)
    requires slot < |BaseCooldowns|
    ensures Overlay(slot, now - Duration(slot, cdDown) * 0.5, now, cdDown) == 50.0
  {
    var duration := Duration(slot, cdDown);
    var cd := now - duration * 0.5;
    assert now - cd == duration * 0.5;
    var remaining := Remaining(duration, now - cd);
    assert remaining == duration * 0.5;
    var p := Percentage(remaining, duration);
    assert p * duration == duration * 50.0;
  }

  /** Once half the cooldown has passed after a use, the skill is ready again. */
  lemma ReadyHalfCooldownAfterUse(slot: nat, used: real, now: real, cdDown: bool)
    requires slot < |BaseCooldowns| && now >= used + Duration(slot, cdDown) * 0.5
    ensures Overlay(slot, used - Duration(slot, cdDown) * 0.5, now, cdDown) == 0.0
  {
  }

  // ------------------------------------------------------------ rewards

  /** `x || 1` on a number: zero (falsy) becomes 1. */
  function OrOne(x: int): (r: int)
    ensures x != 0 ==> r == x
    ensures x == 0 ==> r == 1
  {
    if x == 0 then 1 else x
  }

  /** The stage-clear reward for stage `stage`. */
  function StageReward(stage: int): (r: int)
    ensures stage >= 1 ==> r == 50 + 20 * stage && r >= 70
    ensures stage == 0 ==> r == 70
  {
    50 + OrOne(stage) * 20
  }

  /** The round-clear bonus for round `round`. */
  function RoundBonus(round: int): (r: int)
    ensures round >= 1 ==> r == 500 + 200 * round && r >= 700
    ensures round == 0 ==> r == 700
  {
    500 + OrOne(round) * 200
  }

  /** Each further stage or round pays strictly more. */
  lemma RewardsGrow(n: int)
    requires n >= 1
    ensures StageReward(n + 1) == StageReward(n) + 20
    ensures RoundBonus(n + 1) == RoundBonus(n) + 200
  {
  }

  /**
   * `showStageClearScreen`: the reward uses the current stage (1 without a
   * data store) and is paid only when the reward label and the store exist.
   */
  method ShowStageClear(store: Progress.GameData?, hasLabel: bool) returns (reward: int)
    modifies store
    ensures reward == StageReward(if store == null then 1 else old(store.data).player.currentStage)
    ensures store != null && hasLabel ==>
              && store.data == old(store.data).(player := old(store.data).player.(coins := Progress.Credited(old(store.data).player.coins, reward)))
              && store.stored == Progress.WithCategory(old(store.stored), store.data, Progress.PlayerData)
              && store.calls == old(store.calls) + Progress.Notified(old(store.listeners), "coins", Progress.Count(store.data.player.coins))
    ensures store != null && !hasLabel ==>
              store.data == old(store.data) && store.stored == old(store.stored) && store.calls == old(store.calls)
    ensures store != null ==> store.listeners == old(store.listeners)
  {
    var stage := if store == null then 1 else OrOne(store.data.player.currentStage);
    reward := 50 + stage * 20;
    if hasLabel && store != null {
      var _ := store.AddCoins(reward);
    }
  }

  /** `showRoundClearScreen`: the same for the round bonus. */
  method ShowRoundClear(store: Progress.GameData?, hasLabel: bool) returns (bonus: int)
    modifies store
    ensures bonus == RoundBonus(if store == null then 1 else old(store.data).player.currentRound)
    ensures store != null && hasLabel ==>
              && store.data == old(store.data).(player := old(store.data).player.(coins := Progress.Credited(old(store.data).player.coins, bonus)))
              && store.stored == Progress.WithCategory(old(store.stored), store.data, Progress.PlayerData)
              && store.calls == old(store.calls) + Progress.Notified(old(store.listeners), "coins", Progress.Count(store.data.player.coins))
    ensures store != null && !hasLabel ==>
              store.data == old(store.data) && store.stored == old(store.stored) && store.calls == old(store.calls)
    ensures store != null ==> store.listeners == old(store.listeners)
  {
    var round := if store == null then 1 else OrOne(store.data.player.currentRound);
    bonus := 500 + round * 200;
    if hasLabel && store != null {
      var _ := store.AddCoins(bonus);
    }
  }
}
