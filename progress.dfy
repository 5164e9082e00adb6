/**
 * The player's progress store (`GameData`): eight categories of saved data
 * (player record, abilities, owned and equipped items, buffs, passives,
 * settings, game configuration), setters that clamp or guard what they
 * write, a validity check, and a change-listener registry.
 *
 * Persistence is an abstract key-value store: `stored` holds the last
 * value written for each category, and the defaults it falls back to are
 * `DataModel()`.
 */
module Progress {
  import opened Options
  import Helpers

  // ------------------------------------------------------------ the data

  datatype Player = Player(
    coins: int, currentRound: int, highestRound: int, currentStage: int,
    characterStage: int, maxLives: int, totalScore: int, totalPlaytime: int)

  datatype Abilities = Abilities(speedLevel: int, fireRateLevel: int, bulletCount: int)

  /** A stored setting, buff or configuration value. */
  datatype Value = Flag(b: bool) | Amount(n: int) | Text(s: string) | Table(fields: map<string, Value>)

  type ItemLists = map<string, seq<string>>

  datatype Data = Data(
    player: Player,
    abilities: Abilities,
    ownedItems: ItemLists,
    equippedItems: map<string, string>,
    buffs: map<string, Value>,
    passives: map<string, Value>,
    settings: map<string, Value>,
    gameConfig: map<string, Value>)

  datatype Category = PlayerData | AbilityData | OwnedData | EquippedData | BuffData | PassiveData | SettingData | ConfigData

  /** The storage manager's default data model (js/data/storage-manager.js). */
  function DataModel(): (r: Data)
    ensures r.player.coins == 0 && r.buffs == map[] && r.passives == map[]
    ensures forall slot :: slot in r.equippedItems ==>
              exists kind :: kind in r.ownedItems && r.equippedItems[slot] in r.ownedItems[kind]
  {
    var r := Data(
      Player(0, 1, 1, 1, 0, 4, 0, 0),
      Abilities(0, 0, 1),
      map["weapons" := ["w_normal"], "skills" := [], "items" := [], "balls" := ["b_white"]],
      map["weapon" := "w_normal", "ball" := "b_white"],
      map[],
      map[],
      map["soundEnabled" := Flag(true), "vibrationEnabled" := Flag(true), "autoFire" := Flag(false), "showTutorial" := Flag(true)],
      map["stages" := Table(map[]), "prices" := Table(map[])]);
    assert r.equippedItems["weapon"] == r.ownedItems["weapons"][0];
    assert r.equippedItems["ball"] == r.ownedItems["balls"][0];
    r
  }

  /** Whether `a` and `b` hold the same value for category `c`. */
  predicate SameIn(a: Data, b: Data, c: Category)
  {
    match c
    case PlayerData => a.player == b.player
    case AbilityData => a.abilities == b.abilities
    case OwnedData => a.ownedItems == b.ownedItems
    case EquippedData => a.equippedItems == b.equippedItems
    case BuffData => a.buffs == b.buffs
    case PassiveData => a.passives == b.passives
    case SettingData => a.settings == b.settings
    case ConfigData => a.gameConfig == b.gameConfig
  }

  /**
   * `target` with category `c` taken from `source`: what `saveCategory`
   * writes to the store, and what `reset(category)` loads from the defaults.
   */
  function WithCategory(target: Data, source: Data, c: Category): (r: Data)
    ensures SameIn(r, source, c)
    ensures forall o :: o != c ==> SameIn(r, target, o)
  {
    match c
    case PlayerData => target.(player := source.player)
    case AbilityData => target.(abilities := source.abilities)
    case OwnedData => target.(ownedItems := source.ownedItems)
    case EquippedData => target.(equippedItems := source.equippedItems)
    case BuffData => target.(buffs := source.buffs)
    case PassiveData => target.(passives := source.passives)
    case SettingData => target.(settings := source.settings)
    case ConfigData => target.(gameConfig := source.gameConfig)
  }

  /** Copying every category one after another yields the source. */
  lemma WithEveryCategory(target: Data, source: Data)
    ensures var t := WithCategory(WithCategory(WithCategory(WithCategory(target, source, PlayerData), source, AbilityData), source, OwnedData), source, EquippedData);
            WithCategory(WithCategory(WithCategory(WithCategory(t, source, BuffData), source, PassiveData), source, SettingData), source, ConfigData) == source
  {
  }

  // ------------------------------------------------------------ numbers

  /** `Math.max(lo, Math.min(hi, v))`. */
  function Clamped(v: int, lo: int, hi: int): (r: int)
    ensures lo <= hi ==> lo <= r <= hi
    ensures lo <= v <= hi ==> r == v
    ensures v < lo ==> r == lo
    ensures lo <= hi < v ==> r == hi
  {
    var low := if v < hi then v else hi;
    if low < lo then lo else low
  }

  /** Clamping twice changes nothing. */
  lemma ClampedIdempotent(v: int, lo: int, hi: int)
    requires lo <= hi
    ensures Clamped(Clamped(v, lo, hi), lo, hi) == Clamped(v, lo, hi)
  {
  }

  /** `addCoins`: the balance moves by `amount` but never below zero. */
  function Credited(coins: int, amount: int): (r: int)
    ensures r >= 0
    ensures coins + amount >= 0 ==> r == coins + amount
    ensures coins + amount < 0 ==> r == 0
  {
    var sum := coins + amount;
    if sum < 0 then 0 else sum
  }

  /** Spending what was just earned restores a non-negative balance. */
  lemma EarnThenSpend(coins: int, amount: int)
    requires coins >= 0 && amount >= 0
    ensures Credited(Credited(coins, amount), -amount) == coins
  {
  }

  /** Overspending empties the purse instead of going negative. */
  lemma OverspendEmpties(coins: int, amount: int)
    requires 0 <= coins < amount
    ensures Credited(coins, -amount) == 0
  {
  }

  /** `addScore` / `addPlaytime`: a negative amount counts as zero. */
  function Accrued(total: int, amount: int): (r: int)
    ensures r >= total
    ensures amount >= 0 ==> r == total + amount
    ensures amount < 0 ==> r == total
  {
    total + if amount < 0 then 0 else amount
  }

  /** Totals accumulated over any run of additions never shrink. */
  function AccruedAll(total: int, amounts: seq<int>): int
    decreases |amounts|
  {
    if amounts == [] then total else AccruedAll(Accrued(total, amounts[0]), amounts[1..])
  }

  lemma {:induction false} AccruedAllMonotone(total: int, amounts: seq<int>)
    ensures AccruedAll(total, amounts) >= total
    ensures forall k :: 0 <= k < |amounts| && amounts[k] > 0 ==> AccruedAll(total, amounts) >= total + amounts[k]
    decreases |amounts|
  {
    if amounts != [] {
      var next := Accrued(total, amounts[0]);
      AccruedAllMonotone(next, amounts[1..]);
      forall k | 0 <= k < |amounts| && amounts[k] > 0
        ensures AccruedAll(total, amounts) >= total + amounts[k]
      {
        if k > 0 {
          assert amounts[1..][k - 1] == amounts[k];
        }
      }
    }
  }

  // ------------------------------------------------------------ the player record

  /** `setCurrentRound`: the current round is set and the record raised only when exceeded. */
  function Reached(p: Player, round: int): (r: Player)
    ensures r.currentRound == round
    ensures r.highestRound >= round && r.highestRound >= p.highestRound
    ensures r.highestRound == round || r.highestRound == p.highestRound
    ensures r == p.(currentRound := round, highestRound := r.highestRound)
  {
    if round > p.highestRound then p.(currentRound := round, highestRound := round)
    else p.(currentRound := round)
  }

  function ReachedAll(p: Player, rounds: seq<int>): Player
    decreases |rounds|
  {
    if rounds == [] then p else ReachedAll(Reached(p, rounds[0]), rounds[1..])
  }

  /** After any run of `setCurrentRound` calls, the record is the largest round seen (or the old record). */
  lemma {:induction false} HighestIsBestRound(p: Player, rounds: seq<int>)
    ensures var r := ReachedAll(p, rounds);
            r.highestRound >= p.highestRound && (forall k :: 0 <= k < |rounds| ==> r.highestRound >= rounds[k])
            && (r.highestRound == p.highestRound || r.highestRound in rounds)
    ensures rounds != [] ==> ReachedAll(p, rounds).highestRound >= ReachedAll(p, rounds).currentRound
    decreases |rounds|
  {
    if rounds != [] {
      var q := Reached(p, rounds[0]);
      HighestIsBestRound(q, rounds[1..]);
      var r := ReachedAll(p, rounds);
      assert r == ReachedAll(q, rounds[1..]);
      forall k | 0 <= k < |rounds|
        ensures r.highestRound >= rounds[k]
      {
        if k > 0 {
          assert rounds[1..][k - 1] == rounds[k];
        }
      }
      if |rounds| == 1 {
        assert r == q;
      } else {
        assert rounds[1..] != [];
      }
    }
  }

  /** The fields `updatePlayerData` may set; `None` leaves a field as it is (`Object.assign`). */
  datatype PlayerUpdate = PlayerUpdate(
    coins: Option<int>, currentRound: Option<int>, highestRound: Option<int>, currentStage: Option<int>,
    characterStage: Option<int>, maxLives: Option<int>, totalScore: Option<int>, totalPlaytime: Option<int>)

  function Pick(given: Option<int>, current: int): int
  {
    if given.Some? then given.value else current
  }

  /** `Object.assign(player, updates)`. */
  function Assigned(p: Player, u: PlayerUpdate): (r: Player)
    ensures u.maxLives.Some? ==> r.maxLives == u.maxLives.value
    ensures u.maxLives.None? ==> r.maxLives == p.maxLives
    ensures u.coins.Some? ==> r.coins == u.coins.value
    ensures u.coins.None? ==> r.coins == p.coins
  {
    Player(
      Pick(u.coins, p.coins), Pick(u.currentRound, p.currentRound), Pick(u.highestRound, p.highestRound),
      Pick(u.currentStage, p.currentStage), Pick(u.characterStage, p.characterStage), Pick(u.maxLives, p.maxLives),
      Pick(u.totalScore, p.totalScore), Pick(u.totalPlaytime, p.totalPlaytime))
  }

  const NoUpdate: PlayerUpdate := PlayerUpdate(None, None, None, None, None, None, None, None)

  /** Applying the same update twice is applying it once, and an empty update changes nothing. */
  lemma AssignedIdempotent(p: Player, u: PlayerUpdate)
    ensures Assigned(Assigned(p, u), u) == Assigned(p, u)
    ensures Assigned(p, NoUpdate) == p
  {
  }

  /** `updatePlayerData` writes `maxLives` unclamped, so it can leave the range `setMaxLives` keeps. */
  lemma UpdateBypassesLivesClamp(p: Player)
    ensures Assigned(p, NoUpdate.(maxLives := Some(0))).maxLives == 0
    ensures Clamped(0, 1, 10) == 1
  {
  }

  // ------------------------------------------------------------ owned and equipped items

  predicate HasItem(items: ItemLists, itemType: string, itemId: string)
  {
    itemType in items && itemId in items[itemType]
  }

  /** `getOwnedItemsByType`: a type never stored reads as an empty list. */
  function OwnedOfType(items: ItemLists, itemType: string): (r: seq<string>)
    ensures forall id :: id in r <==> HasItem(items, itemType, id)
    ensures itemType in items ==> r == items[itemType]
  {
    if itemType in items then items[itemType] else []
  }

  predicate NoDuplicates(s: seq<string>)
  {
    forall i, j :: 0 <= i < j < |s| ==> s[i] != s[j]
  }

  predicate DuplicateFree(items: ItemLists)
  {
    forall t :: t in items ==> NoDuplicates(items[t])
  }

  /** `addOwnedItem`: appends the id unless already owned; the flag says whether it did. */
  function WithOwned(items: ItemLists, itemType: string, itemId: string): (r: (ItemLists, bool))
    ensures r.1 <==> !HasItem(items, itemType, itemId)
    ensures HasItem(r.0, itemType, itemId)
    ensures r.1 ==> r.0 == items[itemType := OwnedOfType(items, itemType) + [itemId]]
    ensures !r.1 ==> r.0 == items
  {
    var list := OwnedOfType(items, itemType);
    if itemId in list then (items, false) else (items[itemType := list + [itemId]], true)
  }

  /** Adding never creates a duplicate. */
  lemma WithOwnedKeepsDuplicateFree(items: ItemLists, itemType: string, itemId: string)
    requires DuplicateFree(items)
    ensures DuplicateFree(WithOwned(items, itemType, itemId).0)
  {
    var (after, added) := WithOwned(items, itemType, itemId);
    if added {
      var list := OwnedOfType(items, itemType) + [itemId];
      forall i, j | 0 <= i < j < |list|
        ensures list[i] != list[j]
      {
        if j == |list| - 1 {
          assert list[i] in OwnedOfType(items, itemType);
        }
      }
    }
  }

  /** `removeOwnedItem`: splices out the first occurrence; the flag says whether there was one. */
  function WithoutOwned(items: ItemLists, itemType: string, itemId: string): (r: (ItemLists, bool))
    ensures r.1 <==> HasItem(items, itemType, itemId)
    ensures !r.1 ==> r.0 == items
    ensures r.1 ==> r.0 == items[itemType := Helpers.Remove(items[itemType], itemId).1]
    ensures r.1 ==> |r.0[itemType]| == |items[itemType]| - 1
                    && multiset(r.0[itemType]) + multiset{itemId} == multiset(items[itemType])
  {
    if itemType in items && itemId in items[itemType] then
      (items[itemType := Helpers.Remove(items[itemType], itemId).1], true)
    else (items, false)
  }

  /** Removing an item right after adding it restores the lists. */
  lemma AddThenRemove(items: ItemLists, itemType: string, itemId: string)
    requires itemType in items && !HasItem(items, itemType, itemId)
    ensures WithoutOwned(WithOwned(items, itemType, itemId).0, itemType, itemId) == (items, true)
  {
    var after := WithOwned(items, itemType, itemId).0;
    Helpers.RemoveLastAdded(items[itemType], itemId);
    assert after[itemType := Helpers.Remove(after[itemType], itemId).1] == items;
  }

  /** Splicing out the first occurrence of an element that occurs once leaves none. */
  lemma RemoveOnly(s: seq<string>, x: string)
    requires NoDuplicates(s) && x in s
    ensures x !in Helpers.Remove(s, x).1
  {
    var i := Helpers.IndexOf(s, x);
    var rest := s[..i] + s[i + 1..];
    assert Helpers.Remove(s, x).1 == rest;
    forall j | 0 <= j < |rest|
      ensures rest[j] != x
    {
      if j >= i {
        assert rest[j] == s[j + 1] && s[i] != s[j + 1];
      }
    }
  }

  /** In a duplicate-free list, removal leaves the item no longer owned. */
  lemma RemovedIsGone(items: ItemLists, itemType: string, itemId: string)
    requires DuplicateFree(items) && HasItem(items, itemType, itemId)
    ensures !HasItem(WithoutOwned(items, itemType, itemId).0, itemType, itemId)
  {
    RemoveOnly(items[itemType], itemId);
  }

  /** `equipItem`: only an owned item can be equipped; otherwise nothing changes. */
  function Equipped(items: ItemLists, equipped: map<string, string>, itemType: string, itemId: string): (r: (map<string, string>, bool))
    ensures r.1 <==> HasItem(items, itemType, itemId)
    ensures r.1 ==> itemType in r.0 && r.0[itemType] == itemId && r.0 - {itemType} == equipped - {itemType}
    ensures !r.1 ==> r.0 == equipped
  {
    if HasItem(items, itemType, itemId) then (equipped[itemType := itemId], true) else (equipped, false)
  }

  /**
   * The default slots are named `weapon` and `ball`, but the owned lists are
   * keyed `weapons` and `balls`, so equipping the default weapon in its own
   * slot is refused; only the plural key is accepted.
   */
  lemma DefaultSlotNamesRefused()
    ensures "weapon" in DataModel().equippedItems
    ensures !Equipped(DataModel().ownedItems, DataModel().equippedItems, "weapon", "w_normal").1
    ensures Equipped(DataModel().ownedItems, DataModel().equippedItems, "weapons", "w_normal").1
  {
    assert "w_normal" in DataModel().ownedItems["weapons"];
  }

  // ------------------------------------------------------------ keyed values

  /** `Object.assign(target, updates)`: the updates win, every other key is kept. */
  function Merged(target: map<string, Value>, updates: map<string, Value>): (r: map<string, Value>)
    ensures r.Keys == target.Keys + updates.Keys
    ensures forall k :: k in updates ==> r[k] == updates[k]
    ensures forall k :: k in target && k !in updates ==> r[k] == target[k]
  {
    target + updates
  }

  // ------------------------------------------------------------ validation

  const ItemTypes: seq<string> := ["weapons", "skills", "items", "balls"]

  /** The item types, in order, that `validate` reports as not holding a list. */
  function MissingLists(types: seq<string>, items: ItemLists): (r: seq<string>)
    ensures |r| <= |types|
    decreases |types|
  {
    if types == [] then []
    else (if types[0] in items then [] else [types[0]]) + MissingLists(types[1..], items)
  }

  /** Exactly the required types without a list are reported. */
  lemma {:induction false} MissingListsExact(types: seq<string>, items: ItemLists)
    ensures forall t :: t in MissingLists(types, items) <==> t in types && t !in items
    decreases |types|
  {
    if types != [] {
      MissingListsExact(types[1..], items);
      assert forall t :: t in types <==> t == types[0] || t in types[1..];
    }
  }

  /** Reporting type `i` moves one step along `MissingLists`. */
  lemma MissingListsStep(done: seq<string>, types: seq<string>, i: nat, items: ItemLists)
    requires i < |types|
    requires done + MissingLists(types[i..], items) == MissingLists(types, items)
    ensures (done + if types[i] in items then [] else [types[i]]) + MissingLists(types[i + 1..], items) == MissingLists(types, items)
  {
    assert types[i..][1..] == types[i + 1..];
    var step := if types[i] in items then [] else [types[i]];
    assert MissingLists(types[i..], items) == step + MissingLists(types[i + 1..], items);
    assert (done + step) + MissingLists(types[i + 1..], items) == done + (step + MissingLists(types[i + 1..], items));
  }

  /** The loop of `validate`: an error for each type, in order, that holds no list. */
  method ListErrors(types: seq<string>, owned: ItemLists) returns (errors: seq<string>)
    ensures errors == MissingLists(types, owned)
    ensures errors == [] <==> forall t :: t in types ==> t in owned
  {
    errors := [];
    var i := 0;
    while i < |types|
      invariant 0 <= i <= |types|
      invariant errors + MissingLists(types[i..], owned) == MissingLists(types, owned)
    {
      MissingListsStep(errors, types, i, owned);
      if types[i] !in owned {
        errors := errors + [types[i]];
      }
      i := i + 1;
    }
    assert types[i..] == [];
    MissingListsExact(types, owned);
    if errors != [] {
      assert errors[0] in MissingLists(types, owned);
    }
  }

  /** The defaults pass validation. */
  lemma DataModelValid()
    ensures MissingLists(ItemTypes, DataModel().ownedItems) == []
  {
    var m := DataModel().ownedItems;
    MissingListsExact(ItemTypes, m);
    assert forall t :: t in ItemTypes ==> t in m;
  }

  // ------------------------------------------------------------ change listeners

  /** A registered change callback, by identity. */
  datatype Listener = Listener(tag: nat)

  /** What a change event carries. */
  datatype Payload =
    | PlayerInfo(player: Player)
    | Count(n: int)
    | ItemRef(itemType: string, itemId: string)
    | Keyed(key: string, value: Value)
    | Name(name: string)
    | Values(entries: map<string, Value>)
    | CategoryRef(category: Category)
    | Done(ok: bool)

  datatype Notice = Notice(listener: Listener, event: string, payload: Payload)

  function ListenersOf(ls: map<string, seq<Listener>>, event: string): seq<Listener>
  {
    if event in ls then ls[event] else []
  }

  /** The calls `emitChange` makes: each listener once, in registration order, past one that throws. */
  function Notices(ls: seq<Listener>, event: string, payload: Payload): (r: seq<Notice>)
    ensures |r| == |ls|
    ensures forall k :: 0 <= k < |ls| ==> r[k] == Notice(ls[k], event, payload)
  {
    if ls == [] then [] else [Notice(ls[0], event, payload)] + Notices(ls[1..], event, payload)
  }

  function Notified(ls: map<string, seq<Listener>>, event: string, payload: Payload): seq<Notice>
  {
    Notices(ListenersOf(ls, event), event, payload)
  }

  /** Registering a callback that was not registered, then removing it, restores the registry. */
  lemma OnChangeThenRemove(ls: map<string, seq<Listener>>, event: string, cb: Listener)
    requires event in ls && cb !in ls[event]
    ensures var added := ls[event := ListenersOf(ls, event) + [cb]];
            added[event := Helpers.Remove(added[event], cb).1] == ls
  {
    Helpers.RemoveLastAdded(ls[event], cb);
  }

  // ------------------------------------------------------------ the store

  class GameData {
    var data: Data
    /** What the abstract store holds for each category. */
    var stored: Data
    var listeners: map<string, seq<Listener>>
    var calls: seq<Notice>

    /** Loads every category from the store. */
    constructor(saved: Data)
      ensures data == saved && stored == saved && listeners == map[] && calls == []
    {
      data := saved;
      stored := saved;
      listeners := map[];
      calls := [];
    }

    /** `saveCategory`: writes one category to the store. */
    method SaveCategory(c: Category)
      modifies this`stored
      ensures stored == WithCategory(old(stored), data, c)
    {
      stored := WithCategory(stored, data, c);
    }

    /** `emitChange`: every listener of the event, in order. */
    method EmitChange(event: string, payload: Payload)
      modifies this`calls
      ensures calls == old(calls) + Notified(listeners, event, payload)
    {
      if event in listeners {
        var ls := listeners[event];
        var i := 0;
        while i < |ls|
          invariant 0 <= i <= |ls|
          invariant calls == old(calls) + Notices(ls[..i], event, payload)
        {
          assert Notices(ls[..i + 1], event, payload) == Notices(ls[..i], event, payload) + [Notice(ls[i], event, payload)];
          calls := calls + [Notice(ls[i], event, payload)];
          i := i + 1;
        }
        assert ls[..i] == ls;
      }
    }

    method UpdatePlayerData(u: PlayerUpdate)
      modifies this`data, this`stored, this`calls
      ensures data == old(data).(player := Assigned(old(data).player, u))
      ensures stored == WithCategory(old(stored), data, PlayerData)
      ensures calls == old(calls) + Notified(listeners, "player", PlayerInfo(data.player))
    {
      data := data.(player := Assigned(data.player, u));
      SaveCategory(PlayerData);
      EmitChange("player", PlayerInfo(data.player));
    }

    method AddCoins(amount: int) returns (coins: int)
      modifies this`data, this`stored, this`calls
      ensures coins == data.player.coins == Credited(old(data).player.coins, amount)
      ensures data == old(data).(player := old(data).player.(coins := coins))
      ensures stored == WithCategory(old(stored), data, PlayerData)
      ensures calls == old(calls) + Notified(listeners, "coins", Count(coins))
    {
      var sum := data.player.coins + amount;
      if sum < 0 {
        sum := 0;
      }
      data := data.(player := data.player.(coins := sum));
      SaveCategory(PlayerData);
      EmitChange("coins", Count(sum));
      coins := sum;
    }

    method SetCurrentRound(round: int)
      modifies this`data, this`stored, this`calls
      ensures data == old(data).(player := Reached(old(data).player, round))
      ensures data.player.highestRound >= data.player.currentRound
      ensures stored == WithCategory(old(stored), data, PlayerData)
      ensures calls == old(calls) + Notified(listeners, "round", Count(round))
    {
      var p := data.player.(currentRound := round);
      if round > data.player.highestRound {
        p := p.(highestRound := round);
      }
      data := data.(player := p);
      SaveCategory(PlayerData);
      EmitChange("round", Count(round));
    }

    method SetCurrentStage(stage: int)
      modifies this`data, this`stored, this`calls
      ensures data == old(data).(player := old(data).player.(currentStage := stage))
      ensures stored == WithCategory(old(stored), data, PlayerData)
      ensures calls == old(calls) + Notified(listeners, "stage", Count(stage))
    {
      data := data.(player := data.player.(currentStage := stage));
      SaveCategory(PlayerData);
      EmitChange("stage", Count(stage));
    }

    method SetCharacterStage(stage: int)
      modifies this`data, this`stored, this`calls
      ensures data == old(data).(player := old(data).player.(characterStage := stage))
      ensures stored == WithCategory(old(stored), data, PlayerData)
      ensures calls == old(calls) + Notified(listeners, "characterStage", Count(stage))
    {
      data := data.(player := data.player.(characterStage := stage));
      SaveCategory(PlayerData);
      EmitChange("characterStage", Count(stage));
    }

    method SetMaxLives(lives: int)
      modifies this`data, this`stored, this`calls
      ensures data == old(data).(player := old(data).player.(maxLives := Clamped(lives, 1, 10)))
      ensures 1 <= data.player.maxLives <= 10
      ensures stored == WithCategory(old(stored), data, PlayerData)
      ensures calls == old(calls) + Notified(listeners, "maxLives", Count(data.player.maxLives))
    {
      data := data.(player := data.player.(maxLives := Clamped(lives, 1, 10)));
      SaveCategory(PlayerData);
      EmitChange("maxLives", Count(data.player.maxLives));
    }

    method SetSpeedLevel(level: int)
      modifies this`data, this`stored, this`calls
      ensures data == old(data).(abilities := old(data).abilities.(speedLevel := Clamped(level, 0, 3)))
      ensures 0 <= data.abilities.speedLevel <= 3
      ensures stored == WithCategory(old(stored), data, AbilityData)
      ensures calls == old(calls) + Notified(listeners, "speedLevel", Count(data.abilities.speedLevel))
    {
      data := data.(abilities := data.abilities.(speedLevel := Clamped(level, 0, 3)));
      SaveCategory(AbilityData);
      EmitChange("speedLevel", Count(data.abilities.speedLevel));
    }

    method SetFireRateLevel(level: int)
      modifies this`data, this`stored, this`calls
      ensures data == old(data).(abilities := old(data).abilities.(fireRateLevel := Clamped(level, 0, 3)))
      ensures 0 <= data.abilities.fireRateLevel <= 3
      ensures stored == WithCategory(old(stored), data, AbilityData)
      ensures calls == old(calls) + Notified(listeners, "fireRateLevel", Count(data.abilities.fireRateLevel))
    {
      data := data.(abilities := data.abilities.(fireRateLevel := Clamped(level, 0, 3)));
      SaveCategory(AbilityData);
      EmitChange("fireRateLevel", Count(data.abilities.fireRateLevel));
    }

    method SetBulletCount(count: int)
      modifies this`data, this`stored, this`calls
      ensures data == old(data).(abilities := old(data).abilities.(bulletCount := Clamped(count, 1, 5)))
      ensures 1 <= data.abilities.bulletCount <= 5
      ensures stored == WithCategory(old(stored), data, AbilityData)
      ensures calls == old(calls) + Notified(listeners, "bulletCount", Count(data.abilities.bulletCount))
    {
      data := data.(abilities := data.abilities.(bulletCount := Clamped(count, 1, 5)));
      SaveCategory(AbilityData);
      EmitChange("bulletCount", Count(data.abilities.bulletCount));
    }

    /** `addOwnedItem`: the store is written and listeners told only when the item is new. */
    method AddOwnedItem(itemType: string, itemId: string) returns (added: bool)
      modifies this`data, this`stored, this`calls
      ensures (data.ownedItems, added) == WithOwned(old(data).ownedItems, itemType, itemId)
      ensures data == old(data).(ownedItems := data.ownedItems)
      ensures added ==> stored == WithCategory(old(stored), data, OwnedData)
                        && calls == old(calls) + Notified(listeners, "ownedItem", ItemRef(itemType, itemId))
      ensures !added ==> stored == old(stored) && calls == old(calls)
    {
      var list := if itemType in data.ownedItems then data.ownedItems[itemType] else [];
      if itemId !in list {
        data := data.(ownedItems := data.ownedItems[itemType := list + [itemId]]);
        SaveCategory(OwnedData);
        EmitChange("ownedItem", ItemRef(itemType, itemId));
        added := true;
      } else {
        added := false;
      }
    }

    /** `removeOwnedItem`. */
    method RemoveOwnedItem(itemType: string, itemId: string) returns (removed: bool)
      modifies this`data, this`stored, this`calls
      ensures (data.ownedItems, removed) == WithoutOwned(old(data).ownedItems, itemType, itemId)
      ensures data == old(data).(ownedItems := data.ownedItems)
      ensures removed ==> stored == WithCategory(old(stored), data, OwnedData)
                          && calls == old(calls) + Notified(listeners, "removedItem", ItemRef(itemType, itemId))
      ensures !removed ==> stored == old(stored) && calls == old(calls)
    {
      removed := false;
      if itemType in data.ownedItems {
        var index := Helpers.IndexOf(data.ownedItems[itemType], itemId);
        if index > -1 {
          var list := data.ownedItems[itemType];
          data := data.(ownedItems := data.ownedItems[itemType := list[..index] + list[index + 1..]]);
          SaveCategory(OwnedData);
          EmitChange("removedItem", ItemRef(itemType, itemId));
          removed := true;
        }
      }
    }

    function GetOwnedItemsByType(itemType: string): (r: seq<string>)
      reads this
      ensures forall id :: id in r <==> HasItem(data.ownedItems, itemType, id)
    {
      OwnedOfType(data.ownedItems, itemType)
    }

    /** `equipItem`: refused, with nothing written, unless the item is owned. */
    method EquipItem(itemType: string, itemId: string) returns (ok: bool)
      modifies this`data, this`stored, this`calls
      ensures (data.equippedItems, ok) == Equipped(old(data).ownedItems, old(data).equippedItems, itemType, itemId)
      ensures data == old(data).(equippedItems := data.equippedItems)
      ensures ok ==> stored == WithCategory(old(stored), data, EquippedData)
                     && calls == old(calls) + Notified(listeners, "equippedItem", ItemRef(itemType, itemId))
      ensures !ok ==> stored == old(stored) && calls == old(calls)
    {
      if !HasItem(data.ownedItems, itemType, itemId) {
        return false;
      }
      data := data.(equippedItems := data.equippedItems[itemType := itemId]);
      SaveCategory(EquippedData);
      EmitChange("equippedItem", ItemRef(itemType, itemId));
      ok := true;
    }

    function GetEquippedItem(itemType: string): (r: Option<string>)
      reads this
      ensures r.Some? <==> itemType in data.equippedItems
      ensures r.Some? ==> r.value == data.equippedItems[itemType]
    {
      if itemType in data.equippedItems then Some(data.equippedItems[itemType]) else None
    }

    /** `addBuff(id, value = true)`. */
    method AddBuff(buffId: string, value: Value)
      modifies this`data, this`stored, this`calls
      ensures data == old(data).(buffs := old(data).buffs[buffId := value])
      ensures HasBuff(buffId)
      ensures stored == WithCategory(old(stored), data, BuffData)
      ensures calls == old(calls) + Notified(listeners, "buff", Keyed(buffId, value))
    {
      data := data.(buffs := data.buffs[buffId := value]);
      SaveCategory(BuffData);
      EmitChange("buff", Keyed(buffId, value));
    }

    method RemoveBuff(buffId: string)
      modifies this`data, this`stored, this`calls
      ensures data == old(data).(buffs := old(data).buffs - {buffId})
      ensures !HasBuff(buffId)
      ensures stored == WithCategory(old(stored), data, BuffData)
      ensures calls == old(calls) + Notified(listeners, "removedBuff", Name(buffId))
    {
      data := data.(buffs := data.buffs - {buffId});
      SaveCategory(BuffData);
      EmitChange("removedBuff", Name(buffId));
    }

    /** `hasBuff`: an own property, whatever its value. */
    predicate HasBuff(buffId: string)
      reads this
      ensures HasBuff(buffId) <==> exists v :: (buffId, v) in data.buffs.Items
    {
      if buffId in data.buffs then
        assert (buffId, data.buffs[buffId]) in data.buffs.Items;
        true
      else false
    }

    method AddPassive(passiveId: string, value: Value)
      modifies this`data, this`stored, this`calls
      ensures data == old(data).(passives := old(data).passives[passiveId := value])
      ensures HasPassive(passiveId)
      ensures stored == WithCategory(old(stored), data, PassiveData)
      ensures calls == old(calls) + Notified(listeners, "passive", Keyed(passiveId, value))
    {
      data := data.(passives := data.passives[passiveId := value]);
      SaveCategory(PassiveData);
      EmitChange("passive", Keyed(passiveId, value));
    }

    method RemovePassive(passiveId: string)
      modifies this`data, this`stored, this`calls
      ensures data == old(data).(passives := old(data).passives - {passiveId})
      ensures !HasPassive(passiveId)
      ensures stored == WithCategory(old(stored), data, PassiveData)
      ensures calls == old(calls) + Notified(listeners, "removedPassive", Name(passiveId))
    {
      data := data.(passives := data.passives - {passiveId});
      SaveCategory(PassiveData);
      EmitChange("removedPassive", Name(passiveId));
    }

    /** `passiveId in passives`: present with any value, even a false one. */
    predicate HasPassive(passiveId: string)
      reads this
      ensures HasPassive(passiveId) <==> exists v :: (passiveId, v) in data.passives.Items
    {
      if passiveId in data.passives then
        assert (passiveId, data.passives[passiveId]) in data.passives.Items;
        true
      else false
    }

    method UpdateSettings(updates: map<string, Value>)
      modifies this`data, this`stored, this`calls
      ensures data == old(data).(settings := Merged(old(data).settings, updates))
      ensures stored == WithCategory(old(stored), data, SettingData)
      ensures calls == old(calls) + Notified(listeners, "settings", Values(data.settings))
    {
      data := data.(settings := data.settings + updates);
      SaveCategory(SettingData);
      EmitChange("settings", Values(data.settings));
    }

    method SetSetting(key: string, value: Value)
      modifies this`data, this`stored, this`calls
      ensures data == old(data).(settings := old(data).settings[key := value])
      ensures stored == WithCategory(old(stored), data, SettingData)
      ensures calls == old(calls) + Notified(listeners, "setting", Keyed(key, value))
    {
      data := data.(settings := data.settings[key := value]);
      SaveCategory(SettingData);
      EmitChange("setting", Keyed(key, value));
    }

    method UpdateGameConfig(updates: map<string, Value>)
      modifies this`data, this`stored, this`calls
      ensures data == old(data).(gameConfig := Merged(old(data).gameConfig, updates))
      ensures stored == WithCategory(old(stored), data, ConfigData)
      ensures calls == old(calls) + Notified(listeners, "gameConfig", Values(data.gameConfig))
    {
      data := data.(gameConfig := data.gameConfig + updates);
      SaveCategory(ConfigData);
      EmitChange("gameConfig", Values(data.gameConfig));
    }

    method AddScore(points: int) returns (total: int)
      modifies this`data, this`stored, this`calls
      ensures total == data.player.totalScore == Accrued(old(data).player.totalScore, points)
      ensures data == old(data).(player := old(data).player.(totalScore := total))
      ensures stored == WithCategory(old(stored), data, PlayerData)
      ensures calls == old(calls) + Notified(listeners, "score", Count(total))
    {
      var gain := if points < 0 then 0 else points;
      data := data.(player := data.player.(totalScore := data.player.totalScore + gain));
      SaveCategory(PlayerData);
      EmitChange("score", Count(data.player.totalScore));
      total := data.player.totalScore;
    }

    method AddPlaytime(seconds: int)
      modifies this`data, this`stored, this`calls
      ensures data == old(data).(player := old(data).player.(totalPlaytime := Accrued(old(data).player.totalPlaytime, seconds)))
      ensures stored == WithCategory(old(stored), data, PlayerData)
      ensures calls == old(calls) + Notified(listeners, "playtime", Count(data.player.totalPlaytime))
    {
      var gain := if seconds < 0 then 0 else seconds;
      data := data.(player := data.player.(totalPlaytime := data.player.totalPlaytime + gain));
      SaveCategory(PlayerData);
      EmitChange("playtime", Count(data.player.totalPlaytime));
    }

    /** `validate`: one error per required item type without a list. */
    method Validate() returns (isValid: bool, errors: seq<string>)
      ensures errors == MissingLists(ItemTypes, data.ownedItems)
      ensures isValid <==> forall t :: t in ItemTypes ==> t in data.ownedItems
      ensures isValid <==> errors == []
    {
      errors := ListErrors(ItemTypes, data.ownedItems);
      isValid := |errors| == 0;
    }

    /** `reset(category)` restores one category from the defaults; `reset()` resets and reloads the whole store. */
    method Reset(category: Option<Category>)
      modifies this`data, this`stored, this`calls
      ensures category.Some? ==> data == WithCategory(old(data), DataModel(), category.value)
                                 && stored == WithCategory(old(stored), data, category.value)
                                 && calls == old(calls) + Notified(listeners, "reset", CategoryRef(category.value))
      ensures category.None? ==> data == DataModel() && stored == DataModel()
                                 && calls == old(calls) + Notified(listeners, "resetAll", Done(true))
    {
      if category.Some? {
        data := WithCategory(data, DataModel(), category.value);
        SaveCategory(category.value);
        EmitChange("reset", CategoryRef(category.value));
      } else {
        stored := DataModel();
        data := stored;
        EmitChange("resetAll", Done(true));
      }
    }

    /** `onChange(event, callback)`: the callback goes last in the event's list. */
    method OnChange(event: string, cb: Listener)
      modifies this`listeners
      ensures listeners == old(listeners)[event := ListenersOf(old(listeners), event) + [cb]]
    {
      var list := if event in listeners then listeners[event] else [];
      listeners := listeners[event := list + [cb]];
    }

    /** `removeListener`: the first registration of the callback goes; an unknown event changes nothing. */
    method RemoveListener(event: string, cb: Listener)
      modifies this`listeners
      ensures event in old(listeners) ==> listeners == old(listeners)[event := Helpers.Remove(old(listeners)[event], cb).1]
      ensures event !in old(listeners) ==> listeners == old(listeners)
    {
      if event in listeners {
        var callbacks := listeners[event];
        var index := Helpers.IndexOf(callbacks, cb);
        Helpers.RemoveSplices(callbacks, cb);
        if index > -1 {
          listeners := listeners[event := callbacks[..index] + callbacks[index + 1..]];
        } else {
          Helpers.UpdateSame(listeners, event);
        }
      }
    }
  }
}
