/**
 * The input handler: which keys are held, the active touch points, the
 * mouse, and two pending gestures (a tap and a swipe) that game code
 * consumes once. DOM events arrive as method calls; the clock (`now`,
 * milliseconds) and the touch bearing (`Utils.angle` in degrees) are
 * parameters.
 *
 * The gesture recogniser is the pair of callbacks the constructor
 * registers first for `touchstart` and `touchend`; since nothing outside
 * holds them, they always run before any callback added later, and they
 * appear here as `GestureBegin` / `GestureFinish` run ahead of the
 * registered callbacks.
 */
module Input {
  import opened Options
  import Helpers

  datatype Touch = Touch(identifier: int, clientX: real, clientY: real)

  /** What a DOM event carries, as far as the handler reads it. */
  datatype InputEvent =
    | KeyEvent(key: string)
    | TouchEvent(touches: seq<Touch>, changedTouches: seq<Touch>)
    | MouseEvent(clientX: real, clientY: real)

  datatype TouchPoint = TouchPoint(x: real, y: real, startTime: real)

  datatype Mouse = Mouse(x: real, y: real, pressed: bool)

  datatype Swipe = Right | Down | Left | Up

  datatype Gestures = Gestures(swipe: Option<Swipe>, tap: bool)

  /** The recogniser's captured variables: when and where the last touch began. */
  datatype Recognizer = Recognizer(time: real, x: real, y: real)

  /** One registered callback called with one event. */
  datatype Invocation = Invocation(callback: nat, event: string, data: InputEvent)

  const EventNames: set<string> := {"keydown", "keyup", "touchstart", "touchmove", "touchend", "mousedown", "mousemove", "mouseup"}

  // ------------------------------------------------------------ touch points

  function Ids(ts: seq<Touch>): (r: set<int>)
    ensures forall k :: 0 <= k < |ts| ==> ts[k].identifier in r
    decreases |ts|
  {
    if ts == [] then {} else Ids(ts[..|ts| - 1]) + {ts[|ts| - 1].identifier}
  }

  /** `handleTouchStart`: every listed touch is (re)tracked from `now`. */
  function Started(m: map<int, TouchPoint>, ts: seq<Touch>, now: real): (r: map<int, TouchPoint>)
    ensures r.Keys == m.Keys + Ids(ts)
    decreases |ts|
  {
    if ts == [] then m
    else
      var t := ts[|ts| - 1];
      Started(m, ts[..|ts| - 1], now)[t.identifier := TouchPoint(t.clientX, t.clientY, now)]
  }

  /** `handleTouchMove`: only touches already tracked move; their start time is kept. */
  function Moved(m: map<int, TouchPoint>, ts: seq<Touch>): (r: map<int, TouchPoint>)
    ensures r.Keys == m.Keys
    ensures forall id :: id in r ==> r[id].startTime == m[id].startTime
    decreases |ts|
  {
    if ts == [] then m
    else
      var t := ts[|ts| - 1];
      var prev := Moved(m, ts[..|ts| - 1]);
      if t.identifier in prev then prev[t.identifier := prev[t.identifier].(x := t.clientX, y := t.clientY)] else prev
  }

  /** `handleTouchEnd`: every listed touch stops being tracked. */
  function Ended(m: map<int, TouchPoint>, ts: seq<Touch>): (r: map<int, TouchPoint>)
    ensures r.Keys == m.Keys - Ids(ts)
    ensures forall id :: id in r ==> r[id] == m[id]
    decreases |ts|
  {
    if ts == [] then m
    else Ended(m, ts[..|ts| - 1]) - {ts[|ts| - 1].identifier}
  }

  /** Touches that start and then end together leave nothing tracked. */
  lemma StartThenEndClears(ts: seq<Touch>, now: real)
    ensures Ended(Started(map[], ts, now), ts) == map[]
  {
    assert Ended(Started(map[], ts, now), ts).Keys == {};
  }

  /** A move of an untracked touch changes nothing. */
  lemma MoveIgnoresUntracked(m: map<int, TouchPoint>, t: Touch)
    requires t.identifier !in m
    ensures Moved(m, [t]) == m
  {
    assert [t][..0] == [];
  }

  // ------------------------------------------------------------ gestures

  /** `(deg + 360) % 360` with JavaScript's remainder, which truncates toward zero. */
  function Normalized(deg: real): (a: real)
    ensures deg + 360.0 >= 0.0 ==> 0.0 <= a < 360.0
    ensures deg + 360.0 < 0.0 ==> -360.0 < a <= 0.0
  {
    var x := deg + 360.0;
    var q := x / 360.0;
    var t := if q >= 0.0 then q.Floor else -((-q).Floor);
    x - 360.0 * (t as real)
  }

  /**
   * The sector rule for a swipe angle: on [0, 360) each direction owns the
   * quarter turn centred on its own axis (right 0, down 90, left 180, up 270).
   */
  function Classify(a: real): (s: Swipe)
    ensures 0.0 <= a < 360.0 ==>
              && (s == Right <==> -45.0 <= a < 45.0 || -45.0 <= a - 360.0 < 45.0)
              && (s == Down <==> -45.0 <= a - 90.0 < 45.0)
              && (s == Left <==> -45.0 <= a - 180.0 < 45.0)
              && (s == Up <==> -45.0 <= a - 270.0 < 45.0)
  {
    if a >= 315.0 || a < 45.0 then Right
    else if a >= 45.0 && a < 135.0 then Down
    else if a >= 135.0 && a < 225.0 then Left
    else Up
  }

  /** For a bearing from `atan2` (in (-180, 180]), the normalised angle lies in [0, 360). */
  lemma NormalizedRange(deg: real)
    requires -180.0 < deg <= 180.0
    ensures 0.0 <= Normalized(deg) < 360.0
    ensures deg >= 0.0 ==> Normalized(deg) == deg
    ensures deg < 0.0 ==> Normalized(deg) == deg + 360.0
  {
    var x := deg + 360.0;
    var q := x / 360.0;
    if deg >= 0.0 {
      assert 1.0 <= q <= 1.5;
      assert q.Floor == 1;
    } else {
      assert 0.5 < q < 1.0;
      assert q.Floor == 0;
    }
  }

  /**
   * The four sectors in screen coordinates (y grows downward): right within
   * 45 degrees of the x axis, down and up for steeper downward and upward
   * bearings, left for the rest.
   */
  lemma SwipeSectors(deg: real)
    requires -180.0 < deg <= 180.0
    ensures Classify(Normalized(deg)) == Right <==> -45.0 <= deg < 45.0
    ensures Classify(Normalized(deg)) == Down <==> 45.0 <= deg < 135.0
    ensures Classify(Normalized(deg)) == Left <==> deg >= 135.0 || deg < -135.0
    ensures Classify(Normalized(deg)) == Up <==> -135.0 <= deg < -45.0
  {
    NormalizedRange(deg);
  }

  /**
   * The recogniser's `touchstart` callback: a tap is pending and the start is remembered. With an empty
   * touch list the start time is taken before reading the missing touch throws, so only the time changes
   * (the throw is swallowed); an event with no touch list throws at once and changes nothing.
   */
  function GestureBegin(g: Gestures, r: Recognizer, e: InputEvent, now: real): (res: (Gestures, Recognizer))
    ensures e.TouchEvent? && |e.touches| > 0 ==> res.0 == g.(tap := true) && res.1 == Recognizer(now, e.touches[0].clientX, e.touches[0].clientY)
    ensures e.TouchEvent? && |e.touches| == 0 ==> res == (g, r.(time := now))
    ensures !e.TouchEvent? ==> res == (g, r)
  {
    if !e.TouchEvent? then (g, r)
    else if |e.touches| > 0 then (g.(tap := true), Recognizer(now, e.touches[0].clientX, e.touches[0].clientY))
    else (g, r.(time := now))
  }

  /** Squared distance, compared against squared thresholds in place of `Utils.distance`. */
  function Dist2(x1: real, y1: real, x2: real, y2: real): real
  {
    (x2 - x1) * (x2 - x1) + (y2 - y1) * (y2 - y1)
  }

  /**
   * The recogniser's `touchend` callback: a short (< 200 ms), small (< 10 px)
   * touch is a tap and cancels a pending swipe; a quick (< 500 ms), long
   * (> 50 px) one is a swipe classified by its bearing and cancels the tap.
   */
  function GestureFinish(g: Gestures, r: Recognizer, e: InputEvent, now: real, bearing: (real, real, real, real) -> real): (res: Gestures)
    ensures !e.TouchEvent? || |e.changedTouches| == 0 ==> res == g
    ensures now - r.time >= 500.0 ==> res == g
    ensures res != g ==> (res.swipe.Some? <==> !res.tap)
    ensures e.TouchEvent? && |e.changedTouches| > 0 && now - r.time < 500.0
            && Dist2(r.x, r.y, e.changedTouches[0].clientX, e.changedTouches[0].clientY) > 2500.0 ==>
              var t := e.changedTouches[0];
              res == Gestures(Some(Classify(Normalized(bearing(r.x, r.y, t.clientX, t.clientY)))), false)
  {
    if !e.TouchEvent? || |e.changedTouches| == 0 then g
    else
      var t := e.changedTouches[0];
      var duration := now - r.time;
      var d2 := Dist2(r.x, r.y, t.clientX, t.clientY);
      var g1 := if duration < 200.0 && d2 < 100.0 then Gestures(None, true) else g;
      if duration < 500.0 && d2 > 2500.0 then Gestures(Some(Classify(Normalized(bearing(r.x, r.y, t.clientX, t.clientY)))), false)
      else g1
  }

  /**
   * The direction of a recorded swipe follows the bearing from the start to the first changed touch:
   * right within 45 degrees of the x axis, down and up for the steeper downward and upward bearings,
   * left for the rest.
   */
  lemma SwipeDirection(g: Gestures, r: Recognizer, ts: seq<Touch>, changed: seq<Touch>, now: real, bearing: (real, real, real, real) -> real)
    requires |changed| > 0 && now - r.time < 500.0
    requires Dist2(r.x, r.y, changed[0].clientX, changed[0].clientY) > 2500.0
    requires -180.0 < bearing(r.x, r.y, changed[0].clientX, changed[0].clientY) <= 180.0
    ensures var res := GestureFinish(g, r, TouchEvent(ts, changed), now, bearing);
            var deg := bearing(r.x, r.y, changed[0].clientX, changed[0].clientY);
            && !res.tap
            && (res.swipe == Some(Right) <==> -45.0 <= deg < 45.0)
            && (res.swipe == Some(Down) <==> 45.0 <= deg < 135.0)
            && (res.swipe == Some(Left) <==> deg >= 135.0 || deg < -135.0)
            && (res.swipe == Some(Up) <==> -135.0 <= deg < -45.0)
  {
    SwipeSectors(bearing(r.x, r.y, changed[0].clientX, changed[0].clientY));
  }

  /** A swipe appears, and the tap is cancelled, exactly for quick, long touches. */
  lemma SwipeNeedsSpeedAndDistance(g: Gestures, r: Recognizer, ts: seq<Touch>, changed: seq<Touch>, now: real, bearing: (real, real, real, real) -> real)
    requires |changed| > 0 && g.swipe.None?
    ensures var res := GestureFinish(g, r, TouchEvent(ts, changed), now, bearing);
            var t := changed[0];
            res.swipe.Some? <==> now - r.time < 500.0 && Dist2(r.x, r.y, t.clientX, t.clientY) > 2500.0
  {
  }

  /** A quick, small touch leaves exactly a tap pending. */
  lemma QuickTouchTaps(g: Gestures, r: Recognizer, ts: seq<Touch>, changed: seq<Touch>, now: real, bearing: (real, real, real, real) -> real)
    requires |changed| > 0 && now - r.time < 200.0 && Dist2(r.x, r.y, changed[0].clientX, changed[0].clientY) < 100.0
    ensures GestureFinish(g, r, TouchEvent(ts, changed), now, bearing) == Gestures(None, true)
  {
  }

  /**
   * `touchstart` already marks a tap, and a slow touch neither confirms nor
   * cancels it, so a long press still reads as a tap.
   */
  lemma LongPressStillTaps(g: Gestures, r: Recognizer, start: seq<Touch>, changed: seq<Touch>, t0: real, t1: real, bearing: (real, real, real, real) -> real)
    requires |start| > 0 && |changed| > 0 && t1 - t0 >= 500.0
    ensures var (g1, r1) := GestureBegin(g, r, TouchEvent(start, []), t0);
            GestureFinish(g1, r1, TouchEvent([], changed), t1, bearing).tap
  {
  }

  // ------------------------------------------------------------ callbacks

  function Invocations(cbs: seq<nat>, event: string, data: InputEvent): (r: seq<Invocation>)
    ensures |r| == |cbs|
    ensures forall k :: 0 <= k < |cbs| ==> r[k] == Invocation(cbs[k], event, data)
  {
    if cbs == [] then [] else [Invocation(cbs[0], event, data)] + Invocations(cbs[1..], event, data)
  }

  /** The calls `emit` makes: each registered callback in order, past one that throws; an unknown event calls nothing. */
  function Emitted(callbacks: map<string, seq<nat>>, event: string, data: InputEvent): seq<Invocation>
  {
    if event in callbacks then Invocations(callbacks[event], event, data) else []
  }

  // ------------------------------------------------------------ the handler

  class InputHandler {
    var keys: map<string, bool>
    var touches: map<int, TouchPoint>
    var mouse: Mouse
    var gestures: Gestures
    var recognizer: Recognizer
    var callbacks: map<string, seq<nat>>
    var paused: bool
    /** The calls made to registered callbacks, in order. */
    var calls: seq<Invocation>
    /** `Utils.angle(x1, y1, x2, y2) * 180 / Math.PI`. */
    const bearing: (real, real, real, real) -> real

    constructor(bearing: (real, real, real, real) -> real)
      ensures keys == map[] && touches == map[] && mouse == Mouse(0.0, 0.0, false) && gestures == Gestures(None, false)
      ensures callbacks.Keys == EventNames && forall e :: e in callbacks ==> callbacks[e] == []
      ensures !paused && calls == [] && this.bearing == bearing
      ensures recognizer == Recognizer(0.0, 0.0, 0.0)
    {
      keys := map[];
      touches := map[];
      mouse := Mouse(0.0, 0.0, false);
      gestures := Gestures(None, false);
      recognizer := Recognizer(0.0, 0.0, 0.0);
      callbacks := map["keydown" := [], "keyup" := [], "touchstart" := [], "touchmove" := [], "touchend" := [],
                       "mousedown" := [], "mousemove" := [], "mouseup" := []];
      paused := false;
      calls := [];
      this.bearing := bearing;
    }

    /** `emit(event, data)`. */
    method Emit(event: string, data: InputEvent)
      modifies this`calls
      ensures calls == old(calls) + Emitted(callbacks, event, data)
    {
      if event in callbacks {
        var cbs := callbacks[event];
        var i := 0;
        while i < |cbs|
          invariant 0 <= i <= |cbs|
          invariant calls == old(calls) + Invocations(cbs[..i], event, data)
        {
          assert Invocations(cbs[..i + 1], event, data) == Invocations(cbs[..i], event, data) + [Invocation(cbs[i], event, data)];
          calls := calls + [Invocation(cbs[i], event, data)];
          i := i + 1;
        }
        assert cbs[..i] == cbs;
      }
    }

    /** `on(event, callback)`: only the eight known events accept callbacks. */
    method On(event: string, cb: nat)
      modifies this`callbacks
      ensures event in old(callbacks) ==> callbacks == old(callbacks)[event := old(callbacks)[event] + [cb]]
      ensures event !in old(callbacks) ==> callbacks == old(callbacks)
    {
      if event in callbacks {
        callbacks := callbacks[event := callbacks[event] + [cb]];
      }
    }

    /** `off(event, callback)`: the first registration goes. */
    method Off(event: string, cb: nat)
      modifies this`callbacks
      ensures event in old(callbacks) ==> callbacks == old(callbacks)[event := Helpers.Remove(old(callbacks)[event], cb).1]
      ensures event !in old(callbacks) ==> callbacks == old(callbacks)
    {
      if event in callbacks {
        var list := callbacks[event];
        var index := Helpers.IndexOf(list, cb);
        Helpers.RemoveSplices(list, cb);
        if index > -1 {
          callbacks := callbacks[event := list[..index] + list[index + 1..]];
        } else {
          Helpers.UpdateSame(callbacks, event);
        }
      }
    }

    method OnKeyDown(key: string)
      modifies this`keys, this`calls
      ensures keys == old(keys)[key := true]
      ensures calls == old(calls) + Emitted(callbacks, "keydown", KeyEvent(key))
    {
      keys := keys[key := true];
      Emit("keydown", KeyEvent(key));
    }

    method OnKeyUp(key: string)
      modifies this`keys, this`calls
      ensures keys == old(keys)[key := false]
      ensures calls == old(calls) + Emitted(callbacks, "keyup", KeyEvent(key))
    {
      keys := keys[key := false];
      Emit("keyup", KeyEvent(key));
    }

    method HandleTouchStart(ts: seq<Touch>, now: real)
      modifies this`touches
      ensures touches == Started(old(touches), ts, now)
    {
      var i := 0;
      while i < |ts|
        invariant 0 <= i <= |ts|
        invariant touches == Started(old(touches), ts[..i], now)
      {
        assert ts[..i + 1][..i] == ts[..i];
        touches := touches[ts[i].identifier := TouchPoint(ts[i].clientX, ts[i].clientY, now)];
        i := i + 1;
      }
      assert ts[..i] == ts;
    }

    method HandleTouchMove(ts: seq<Touch>)
      modifies this`touches
      ensures touches == Moved(old(touches), ts)
    {
      var i := 0;
      while i < |ts|
        invariant 0 <= i <= |ts|
        invariant touches == Moved(old(touches), ts[..i])
      {
        assert ts[..i + 1][..i] == ts[..i];
        var id := ts[i].identifier;
        if id in touches {
          touches := touches[id := touches[id].(x := ts[i].clientX, y := ts[i].clientY)];
        }
        i := i + 1;
      }
      assert ts[..i] == ts;
    }

    method HandleTouchEnd(ts: seq<Touch>)
      modifies this`touches
      ensures touches == Ended(old(touches), ts)
    {
      var i := 0;
      while i < |ts|
        invariant 0 <= i <= |ts|
        invariant touches == Ended(old(touches), ts[..i])
      {
        assert ts[..i + 1][..i] == ts[..i];
        touches := touches - {ts[i].identifier};
        i := i + 1;
      }
      assert ts[..i] == ts;
    }

    /** A `touchstart` event at time `now`. */
    method OnTouchStart(ts: seq<Touch>, changed: seq<Touch>, now: real)
      modifies this`touches, this`gestures, this`recognizer, this`calls
      ensures touches == Started(old(touches), ts, now)
      ensures (gestures, recognizer) == GestureBegin(old(gestures), old(recognizer), TouchEvent(ts, changed), now)
      ensures calls == old(calls) + Emitted(callbacks, "touchstart", TouchEvent(ts, changed))
    {
      HandleTouchStart(ts, now);
      var (g, r) := GestureBegin(gestures, recognizer, TouchEvent(ts, changed), now);
      gestures, recognizer := g, r;
      Emit("touchstart", TouchEvent(ts, changed));
    }

    method OnTouchMove(ts: seq<Touch>, changed: seq<Touch>)
      modifies this`touches, this`calls
      ensures touches == Moved(old(touches), ts)
      ensures calls == old(calls) + Emitted(callbacks, "touchmove", TouchEvent(ts, changed))
    {
      HandleTouchMove(ts);
      Emit("touchmove", TouchEvent(ts, changed));
    }

    /** A `touchend` event at time `now`. */
    method OnTouchEnd(ts: seq<Touch>, changed: seq<Touch>, now: real)
      modifies this`touches, this`gestures, this`calls
      ensures touches == Ended(old(touches), changed)
      ensures gestures == GestureFinish(old(gestures), recognizer, TouchEvent(ts, changed), now, bearing)
      ensures calls == old(calls) + Emitted(callbacks, "touchend", TouchEvent(ts, changed))
    {
      HandleTouchEnd(changed);
      gestures := GestureFinish(gestures, recognizer, TouchEvent(ts, changed), now, bearing);
      Emit("touchend", TouchEvent(ts, changed));
    }

    /** `touchcancel`: the touches end, and no callback hears of it. */
    method OnTouchCancel(changed: seq<Touch>)
      modifies this`touches
      ensures touches == Ended(old(touches), changed)
    {
      HandleTouchEnd(changed);
    }

    method OnMouseDown(x: real, y: real)
      modifies this`mouse, this`calls
      ensures mouse == Mouse(x, y, true)
      ensures calls == old(calls) + Emitted(callbacks, "mousedown", MouseEvent(x, y))
    {
      mouse := Mouse(x, y, true);
      Emit("mousedown", MouseEvent(x, y));
    }

    method OnMouseMove(x: real, y: real)
      modifies this`mouse, this`calls
      ensures mouse == old(mouse).(x := x, y := y)
      ensures calls == old(calls) + Emitted(callbacks, "mousemove", MouseEvent(x, y))
    {
      mouse := mouse.(x := x, y := y);
      Emit("mousemove", MouseEvent(x, y));
    }

    method OnMouseUp(x: real, y: real)
      modifies this`mouse, this`calls
      ensures mouse == Mouse(x, y, false)
      ensures calls == old(calls) + Emitted(callbacks, "mouseup", MouseEvent(x, y))
    {
      mouse := Mouse(x, y, false);
      Emit("mouseup", MouseEvent(x, y));
    }

    /** `mouseleave`: released where it was, reported to `mouseup` callbacks. */
    method OnMouseLeave(x: real, y: real)
      modifies this`mouse, this`calls
      ensures mouse == old(mouse).(pressed := false)
      ensures calls == old(calls) + Emitted(callbacks, "mouseup", MouseEvent(x, y))
    {
      mouse := mouse.(pressed := false);
      Emit("mouseup", MouseEvent(x, y));
    }

    /** `isKeyDown`, `keys[key] || false`: the last event for the key was a keydown; a key never pressed reads as up. */
    predicate IsKeyDown(key: string)
      reads this
      ensures key !in keys ==> !IsKeyDown(key)
      ensures IsKeyDown(key) ==> IsAnyKeyDown()
    {
      key in keys && keys[key]
    }

    /** `Object.values(keys).some(...)`: some recorded key is down. */
    predicate IsAnyKeyDown()
      reads this
      ensures IsAnyKeyDown() <==> true in keys.Values
      ensures keys == map[] ==> !IsAnyKeyDown()
    {
      exists k :: k in keys && keys[k]
    }

    /** Some touch is tracked; without one there is no position for touch 0. */
    predicate IsTouchActive()
      reads this
      ensures IsTouchActive() <==> exists id :: id in touches
      ensures !IsTouchActive() ==> GetTouchPosition(0).None?
    {
      if |touches| > 0 then
        var ids := touches.Keys;
        assert |ids| > 0;
        assert exists id :: id in ids by {
          if forall id :: id !in ids { assert false; }
        }
        true
      else
        assert touches == map[];
        false
    }

    function GetTouchPosition(id: int): (r: Option<(real, real)>)
      reads this
      ensures r.Some? <==> id in touches
      ensures r.Some? ==> r.value == (touches[id].x, touches[id].y)
    {
      if id in touches then Some((touches[id].x, touches[id].y)) else None
    }

    /**
     * `getRelativePosition`: touch 0 when any touch is active (nothing if
     * touch 0 is not among them), else the pressed mouse, relative to the
     * element's top-left corner.
     */
    function GetRelativePosition(left: real, top: real): (r: Option<(real, real)>)
      reads this
      ensures IsTouchActive() ==> (r.Some? <==> 0 in touches)
      ensures IsTouchActive() && 0 in touches ==> r == Some((touches[0].x - left, touches[0].y - top))
      ensures !IsTouchActive() ==> (r.Some? <==> mouse.pressed)
      ensures !IsTouchActive() && mouse.pressed ==> r == Some((mouse.x - left, mouse.y - top))
    {
      if IsTouchActive() then
        match GetTouchPosition(0)
        case None => None
        case Some((x, y)) => Some((x - left, y - top))
      else if mouse.pressed then Some((mouse.x - left, mouse.y - top))
      else None
    }

    /** `didTap`: returns the pending tap and consumes it. */
    method DidTap() returns (tap: bool)
      modifies this`gestures
      ensures tap == old(gestures).tap && gestures == old(gestures).(tap := false)
    {
      tap := gestures.tap;
      gestures := gestures.(tap := false);
    }

    /** `getSwipe`: returns the pending swipe and consumes it. */
    method GetSwipe() returns (swipe: Option<Swipe>)
      modifies this`gestures
      ensures swipe == old(gestures).swipe && gestures == old(gestures).(swipe := None)
    {
      swipe := gestures.swipe;
      gestures := gestures.(swipe := None);
    }

    predicate AnyDown(k1: string, k2: string, k3: string)
      reads this
    {
      IsKeyDown(k1) || IsKeyDown(k2) || IsKeyDown(k3)
    }

    /**
     * The direction queries: three keys, then the pending swipe. The `||`
     * short-circuits, so a held key leaves the swipe pending; otherwise the
     * swipe is consumed even when it points elsewhere.
     */
    method DirectionPressed(k1: string, k2: string, k3: string, dir: Swipe) returns (pressed: bool)
      modifies this`gestures
      ensures pressed <==> old(AnyDown(k1, k2, k3)) || old(gestures).swipe == Some(dir)
      ensures old(AnyDown(k1, k2, k3)) ==> gestures == old(gestures)
      ensures !old(AnyDown(k1, k2, k3)) ==> gestures == old(gestures).(swipe := None)
    {
      if AnyDown(k1, k2, k3) {
        return true;
      }
      var swipe := GetSwipe();
      pressed := swipe == Some(dir);
    }

    method IsLeftPressed() returns (pressed: bool)
      modifies this`gestures
      ensures pressed <==> old(AnyDown("ArrowLeft", "a", "A")) || old(gestures).swipe == Some(Left)
      ensures old(AnyDown("ArrowLeft", "a", "A")) ==> gestures == old(gestures)
      ensures !old(AnyDown("ArrowLeft", "a", "A")) ==> gestures == old(gestures).(swipe := None)
    {
      pressed := DirectionPressed("ArrowLeft", "a", "A", Left);
    }

    method IsRightPressed() returns (pressed: bool)
      modifies this`gestures
      ensures pressed <==> old(AnyDown("ArrowRight", "d", "D")) || old(gestures).swipe == Some(Right)
      ensures old(AnyDown("ArrowRight", "d", "D")) ==> gestures == old(gestures)
      ensures !old(AnyDown("ArrowRight", "d", "D")) ==> gestures == old(gestures).(swipe := None)
    {
      pressed := DirectionPressed("ArrowRight", "d", "D", Right);
    }

    method IsUpPressed() returns (pressed: bool)
      modifies this`gestures
      ensures pressed <==> old(AnyDown("ArrowUp", "w", "W")) || old(gestures).swipe == Some(Up)
      ensures old(AnyDown("ArrowUp", "w", "W")) ==> gestures == old(gestures)
      ensures !old(AnyDown("ArrowUp", "w", "W")) ==> gestures == old(gestures).(swipe := None)
    {
      pressed := DirectionPressed("ArrowUp", "w", "W", Up);
    }

    method IsDownPressed() returns (pressed: bool)
      modifies this`gestures
      ensures pressed <==> old(AnyDown("ArrowDown", "s", "S")) || old(gestures).swipe == Some(Down)
      ensures old(AnyDown("ArrowDown", "s", "S")) ==> gestures == old(gestures)
      ensures !old(AnyDown("ArrowDown", "s", "S")) ==> gestures == old(gestures).(swipe := None)
    {
      pressed := DirectionPressed("ArrowDown", "s", "S", Down);
    }

    /** `isFirePressed`: space or z, else the pending tap (consumed). */
    method IsFirePressed() returns (pressed: bool)
      modifies this`gestures
      ensures pressed <==> old(AnyDown(" ", "z", "Z")) || old(gestures).tap
      ensures old(AnyDown(" ", "z", "Z")) ==> gestures == old(gestures)
      ensures !old(AnyDown(" ", "z", "Z")) ==> gestures == old(gestures).(tap := false)
    {
      if AnyDown(" ", "z", "Z") {
        return true;
      }
      pressed := DidTap();
    }

    /** Escape, p or P; reading it consumes no gesture. */
    predicate IsPausePressed()
      reads this
      ensures IsPausePressed() <==> exists k :: k in {"Escape", "p", "P"} && IsKeyDown(k)
      ensures IsPausePressed() ==> IsAnyKeyDown()
    {
      AnyDown("Escape", "p", "P")
    }

    /** `isSkill1Pressed` .. `isSkill3Pressed`: the digit keys. */
    predicate IsSkillPressed(n: int)
      reads this
      ensures IsSkillPressed(n) ==> 1 <= n <= 3 && IsAnyKeyDown()
      ensures 1 <= n <= 3 ==> (IsSkillPressed(n) <==> IsKeyDown([('0' as int + n) as char]))
    {
      (n == 1 && IsKeyDown("1")) || (n == 2 && IsKeyDown("2")) || (n == 3 && IsKeyDown("3"))
    }

    /** `reset`: keys, touches, mouse and gestures back to their initial values; callbacks stay. */
    method Reset()
      modifies this`keys, this`touches, this`mouse, this`gestures
      ensures keys == map[] && touches == map[] && mouse == Mouse(0.0, 0.0, false) && gestures == Gestures(None, false)
      ensures !IsTouchActive() && !IsAnyKeyDown()
    {
      keys := map[];
      touches := map[];
      mouse := Mouse(0.0, 0.0, false);
      gestures := Gestures(None, false);
    }

    /** `pause` only raises a flag that no handler consults. */
    method Pause()
      modifies this`paused
      ensures paused
    {
      paused := true;
    }

    method Resume()
      modifies this`paused, this`keys, this`touches, this`mouse, this`gestures
      ensures !paused
      ensures keys == map[] && touches == map[] && mouse == Mouse(0.0, 0.0, false) && gestures == Gestures(None, false)
    {
      paused := false;
      Reset();
    }
  }

  /** Registering a new callback and removing it again leaves the registry as it was. */
  lemma OnThenOff(callbacks: map<string, seq<nat>>, event: string, cb: nat)
    requires event in callbacks && cb !in callbacks[event]
    ensures var added := callbacks[event := callbacks[event] + [cb]];
            added[event := Helpers.Remove(added[event], cb).1] == callbacks
  {
    Helpers.RemoveLastAdded(callbacks[event], cb);
  }
}
