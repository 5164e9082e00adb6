/**
 * The base game object: a box with lifecycle flags and a name-to-component
 * map whose `destroy` / `clone` hooks are optional.
 */
module Entities {
  import opened Options
  import Helpers

  // ---------------------------------------------------------------- geometry

  /** The object `getBounds` returns. */
  datatype Bounds = Bounds(left: real, top: real, right: real, bottom: real, centerX: real, centerY: real)

  function BoundsOf(x: real, y: real, width: real, height: real): (b: Bounds)
    ensures b.left == x && b.top == y
    ensures b.right - b.left == width && b.bottom - b.top == height
    ensures 2.0 * b.centerX == b.left + b.right && 2.0 * b.centerY == b.top + b.bottom
  {
    Bounds(x, y, x + width, y + height, x + width / 2.0, y + height / 2.0)
  }

  /** The closed axis-aligned overlap test shared by `collidesWith` and `aabbCollision`. */
  predicate Overlap(a: Bounds, b: Bounds)
  {
    !(a.right < b.left || a.left > b.right || a.bottom < b.top || a.top > b.bottom)
  }

  lemma OverlapSymmetricAndClosed(a: Bounds, b: Bounds)
    ensures Overlap(a, b) == Overlap(b, a)
    ensures Overlap(a, b) <==> a.left <= b.right && b.left <= a.right && a.top <= b.bottom && b.top <= a.bottom
    ensures (a.left <= a.right && a.top <= a.bottom && b.left <= b.right && b.top <= b.bottom
             && a.right == b.left && a.top == b.top) ==> Overlap(a, b)
  {
  }

  /** A box overlaps itself exactly when it is not inverted. */
  lemma OverlapSelf(a: Bounds)
    ensures Overlap(a, a) <==> a.left <= a.right && a.top <= a.bottom
  {
  }

  function ClampReal(v: real, lo: real, hi: real): (r: real)
    ensures lo <= hi ==> lo <= r <= hi
    ensures lo <= v <= hi ==> r == v
  {
    var m := if hi < v then hi else v;
    if lo < m then m else lo
  }

  function Sq(v: real): (r: real)
    ensures r >= 0.0
  {
    v * v
  }

  lemma SqPositive(v: real)
    requires v > 0.0
    ensures Sq(v) > 0.0
  {
    calc {
      Sq(v);
    ==
      v * v;
    >  { Helpers.ProductPositive(v, v); }
      0.0;
    }
  }

  /**
   * `collidesWithCircle`: the distance from the circle centre to the clamped
   * closest point of the box is strictly below the radius, compared squared
   * (a radius that is not positive never hits, as no distance is negative).
   */
  predicate CircleHitsBox(b: Bounds, cx: real, cy: real, radius: real)
  {
    var px := ClampReal(cx, b.left, b.right);
    var py := ClampReal(cy, b.top, b.bottom);
    radius > 0.0 && Sq(cx - px) + Sq(cy - py) < Sq(radius)
  }

  /** Clamping gives the nearest coordinate of the interval. */
  lemma ClampIsNearest(v: real, lo: real, hi: real, p: real)
    requires lo <= p <= hi
    ensures Sq(v - ClampReal(v, lo, hi)) <= Sq(v - p)
  {
    var c := ClampReal(v, lo, hi);
    if v < lo {
      assert 0.0 < c - v <= p - v;
      assert (c - v) * (c - v) <= (p - v) * (c - v) <= (p - v) * (p - v);
    } else if v > hi {
      assert 0.0 < v - c <= v - p;
      assert (v - c) * (v - c) <= (v - p) * (v - c) <= (v - p) * (v - p);
    }
  }

  /**
   * The circle test hits exactly when some point of the (non-inverted) box lies
   * strictly inside the circle.
   */
  lemma {:induction false} CircleHitMeansNearPoint(b: Bounds, cx: real, cy: real, radius: real, px: real, py: real)
    requires b.left <= b.right && b.top <= b.bottom
    requires b.left <= px <= b.right && b.top <= py <= b.bottom
    requires radius > 0.0 && Sq(cx - px) + Sq(cy - py) < Sq(radius)
    ensures CircleHitsBox(b, cx, cy, radius)
  {
    ClampIsNearest(cx, b.left, b.right, px);
    ClampIsNearest(cy, b.top, b.bottom, py);
  }

  // ---------------------------------------------------------------- components

  /** A component object; only whether it has `destroy` / `clone` methods matters here. */
  datatype Component = Component(kind: string, hasDestroy: bool, hasClone: bool, generation: nat)

  /** What `component.clone()` returns: a fresh copy of the same kind. */
  function CloneOf(c: Component): (d: Component)
    ensures d.kind == c.kind && d.generation == c.generation + 1
  {
    c.(generation := c.generation + 1)
  }

  /** An entry of the `Map`; the sequence keeps JavaScript's insertion order. */
  datatype Slot = Slot(name: string, component: Component)

  /** A component hook that ran: the component's name and the component. */
  datatype HookCall = DestroyCall(name: string, component: Component)

  predicate DistinctNames(slots: seq<Slot>)
  {
    forall i, j :: 0 <= i < j < |slots| ==> slots[i].name != slots[j].name
  }

  predicate HasName(slots: seq<Slot>, name: string)
  {
    exists k :: 0 <= k < |slots| && slots[k].name == name
  }

  /** The position of `name` in the map's insertion order, or -1. */
  function FindName(slots: seq<Slot>, name: string): (i: int)
    ensures -1 <= i < |slots|
    ensures i == -1 <==> !HasName(slots, name)
    ensures i >= 0 ==> slots[i].name == name && forall k :: 0 <= k < i ==> slots[k].name != name
  {
    if slots == [] then -1
    else if slots[0].name == name then 0
    else
      var k := FindName(slots[1..], name);
      assert forall j :: 1 <= j < |slots| ==> slots[j] == slots[1..][j - 1];
      if k == -1 then -1 else k + 1
  }

  /** `Map.prototype.get`. */
  function Lookup(slots: seq<Slot>, name: string): (r: Option<Component>)
    ensures r.None? <==> !HasName(slots, name)
    ensures r.Some? ==> Slot(name, r.value) in slots
  {
    var i := FindName(slots, name);
    if i == -1 then None else Some(slots[i].component)
  }

  /** `Map.prototype.set`: an existing key keeps its place, a new key goes last. */
  function Put(slots: seq<Slot>, name: string, c: Component): (r: seq<Slot>)
    ensures HasName(slots, name) ==> |r| == |slots|
    ensures !HasName(slots, name) ==> r == slots + [Slot(name, c)]
    ensures forall i :: 0 <= i < |slots| ==> r[i].name == slots[i].name
    ensures forall i :: 0 <= i < |slots| && slots[i].name != name ==> r[i] == slots[i]
  {
    var i := FindName(slots, name);
    if i == -1 then slots + [Slot(name, c)] else slots[i := Slot(name, c)]
  }

  /** `Map.prototype.delete`. */
  function Delete(slots: seq<Slot>, name: string): (r: seq<Slot>)
    ensures |r| <= |slots|
    ensures forall s :: s in r <==> s in slots && s.name != name
  {
    if slots == [] then []
    else if slots[0].name == name then Delete(slots[1..], name)
    else [slots[0]] + Delete(slots[1..], name)
  }

  /** The `destroy` hooks `forEach` runs, in insertion order. */
  function DestroyHooks(slots: seq<Slot>): (r: seq<HookCall>)
    ensures |r| <= |slots|
  {
    if slots == [] then []
    else
      var last := slots[|slots| - 1];
      DestroyHooks(slots[..|slots| - 1]) + if last.component.hasDestroy then [DestroyCall(last.name, last.component)] else []
  }

  /** `forEach` over two parts of the map runs the hooks of the first part, then those of the second, and one
      entry calls its component's `destroy` once exactly when it has one: so each hook runs once, in insertion order. */
  lemma {:induction false} DestroyHooksAppend(a: seq<Slot>, b: seq<Slot>, s: Slot)
    ensures DestroyHooks(a + b) == DestroyHooks(a) + DestroyHooks(b)
    ensures DestroyHooks([s]) == if s.component.hasDestroy then [DestroyCall(s.name, s.component)] else []
    decreases |b|
  {
    if b == [] {
      assert a + b == a;
    } else {
      var init := b[..|b| - 1];
      assert (a + b)[..|a + b| - 1] == a + init && (a + b)[|a + b| - 1] == b[|b| - 1];
      DestroyHooksAppend(a, init, s);
    }
    assert [s][..0] == [];
  }

  /** Exactly the components that have a `destroy` method get it called. */
  lemma {:induction false} DestroyHooksExactly(slots: seq<Slot>, h: HookCall)
    ensures h in DestroyHooks(slots) <==>
            exists i :: 0 <= i < |slots| && slots[i].component.hasDestroy && h == DestroyCall(slots[i].name, slots[i].component)
  {
    if slots != [] {
      var init := slots[..|slots| - 1];
      DestroyHooksExactly(init, h);
      assert forall i :: 0 <= i < |init| ==> init[i] == slots[i];
      if h in DestroyHooks(init) {
        var i :| 0 <= i < |init| && init[i].component.hasDestroy && h == DestroyCall(init[i].name, init[i].component);
        assert slots[i] == init[i];
      }
    }
  }

  /** The component each slot of a clone holds: `component.clone()` when present, else the same object. */
  function CloneSlot(s: Slot): (t: Slot)
    ensures t.name == s.name
    ensures s.component.hasClone ==> t.component.generation == s.component.generation + 1
    ensures !s.component.hasClone ==> t.component == s.component
  {
    if s.component.hasClone then Slot(s.name, CloneOf(s.component)) else s
  }

  function CloneSlots(slots: seq<Slot>): (r: seq<Slot>)
    ensures |r| == |slots| && forall i :: 0 <= i < |slots| ==> r[i] == CloneSlot(slots[i])
  {
    if slots == [] then [] else CloneSlots(slots[..|slots| - 1]) + [CloneSlot(slots[|slots| - 1])]
  }

  /** After `set`, `get` finds the new component and every other key is unaffected. */
  lemma LookupAfterPut(slots: seq<Slot>, name: string, c: Component, other: string)
    requires DistinctNames(slots)
    ensures DistinctNames(Put(slots, name, c))
    ensures Lookup(Put(slots, name, c), name) == Some(c)
    ensures other != name ==> Lookup(Put(slots, name, c), other) == Lookup(slots, other)
  {
    var r := Put(slots, name, c);
    var i := FindName(slots, name);
    var j := FindName(slots, other);
    if i == -1 {
      assert r[|slots|].name == name;
    } else {
      assert r[i].name == name;
    }
    if other != name && j != -1 {
      assert r[j] == slots[j];
    }
    if other != name && j == -1 {
      assert !HasName(r, other);
    }
  }

  /** With distinct keys, `get` is decided by membership alone. */
  lemma LookupByMembership(slots: seq<Slot>, name: string, c: Component)
    requires DistinctNames(slots)
    ensures Lookup(slots, name) == Some(c) <==> Slot(name, c) in slots
  {
    if Slot(name, c) in slots {
      var k :| 0 <= k < |slots| && slots[k] == Slot(name, c);
      assert FindName(slots, name) == k;
    }
  }

  /** Deleting keeps the keys distinct; afterwards `has(name)` is false and other keys are unaffected. */
  lemma LookupAfterDelete(slots: seq<Slot>, name: string, other: string)
    requires DistinctNames(slots)
    ensures DistinctNames(Delete(slots, name))
    ensures !HasName(Delete(slots, name), name)
    ensures other != name ==> Lookup(Delete(slots, name), other) == Lookup(slots, other)
  {
    var r := Delete(slots, name);
    DeleteKeepsDistinct(slots, name);
    if other != name {
      match Lookup(slots, other)
      case Some(c) =>
        LookupByMembership(slots, other, c);
        LookupByMembership(r, other, c);
      case None =>
    }
  }

  lemma {:induction false} DeleteKeepsDistinct(slots: seq<Slot>, name: string)
    requires DistinctNames(slots)
    ensures DistinctNames(Delete(slots, name))
    decreases |slots|
  {
    if slots != [] {
      DeleteKeepsDistinct(slots[1..], name);
      var tail := Delete(slots[1..], name);
      if slots[0].name != name {
        var r := [slots[0]] + tail;
        forall k | 0 <= k < |tail| ensures tail[k].name != slots[0].name {
          assert tail[k] in tail;
          assert tail[k] in slots[1..];
        }
        assert forall k :: 1 <= k < |r| ==> r[k] == tail[k - 1];
      }
    }
  }

  // ---------------------------------------------------------------- the entity

  /** Everything of an entity except its components, as a value. */
  datatype Core = Core(id: Option<string>, typeTag: string, x: real, y: real, width: real, height: real,
                       destroyed: bool, active: bool, visible: bool)

  /** What the constructor sets: no id, live, active and visible. */
  function NewCore(x: real, y: real, width: real, height: real, typeTag: string): (c: Core)
    ensures c.id == None && !c.destroyed && c.active && c.visible
    ensures c.x == x && c.y == y && c.width == width && c.height == height && c.typeTag == typeTag
  {
    Core(None, typeTag, x, y, width, height, false, true, true)
  }

  function CoreBounds(c: Core): Bounds
  {
    BoundsOf(c.x, c.y, c.width, c.height)
  }

  /** `destroy`'s effect on the flags. */
  function DestroyCore(c: Core): (d: Core)
    ensures d.destroyed && !d.active
    ensures d == c.(destroyed := true, active := false)
  {
    c.(destroyed := true, active := false)
  }

  /** `reset`'s effect on the flags. */
  function ResetCore(c: Core): (d: Core)
    ensures !d.destroyed && d.active && d.visible
    ensures d == c.(destroyed := false, active := true, visible := true)
  {
    c.(destroyed := false, active := true, visible := true)
  }

  /** `reset` undoes `destroy` on a visible entity. */
  lemma ResetAfterDestroy(c: Core)
    requires !c.destroyed && c.active && c.visible
    ensures ResetCore(DestroyCore(c)) == c
  {
  }

  /** Whether the JavaScript value `id` is truthy: present and not the empty string. */
  predicate Truthy(id: Option<string>)
  {
    id.Some? && id.value != ""
  }

  class Entity {
    var id: Option<string>
    var typeTag: string
    var x: real
    var y: real
    var width: real
    var height: real
    var destroyed: bool
    var active: bool
    var visible: bool
    var components: seq<Slot>
    /** The component `destroy` hooks this entity has run, oldest first. */
    var hookLog: seq<HookCall>

    ghost predicate Valid()
      reads this
    {
      DistinctNames(components)
    }

    function State(): (c: Core)
      reads this
      ensures c.x == x && c.y == y && c.width == width && c.height == height
    {
      Core(id, typeTag, x, y, width, height, destroyed, active, visible)
    }

    constructor (x0: real, y0: real, w: real, h: real, tag: string)
      ensures Valid()
      ensures State() == NewCore(x0, y0, w, h, tag)
      ensures components == [] && hookLog == []
    {
      id := None;
      typeTag := tag;
      x, y, width, height := x0, y0, w, h;
      destroyed, active, visible := false, true, true;
      components := [];
      hookLog := [];
    }

    /** Writes a whole core back into the fields; the components and the hook log stay. */
    method Assign(c: Core)
      requires Valid()
      modifies this`id, this`typeTag, this`x, this`y, this`width, this`height, this`destroyed, this`active, this`visible
      ensures Valid() && State() == c
      ensures components == old(components) && hookLog == old(hookLog)
    {
      id, typeTag := c.id, c.typeTag;
      x, y, width, height := c.x, c.y, c.width, c.height;
      destroyed, active, visible := c.destroyed, c.active, c.visible;
    }

    method AddComponent(name: string, c: Component)
      requires Valid()
      modifies this`components
      ensures Valid()
      ensures components == Put(old(components), name, c)
      ensures GetComponent(name) == Some(c)
    {
      LookupAfterPut(components, name, c, name);
      components := Put(components, name, c);
    }

    /** Runs the component's `destroy` hook when it has one, then drops the entry. */
    method RemoveComponent(name: string)
      requires Valid()
      modifies this`components, this`hookLog
      ensures Valid()
      ensures components == Delete(old(components), name)
      ensures !HasComponent(name)
      ensures hookLog == old(hookLog) + match old(GetComponent(name))
                                        case Some(c) => if c.hasDestroy then [DestroyCall(name, c)] else []
                                        case None => []
    {
      var found := Lookup(components, name);
      if found.Some? && found.value.hasDestroy {
        hookLog := hookLog + [DestroyCall(name, found.value)];
      }
      LookupAfterDelete(components, name, name);
      components := Delete(components, name);
    }

    /** `Map.get`: the component stored under `name`, or nothing when the key is absent. */
    function GetComponent(name: string): (r: Option<Component>)
      reads this
      ensures r.Some? <==> HasComponent(name)
      ensures r.Some? ==> Slot(name, r.value) in components
    {
      Lookup(components, name)
    }

    /** `Map.has`: some entry of the map carries the key. */
    predicate HasComponent(name: string)
      reads this
      ensures HasComponent(name) <==> exists c :: Slot(name, c) in components
    {
      var present := HasName(components, name);
      assert present ==> Slot(name, components[FindName(components, name)].component) in components;
      present
    }

    method SetPosition(nx: real, ny: real)
      modifies this`x, this`y
      ensures State() == old(State()).(x := nx, y := ny)
    {
      x, y := nx, ny;
    }

    method Move(dx: real, dy: real)
      modifies this`x, this`y
      ensures State() == old(State()).(x := old(x) + dx, y := old(y) + dy)
    {
      x, y := x + dx, y + dy;
    }

    method SetSize(w: real, h: real)
      modifies this`width, this`height
      ensures State() == old(State()).(width := w, height := h)
    {
      width, height := w, h;
    }

    /** The box spans from (x, y) over the entity's width and height; the centre is its middle. */
    function GetBounds(): (b: Bounds)
      reads this
      ensures b.left == x && b.top == y && b.right == x + width && b.bottom == y + height
      ensures 2.0 * b.centerX == b.left + b.right && 2.0 * b.centerY == b.top + b.bottom
    {
      CoreBounds(State())
    }

    /** The closed AABB test: the boxes touch or overlap on both axes, so the test is symmetric. */
    predicate CollidesWith(other: Entity)
      reads this, other
      ensures CollidesWith(other) <==>
                x <= other.x + other.width && other.x <= x + width &&
                y <= other.y + other.height && other.y <= y + height
    {
      OverlapSymmetricAndClosed(GetBounds(), other.GetBounds());
      Overlap(GetBounds(), other.GetBounds())
    }

    /**
     * The circle hits the box when the box point nearest its centre lies strictly
     * inside it; a circle whose centre is in a well-formed box always hits.
     */
    predicate CollidesWithCircle(cx: real, cy: real, radius: real)
      reads this
      ensures CollidesWithCircle(cx, cy, radius) ==> radius > 0.0
      ensures width >= 0.0 && height >= 0.0 && x <= cx <= x + width && y <= cy <= y + height && radius > 0.0 ==>
                CollidesWithCircle(cx, cy, radius)
    {
      var b := GetBounds();
      if width >= 0.0 && height >= 0.0 && x <= cx <= x + width && y <= cy <= y + height && radius > 0.0 then
        SqPositive(radius);
        CircleHitMeansNearPoint(b, cx, cy, radius, cx, cy);
        CircleHitsBox(b, cx, cy, radius)
      else CircleHitsBox(b, cx, cy, radius)
    }

    method SetActive(on: bool)
      modifies this`active
      ensures State() == old(State()).(active := on)
    {
      active := on;
    }

    method SetVisible(on: bool)
      modifies this`visible
      ensures State() == old(State()).(visible := on)
    {
      visible := on;
    }

    /** Sets the flags and runs every component's `destroy` hook; the map itself stays. */
    method Destroy()
      requires Valid()
      modifies this`destroyed, this`active, this`hookLog
      ensures Valid()
      ensures State() == DestroyCore(old(State()))
      ensures components == old(components)
      ensures hookLog == old(hookLog) + DestroyHooks(components)
    {
      destroyed, active := true, false;
      var i := 0;
      while i < |components|
        invariant 0 <= i <= |components|
        invariant destroyed && !active
        invariant hookLog == old(hookLog) + DestroyHooks(components[..i])
      {
        var s := components[i];
        assert components[..i + 1][..i] == components[..i];
        if s.component.hasDestroy {
          hookLog := hookLog + [DestroyCall(s.name, s.component)];
        }
        i := i + 1;
      }
      assert components[..i] == components;
    }

    method Reset()
      modifies this`destroyed, this`active, this`visible
      ensures State() == ResetCore(old(State()))
    {
      destroyed, active, visible := false, true, true;
    }

    /** A new entity with the same box and type, no id, and each component cloned or shared. */
    method Clone() returns (e: Entity)
      requires Valid()
      ensures fresh(e) && e.Valid()
      ensures e.State() == NewCore(x, y, width, height, typeTag)
      ensures e.components == CloneSlots(components) && e.hookLog == []
    {
      e := new Entity(x, y, width, height, typeTag);
      var i := 0;
      while i < |components|
        invariant 0 <= i <= |components|
        invariant e.Valid() && e.hookLog == []
        invariant e.State() == NewCore(x, y, width, height, typeTag)
        invariant e.components == CloneSlots(components[..i])
      {
        assert components[..i + 1][..i] == components[..i];
        var copy := CloneSlot(components[i]);
        assert !HasName(e.components, copy.name) by {
          assert forall k :: 0 <= k < i ==> e.components[k].name == components[k].name;
        }
        e.AddComponent(copy.name, copy.component);
        i := i + 1;
      }
      assert components[..i] == components;
    }
  }
}
