/**
 * The objects the engine keeps in its registry, as values: a ball, a
 * brick, a paddle, or a plain entity (walls, items, bullets and the like,
 * whose own classes are not part of this model), together with the
 * registry itself, a JavaScript `Map` from id to entity kept as a
 * sequence of entries in insertion order.
 */
module Bodies {
  import opened Options
  import opened Entities
  import opened Balls
  import opened Bricks
  import opened Paddles

  datatype Body =
    | BallBody(ball: BallState)
    | BrickBody(brick: BrickState)
    | PaddleBody(paddle: PaddleState)
    | PlainBody(core: Core)

  /** The entity fields every kind of body has. */
  function CoreOf(b: Body): Core
  {
    match b
    case BallBody(s) => s.core
    case BrickBody(s) => s.core
    case PaddleBody(s) => s.core
    case PlainBody(c) => c
  }

  /** Replaces the entity fields, keeping the kind and its own fields. */
  function WithCore(b: Body, c: Core): (r: Body)
    ensures CoreOf(r) == c
    ensures r.BallBody? == b.BallBody? && r.BrickBody? == b.BrickBody? && r.PaddleBody? == b.PaddleBody?
  {
    match b
    case BallBody(s) => BallBody(s.(core := c))
    case BrickBody(s) => BrickBody(s.(core := c))
    case PaddleBody(s) => PaddleBody(s.(core := c))
    case PlainBody(_) => PlainBody(c)
  }

  function TypeOf(b: Body): string
  {
    CoreOf(b).typeTag
  }

  function BodyBounds(b: Body): Bounds
  {
    CoreBounds(CoreOf(b))
  }

  /** Active and not destroyed: what the collision system and the spatial hash look at. */
  predicate Live(b: Body)
  {
    CoreOf(b).active && !CoreOf(b).destroyed
  }

  /** `entity.destroy()`: a brick's own idempotent version, the entity's for everything else. */
  function DestroyBody(b: Body): (r: Body)
    ensures CoreOf(r).destroyed
    ensures !CoreOf(b).destroyed ==> !CoreOf(r).active
    ensures b.BrickBody? ==> r == BrickBody(DestroyBrick(b.brick))
    ensures !b.BrickBody? ==> r == WithCore(b, DestroyCore(CoreOf(b)))
  {
    match b
    case BrickBody(s) => BrickBody(DestroyBrick(s))
    case _ => WithCore(b, DestroyCore(CoreOf(b)))
  }

  /**
   * `entity.update(dt, engine)`: each kind's own step; a plain entity's
   * `update` does nothing. The ball sees the first paddle of the registry,
   * the paddle reads the input, both see the canvas width.
   */
  function UpdateBody(b: Body, dt: real, firstPaddle: Option<Core>, input: PaddleInput, canvasWidth: real): (r: Body)
    ensures b.BallBody? ==> r == BallBody(Tick(b.ball, dt, firstPaddle, canvasWidth))
    ensures b.BrickBody? ==> r == BrickBody(BrickTick(b.brick, dt))
    ensures b.PaddleBody? ==> r == PaddleBody(PaddleTick(b.paddle, input, canvasWidth))
    ensures b.PlainBody? ==> r == b
  {
    match b
    case BallBody(s) => BallBody(Tick(s, dt, firstPaddle, canvasWidth))
    case BrickBody(s) => BrickBody(BrickTick(s, dt))
    case PaddleBody(s) => PaddleBody(PaddleTick(s, input, canvasWidth))
    case PlainBody(_) => b
  }

  /** An update never changes an entity's id, type or lifecycle flags. */
  lemma UpdateKeepsIdentity(b: Body, dt: real, firstPaddle: Option<Core>, input: PaddleInput, canvasWidth: real)
    ensures var c := CoreOf(UpdateBody(b, dt, firstPaddle, input, canvasWidth));
            c.id == CoreOf(b).id && c.typeTag == CoreOf(b).typeTag
            && c.destroyed == CoreOf(b).destroyed && c.active == CoreOf(b).active
  {
  }

  // ---------------------------------------------------------------- the registry

  /** One `Map` entry: the id it is stored under and the entity. */
  datatype Entry = Entry(key: string, body: Body)

  predicate DistinctKeys(es: seq<Entry>)
  {
    forall i, j {:trigger es[i].key, es[j].key} :: 0 <= i < j < |es| ==> es[i].key != es[j].key
  }

  /** Every entity is stored under its own id, which `addEntity` guarantees. */
  predicate KeyedById(es: seq<Entry>)
  {
    forall i :: 0 <= i < |es| ==> CoreOf(es[i].body).id == Some(es[i].key)
  }

  predicate HasKey(es: seq<Entry>, key: string)
  {
    exists k :: 0 <= k < |es| && es[k].key == key
  }

  /** The position of `key` in insertion order, or -1. */
  function FindKey(es: seq<Entry>, key: string): (i: int)
    ensures -1 <= i < |es|
    ensures i == -1 <==> !HasKey(es, key)
    ensures i >= 0 ==> es[i].key == key && forall k :: 0 <= k < i ==> es[k].key != key
  {
    if es == [] then -1
    else if es[0].key == key then 0
    else
      var k := FindKey(es[1..], key);
      assert forall j :: 1 <= j < |es| ==> es[j] == es[1..][j - 1];
      if k == -1 then -1 else k + 1
  }

  /** `entities.get(id)`. */
  function GetEntry(es: seq<Entry>, key: string): (r: Option<Body>)
    ensures r.None? <==> !HasKey(es, key)
    ensures r.Some? ==> Entry(key, r.value) in es
  {
    var i := FindKey(es, key);
    if i == -1 then None else Some(es[i].body)
  }

  /** `entities.set(id, entity)`: an existing key keeps its place, a new key goes last. */
  function SetEntry(es: seq<Entry>, key: string, b: Body): (r: seq<Entry>)
    ensures HasKey(es, key) ==> |r| == |es|
    ensures !HasKey(es, key) ==> r == es + [Entry(key, b)]
    ensures forall i :: 0 <= i < |es| ==> r[i].key == es[i].key
    ensures forall i :: 0 <= i < |es| && es[i].key != key ==> r[i] == es[i]
    ensures Entry(key, b) in r
  {
    var i := FindKey(es, key);
    if i == -1 then es + [Entry(key, b)] else es[i := Entry(key, b)]
  }

  /** `entities.delete(id)`. */
  function DeleteEntry(es: seq<Entry>, key: string): (r: seq<Entry>)
    ensures |r| <= |es|
    ensures forall e :: e in r <==> e in es && e.key != key
  {
    if es == [] then []
    else if es[0].key == key then DeleteEntry(es[1..], key)
    else [es[0]] + DeleteEntry(es[1..], key)
  }

  /** After `set`, `get` finds the new entity, other keys are unaffected, and keys stay distinct. */
  lemma {:induction false} GetAfterSet(es: seq<Entry>, key: string, b: Body, other: string)
    requires DistinctKeys(es)
    ensures DistinctKeys(SetEntry(es, key, b))
    ensures GetEntry(SetEntry(es, key, b), key) == Some(b)
    ensures other != key ==> GetEntry(SetEntry(es, key, b), other) == GetEntry(es, other)
  {
    SetKeepsKeysDistinct(es, key, b);
    var r := SetEntry(es, key, b);
    var i := FindKey(es, key);
    var p := if i == -1 then |es| else i;
    assert r[p] == Entry(key, b);
    FindKeyUnique(r, key, p);
    var j := FindKey(es, other);
    if other != key && j != -1 {
      assert r[j] == es[j];
      FindKeyUnique(r, other, j);
    }
    if other != key && j == -1 {
      forall k | 0 <= k < |r| ensures r[k].key != other {
        if k < |es| {
          assert r[k].key == es[k].key;
        } else {
          assert r[k] == Entry(key, b);
        }
      }
    }
  }

  /** With distinct keys, the entry holding a key is the one `FindKey` reports. */
  lemma FindKeyUnique(es: seq<Entry>, key: string, p: nat)
    requires DistinctKeys(es) && p < |es| && es[p].key == key
    ensures FindKey(es, key) == p
  {
    var f := FindKey(es, key);
    assert f != -1 by { assert HasKey(es, key); }
    assert es[f].key == es[p].key;
  }

  /** `set` never makes two entries share a key. */
  lemma SetKeepsKeysDistinct(es: seq<Entry>, key: string, b: Body)
    requires DistinctKeys(es)
    ensures DistinctKeys(SetEntry(es, key, b))
  {
    var r := SetEntry(es, key, b);
    forall i, j | 0 <= i < j < |r| ensures r[i].key != r[j].key {
      if j < |es| {
        assert r[i].key == es[i].key && r[j].key == es[j].key;
      } else {
        assert !HasKey(es, key) && r[j] == Entry(key, b);
        assert r[i] == es[i];
      }
    }
  }

  lemma {:induction false} DeleteKeepsKeysDistinct(es: seq<Entry>, key: string)
    requires DistinctKeys(es)
    ensures DistinctKeys(DeleteEntry(es, key))
    decreases |es|
  {
    if es != [] {
      DeleteKeepsKeysDistinct(es[1..], key);
      var tail := DeleteEntry(es[1..], key);
      if es[0].key != key {
        var r := [es[0]] + tail;
        forall k | 0 <= k < |tail| ensures tail[k].key != es[0].key {
          assert tail[k] in tail;
          assert tail[k] in es[1..];
        }
        assert forall k :: 1 <= k < |r| ==> r[k] == tail[k - 1];
      }
    }
  }

  /** The entities of the registry in insertion order: `Array.from(entities.values())`. */
  function BodiesOf(es: seq<Entry>): (r: seq<Body>)
    ensures |r| == |es| && forall i :: 0 <= i < |es| ==> r[i] == es[i].body
  {
    if es == [] then [] else [es[0].body] + BodiesOf(es[1..])
  }

  /** `getEntitiesByType(t)`: the entities whose type is `t`, in insertion order. */
  function OfType(bs: seq<Body>, t: string): (r: seq<Body>)
    ensures |r| <= |bs|
    ensures forall b {:trigger b in r} :: b in r <==> b in bs && TypeOf(b) == t
  {
    if bs == [] then []
    else if TypeOf(bs[0]) == t then [bs[0]] + OfType(bs[1..], t)
    else OfType(bs[1..], t)
  }

  /** `filter` over two parts is the filter of each part, in order, and one entity is kept exactly when it has
      the type: so the filtered list keeps the registry's order and multiplicity. */
  lemma {:induction false} OfTypeAppend(a: seq<Body>, b: seq<Body>, t: string, x: Body)
    ensures OfType(a + b, t) == OfType(a, t) + OfType(b, t)
    ensures OfType([x], t) == if TypeOf(x) == t then [x] else []
    decreases |a|
  {
    if a == [] {
      assert a + b == b;
    } else {
      assert (a + b)[0] == a[0] && (a + b)[1..] == a[1..] + b;
      OfTypeAppend(a[1..], b, t, x);
    }
  }

  /** There is an entity of type `t` exactly when the filtered list is non-empty. */
  lemma OfTypeEmpty(bs: seq<Body>, t: string)
    ensures OfType(bs, t) == [] <==> forall i :: 0 <= i < |bs| ==> TypeOf(bs[i]) != t
  {
    if OfType(bs, t) != [] {
      assert OfType(bs, t)[0] in OfType(bs, t);
    }
  }

  /** `getEntitiesByType('paddle')[0]`, as the entity fields a ball reads from it. */
  function FirstOfType(bs: seq<Body>, t: string): (r: Option<Core>)
    ensures r.None? <==> OfType(bs, t) == []
    ensures r.Some? ==> r.value == CoreOf(OfType(bs, t)[0]) && r.value.typeTag == t
  {
    var found := OfType(bs, t);
    if found == [] then None
    else
      assert found[0] in found;
      Some(CoreOf(found[0]))
  }

  /** The entries that are not destroyed, in order. */
  function Survivors(es: seq<Entry>): (r: seq<Entry>)
    ensures |r| <= |es|
    ensures forall e {:trigger e in r} :: e in r <==> e in es && !CoreOf(e.body).destroyed
  {
    if es == [] then []
    else if CoreOf(es[0].body).destroyed then Survivors(es[1..])
    else [es[0]] + Survivors(es[1..])
  }

  /** The sweep over two parts is the sweep of each part, in order, and one entry survives exactly when it is
      not destroyed: so the survivors keep the registry's order and multiplicity. */
  lemma {:induction false} SurvivorsAppend(a: seq<Entry>, b: seq<Entry>, x: Entry)
    ensures Survivors(a + b) == Survivors(a) + Survivors(b)
    ensures Survivors([x]) == if CoreOf(x.body).destroyed then [] else [x]
    decreases |a|
  {
    if a == [] {
      assert a + b == b;
    } else {
      assert (a + b)[0] == a[0] && (a + b)[1..] == a[1..] + b;
      SurvivorsAppend(a[1..], b, x);
    }
  }

  /** The keys of the destroyed entries, in order. */
  function DestroyedKeys(es: seq<Entry>): (r: seq<string>)
    ensures forall k :: k in r <==> exists e :: e in es && e.key == k && CoreOf(e.body).destroyed
  {
    if es == [] then []
    else
      var rest := DestroyedKeys(es[1..]);
      assert forall e :: e in es[1..] ==> e in es;
      assert forall e :: e in es ==> e == es[0] || e in es[1..];
      if CoreOf(es[0].body).destroyed then [es[0].key] + rest else rest
  }

  /** The entries whose key is not among `gone`, in order. */
  function WithoutKeys(es: seq<Entry>, gone: set<string>): (r: seq<Entry>)
    ensures forall e :: e in r <==> e in es && e.key !in gone
  {
    if es == [] then []
    else if es[0].key in gone then WithoutKeys(es[1..], gone)
    else [es[0]] + WithoutKeys(es[1..], gone)
  }

  /** Deleting one more key from the already-filtered registry. */
  lemma {:induction false} DeleteFromFiltered(es: seq<Entry>, gone: set<string>, key: string)
    ensures DeleteEntry(WithoutKeys(es, gone), key) == WithoutKeys(es, gone + {key})
    decreases |es|
  {
    if es != [] {
      DeleteFromFiltered(es[1..], gone, key);
    }
  }

  /** With distinct keys, dropping the keys of destroyed entries leaves exactly the survivors. */
  lemma {:induction false} DroppingDestroyedKeys(es: seq<Entry>, gone: set<string>)
    requires DistinctKeys(es)
    requires forall e :: e in es && CoreOf(e.body).destroyed ==> e.key in gone
    requires forall e :: e in es && e.key in gone ==> CoreOf(e.body).destroyed
    ensures WithoutKeys(es, gone) == Survivors(es)
    decreases |es|
  {
    if es != [] {
      assert forall e :: e in es[1..] ==> e in es;
      assert DistinctKeys(es[1..]) by {
        forall i, j | 0 <= i < j < |es| - 1 ensures es[1..][i].key != es[1..][j].key {
          assert es[1..][i] == es[i + 1] && es[1..][j] == es[j + 1];
        }
      }
      DroppingDestroyedKeys(es[1..], gone);
    }
  }
}
