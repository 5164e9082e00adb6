/**
 * The administration panel: the stage table (adding a harder stage,
 * removing one and renumbering the rest), the shop's price list and the
 * saved-price overlay, and the shortcuts that edit the player's saved
 * record (coins, progress, abilities, unlocking everything).
 *
 * Form inputs read with `parseInt(...) || d` are parameters of type
 * `Option<int>`, `None` standing for a value that does not parse.
 */
module Admin {
  import opened Options

  // ------------------------------------------------------------ numbers

  function Min(a: real, b: real): real { if a <= b then a else b }
  function Max(a: real, b: real): real { if a >= b then a else b }
  function MinInt(a: int, b: int): int { if a <= b then a else b }

  function Power10(digits: nat): (p: real)
    ensures p >= 1.0
  {
    if digits == 0 then 1.0 else 10.0 * Power10(digits - 1)
  }

  /** `parseFloat(x.toFixed(digits))` on exact reals: round half away from zero to `digits` decimals. */
  function Fixed(x: real, digits: nat): (r: real)
    ensures x - 0.5 / Power10(digits) <= r <= x + 0.5 / Power10(digits)
  {
    var scale := Power10(digits);
    if x >= 0.0 then RoundedUp(x, scale) else -RoundedUp(-x, scale)
  }

  /** Half-up rounding of a non-negative value to a multiple of `1 / scale`. */
  function RoundedUp(x: real, scale: real): (r: real)
    requires scale >= 1.0
    ensures x - 0.5 / scale <= r <= x + 0.5 / scale
  {
    var n := (x * scale + 0.5).Floor;
    WithinHalf(x, scale, n);
    n as real / scale
  }

  lemma WithinHalf(x: real, scale: real, n: int)
    requires scale >= 1.0 && n == (x * scale + 0.5).Floor
    ensures x - 0.5 / scale <= n as real / scale <= x + 0.5 / scale
  {
    assert n as real <= x * scale + 0.5 < n as real + 1.0;
    assert (n as real) / scale <= (x * scale + 0.5) / scale;
    assert (x * scale + 0.5) / scale == x + 0.5 / scale;
    assert (x * scale - 0.5) / scale == x - 0.5 / scale;
    assert (x * scale - 0.5) / scale <= (n as real) / scale;
  }

  /** `parseInt(input) || d`: an input that does not parse, or parses to 0, gives `d`. */
  function OrDefault(input: Option<int>, d: int): (v: int)
    ensures input.Some? && input.value != 0 ==> v == input.value
    ensures input.None? || input.value == 0 ==> v == d
  {
    if input.Some? && input.value != 0 then input.value else d
  }

  // ------------------------------------------------------------ stages

  /** Rows, columns, ball speed, strong-brick share and explosive-brick share of one stage. */
  datatype Stage = Stage(r: int, c: int, s: real, str: real, exp: real)

  type StageTable = map<int, Stage>

  /** The built-in table: stages 1..7, each at least as hard as the one before. */
  function DefaultStages(): (t: StageTable)
    ensures forall k :: k in t <==> 1 <= k <= 7
    ensures forall k :: 1 <= k < 7 ==>
              Harder(t[k], t[k + 1])
  {
    var t := map[
      1 := Stage(3, 5, 3.2, 0.0, 0.12),
      2 := Stage(3, 6, 3.5, 0.05, 0.12),
      3 := Stage(4, 6, 3.8, 0.08, 0.1),
      4 := Stage(4, 6, 4.0, 0.1, 0.1),
      5 := Stage(4, 7, 4.2, 0.12, 0.08),
      6 := Stage(5, 7, 4.5, 0.15, 0.08),
      7 := Stage(5, 7, 4.8, 0.18, 0.06)
    ];
    assert Harder(t[1], t[2]) && Harder(t[2], t[3]) && Harder(t[3], t[4]);
    assert Harder(t[4], t[5]) && Harder(t[5], t[6]) && Harder(t[6], t[7]);
    t
  }

  /** Stage `b` is at least as hard as `a`: no fewer rows or columns, a faster ball, more strong bricks, no more explosive ones. */
  predicate Harder(a: Stage, b: Stage)
  {
    a.r <= b.r && a.c <= b.c && a.s < b.s && a.str < b.str && a.exp >= b.exp
  }

  /** The integers lo..hi. */
  function Range(lo: int, hi: int): (r: set<int>)
    ensures forall i :: i in r <==> lo <= i <= hi
    ensures |r| == if lo <= hi then hi - lo + 1 else 0
    decreases hi - lo
  {
    if lo > hi then {} else Range(lo, hi - 1) + {hi}
  }

  lemma HasLeast(s: set<int>)
    requires s != {}
    ensures exists m :: m in s && forall x :: x in s ==> m <= x
  {
    var m := LeastMember(s);
  }

  lemma {:induction false} LeastMember(s: set<int>) returns (m: int)
    requires s != {}
    ensures m in s && forall x :: x in s ==> m <= x
    decreases |s|
  {
    var y := SomeMember(s);
    if s == {y} {
      m := y;
    } else {
      var rest := LeastMember(s - {y});
      m := if y < rest then y else rest;
      forall x | x in s
        ensures m <= x
      {
        if x != y {
          assert x in s - {y};
        }
      }
    }
  }

  lemma HasGreatest(s: set<int>)
    requires s != {}
    ensures exists m :: m in s && forall x :: x in s ==> x <= m
  {
    var m := GreatestMember(s);
  }

  lemma {:induction false} GreatestMember(s: set<int>) returns (m: int)
    requires s != {}
    ensures m in s && forall x :: x in s ==> x <= m
    decreases |s|
  {
    var y := SomeMember(s);
    if s == {y} {
      m := y;
    } else {
      var rest := GreatestMember(s - {y});
      m := if y > rest then y else rest;
      forall x | x in s
        ensures x <= m
      {
        if x != y {
          assert x in s - {y};
        }
      }
    }
  }

  lemma SomeMember(s: set<int>) returns (y: int)
    requires s != {}
    ensures y in s
  {
    if forall w :: w !in s {
      assert false;
    }
    y :| y in s;
  }

  /** The smallest key. */
  function Least(s: set<int>): (m: int)
    requires s != {}
    ensures m in s && forall x :: x in s ==> m <= x
  {
    HasLeast(s);
    var m :| m in s && forall x :: x in s ==> m <= x;
    m
  }

  /** `Math.max(...keys)`. */
  function Greatest(s: set<int>): (m: int)
    requires s != {}
    ensures m in s && forall x :: x in s ==> x <= m
  {
    HasGreatest(s);
    var m :| m in s && forall x :: x in s ==> x <= m;
    m
  }

  /** `Object.keys(...).map(Number).sort((a, b) => a - b)`: the keys in ascending order. */
  function SortedKeys(s: set<int>): (r: seq<int>)
    ensures |r| == |s|
    ensures forall i {:trigger r[i] in s} :: 0 <= i < |r| ==> r[i] in s
    ensures forall x {:trigger x in r} :: x in r <==> x in s
    ensures forall i, j :: 0 <= i < j < |r| ==> r[i] < r[j]
    decreases |s|
  {
    if s == {} then []
    else
      var m := Least(s);
      var rest := SortedKeys(s - {m});
      PrependLeast(s, m, rest);
      [m] + rest
  }

  /** Putting the least key in front of the ascending listing of the others lists the whole set in ascending order. */
  lemma PrependLeast(s: set<int>, m: int, rest: seq<int>)
    requires m in s && forall x :: x in s ==> m <= x
    requires forall x {:trigger x in rest} :: x in rest <==> x in s - {m}
    requires forall i, j :: 0 <= i < j < |rest| ==> rest[i] < rest[j]
    ensures forall i {:trigger ([m] + rest)[i] in s} :: 0 <= i < |[m] + rest| ==> ([m] + rest)[i] in s
    ensures forall i, j :: 0 <= i < j < |[m] + rest| ==> ([m] + rest)[i] < ([m] + rest)[j]
  {
    var r := [m] + rest;
    forall i | 0 <= i < |r|
      ensures r[i] in s
    {
      if i > 0 {
        assert r[i] == rest[i - 1] && rest[i - 1] in rest;
      }
    }
    forall i, j | 0 <= i < j < |r|
      ensures r[i] < r[j]
    {
      assert r[j] == rest[j - 1] && rest[j - 1] in rest;
      if i > 0 {
        assert r[i] == rest[i - 1];
      }
    }
  }

  /** The stage `addStage` derives from the highest one: one more row up to 8, columns capped at 9, faster up to 8, more strong bricks up to half, fewer explosive ones down to 2%. */
  function NextStage(last: Stage): (n: Stage)
    ensures n.r <= 8 && n.c <= 9 && n.s <= 8.0 && n.str <= 0.5 && n.exp >= 0.02
    ensures n.r == MinInt(8, last.r + 1) && n.c == MinInt(9, last.c)
  {
    Stage(MinInt(8, last.r + 1), MinInt(9, last.c),
          Min(8.0, Fixed(last.s + 0.3, 1)),
          Min(0.5, Fixed(last.str + 0.03, 2)),
          Max(0.02, Fixed(last.exp - 0.01, 2)))
  }

  /** Until a cap is reached each added stage is at least as hard as the one before: no fewer rows, no slower ball, no fewer strong bricks, no more explosive ones. */
  lemma NextStageHarder(last: Stage)
    requires last.r <= 8 && last.s <= 8.0 && last.str <= 0.5 && last.exp >= 0.02
    ensures NextStage(last).r >= last.r
    ensures NextStage(last).s >= last.s
    ensures NextStage(last).str >= last.str
    ensures NextStage(last).exp <= last.exp
  {
    assert Power10(1) == 10.0;
    assert Power10(2) == 100.0;
  }

  /** The default table's highest key is 7, so the next stage added is 8. */
  lemma DefaultTop()
    ensures DefaultStages().Keys != {}
    ensures Greatest(DefaultStages().Keys) == 7
  {
    var keys := DefaultStages().Keys;
    assert 7 in keys;
    assert forall k :: k in keys ==> k <= 7;
  }

  /** The stage derived from the default table's last one, its decimals rounded as `toFixed` does. */
  lemma EighthDefaultStage()
    ensures NextStage(DefaultStages()[7]) == Stage(6, 7, 5.1, 0.21, 0.05)
  {
    assert Power10(1) == 10.0 && Power10(2) == 100.0;
    assert Fixed(4.8 + 0.3, 1) == 5.1 by {
      assert (5.1 * 10.0 + 0.5).Floor == 51;
    }
    assert Fixed(0.18 + 0.03, 2) == 0.21 by {
      assert (0.21 * 100.0 + 0.5).Floor == 21;
    }
    assert Fixed(0.06 - 0.01, 2) == 0.05 by {
      assert (0.05 * 100.0 + 0.5).Floor == 5;
    }
  }

  /** `newSTG[idx] = this.STG[k]` for the listed keys in turn, counting from 1. */
  function Numbered(t: StageTable, ks: seq<int>): (r: StageTable)
    requires forall j :: 0 <= j < |ks| ==> ks[j] in t
    ensures forall i :: i in r <==> 1 <= i <= |ks|
    ensures forall i :: 1 <= i <= |ks| ==> r[i] == t[ks[i - 1]]
    decreases |ks|
  {
    if ks == [] then map[]
    else
      Numbered(t, ks[..|ks| - 1])[|ks| := t[ks[|ks| - 1]]]
  }

  /** The table `removeStage` rebuilds: the stages in ascending order of their old keys, numbered from 1. */
  function Renumbered(t: StageTable): (r: StageTable)
    ensures forall i :: i in r <==> 1 <= i <= |t.Keys|
    ensures forall i :: 1 <= i <= |t.Keys| ==> r[i] == t[SortedKeys(t.Keys)[i - 1]]
  {
    Numbered(t, SortedKeys(t.Keys))
  }

  /** Renumbering keeps the order: a stage with a smaller old key still comes first. */
  lemma RenumberedKeepsOrder(t: StageTable, a: int, b: int)
    requires a in t && b in t && a < b
    ensures exists i, j :: 1 <= i < j <= |t.Keys| && i in Renumbered(t) && j in Renumbered(t) && Renumbered(t)[i] == t[a] && Renumbered(t)[j] == t[b]
  {
    var i, j := Positions(t.Keys, a, b);
    RenumberedEntry(t, i + 1, a);
    RenumberedEntry(t, j + 1, b);
    Witnessed(Renumbered(t), |t.Keys|, i + 1, j + 1, t[a], t[b]);
  }

  lemma Witnessed(r: StageTable, n: int, i: int, j: int, x: Stage, y: Stage)
    requires 1 <= i < j <= n && i in r && j in r && r[i] == x && r[j] == y
    ensures exists i', j' :: 1 <= i' < j' <= n && i' in r && j' in r && r[i'] == x && r[j'] == y
  {
  }

  /** In the ascending listing of a set, a smaller member sits at a smaller position. */
  lemma Positions(s: set<int>, a: int, b: int) returns (i: nat, j: nat)
    requires a in s && b in s && a < b
    ensures i < j < |s| && SortedKeys(s)[i] == a && SortedKeys(s)[j] == b
  {
    var ks := SortedKeys(s);
    assert a in ks && b in ks;
    i :| 0 <= i < |ks| && ks[i] == a;
    j :| 0 <= j < |ks| && ks[j] == b;
    AscendingIndex(ks, i, j);
  }

  lemma AscendingIndex(ks: seq<int>, i: nat, j: nat)
    requires i < |ks| && j < |ks| && ks[i] < ks[j]
    requires forall x, y :: 0 <= x < y < |ks| ==> ks[x] < ks[y]
    ensures i < j
  {
  }

  /** A table already numbered 1..n is left as it is. */
  lemma RenumberedContiguous(t: StageTable, n: nat)
    requires t.Keys == Range(1, n)
    ensures Renumbered(t) == t
  {
    ContiguousKeys(t, n);
    ContiguousValues(t, n);
  }

  lemma ContiguousKeys(t: StageTable, n: nat)
    requires t.Keys == Range(1, n)
    ensures Renumbered(t).Keys == t.Keys
  {
    assert |t.Keys| == n;
  }

  lemma ContiguousValues(t: StageTable, n: nat)
    requires t.Keys == Range(1, n)
    ensures forall i :: 1 <= i <= n ==> Renumbered(t)[i] == t[i]
  {
    RangeWithoutOutside(n);
    forall i | 1 <= i <= n
      ensures Renumbered(t)[i] == t[i]
    {
      RenumberedAt(t, n, 0, i, i);
    }
  }

  lemma RangeWithoutOutside(n: nat)
    ensures Range(1, n) - {0} == Range(1, n)
  {
  }

  /** Entry i of a renumbered table numbered 1..n without `key`. */
  lemma RenumberedAt(t: StageTable, n: nat, key: int, i: int, j: int)
    requires t.Keys == Range(1, n) - {key} && 1 <= i <= |t.Keys|
    requires j == if i < key || key < 1 then i else i + 1
    ensures j in t && Renumbered(t)[i] == t[j]
  {
    SortedKeysWithout(t.Keys, n, key, i - 1, j);
    RenumberedEntry(t, i, j);
  }

  /** Position k of the ascending listing of 1..n without `key` holds k + 1 before the gap and k + 2 after it. */
  lemma SortedKeysWithout(s: set<int>, n: nat, key: int, k: nat, j: int)
    requires s == Range(1, n) - {key} && k < |s| && j == (if 1 + k < key || key < 1 then 1 + k else 1 + k + 1)
    ensures SortedKeys(s)[k] == j && j in s
  {
    SortedRangeWithout(1, n, key, k);
    assert SortedKeys(s)[k] in SortedKeys(s);
  }

  /** Entry i of a renumbered table is the stage under the i-th smallest old key. */
  lemma RenumberedEntry(t: StageTable, i: int, j: int)
    requires 1 <= i <= |t.Keys| && SortedKeys(t.Keys)[i - 1] == j
    ensures j in t && Renumbered(t)[i] == t[j]
  {
    assert SortedKeys(t.Keys)[i - 1] in SortedKeys(t.Keys);
  }

  /** The ascending listing of lo..hi without `key`: position k holds lo + k before the gap and lo + k + 1 after it. */
  lemma {:induction false} SortedRangeWithout(lo: int, hi: int, key: int, k: nat)
    requires k < |Range(lo, hi) - {key}|
    ensures k < |SortedKeys(Range(lo, hi) - {key})|
    ensures SortedKeys(Range(lo, hi) - {key})[k] == if lo + k < key || key < lo then lo + k else lo + k + 1
    decreases hi - lo
  {
    var s := Range(lo, hi) - {key};
    assert s != {};
    var m := LeastWithout(lo, hi, key);
    var next := Range(m + 1, hi) - {key};
    WithoutLeast(lo, hi, key, m);
    SortedKeysCons(s, m, next, k);
    if k > 0 {
      SortedRangeWithout(m + 1, hi, key, k - 1);
    }
  }

  /** The ascending listing of a set is its least member followed by the listing of the rest. */
  lemma SortedKeysCons(s: set<int>, m: int, next: set<int>, k: nat)
    requires s != {} && m == Least(s) && s - {m} == next && k < |s|
    ensures |SortedKeys(s)| == |next| + 1
    ensures SortedKeys(s)[k] == if k == 0 then m else SortedKeys(next)[k - 1]
  {
    assert SortedKeys(s) == [m] + SortedKeys(next);
  }

  lemma LeastWithout(lo: int, hi: int, key: int) returns (m: int)
    requires Range(lo, hi) - {key} != {}
    ensures m == Least(Range(lo, hi) - {key})
    ensures m == if lo != key then lo else lo + 1
  {
    var s := Range(lo, hi) - {key};
    m := if lo != key then lo else lo + 1;
    assert m in s;
    forall x | x in s
      ensures m <= x
    {
      assert lo <= x && x != key;
    }
    LeastIs(s, m);
  }

  /** A member no larger than any other is the one `Least` picks. */
  lemma LeastIs(s: set<int>, c: int)
    requires c in s && forall x :: x in s ==> c <= x
    ensures Least(s) == c
  {
  }

  lemma WithoutLeast(lo: int, hi: int, key: int, m: int)
    requires m == if lo != key then lo else lo + 1
    ensures (Range(lo, hi) - {key}) - {m} == Range(m + 1, hi) - {key}
  {
    var a, b := (Range(lo, hi) - {key}) - {m}, Range(m + 1, hi) - {key};
    forall x | x in a ensures x in b { }
    forall x | x in b ensures x in a { }
  }

  // ------------------------------------------------------------ shop

  datatype Item = Item(id: string, price: int)

  datatype Category = Category(name: string, items: seq<Item>)

  /** The built-in shop: four categories of items with their ids and default prices. */
  function DefaultShop(): seq<Category>
  {
    [
      Category("weapons", [Item("w_normal", 0), Item("w_spread", 500), Item("w_laser", 800), Item("w_rapid", 1200), Item("w_missile", 2000)]),
      Category("skills", [Item("s_bomb", 600), Item("s_bolt", 600), Item("s_fire", 600), Item("s_cd", 1500)]),
      Category("items", [Item("i_magnet", 1000), Item("i_shield", 800), Item("i_double", 2500)]),
      Category("balls", [Item("b_white", 0), Item("b_fire", 300), Item("b_ice", 300), Item("b_spark", 500)])
    ]
  }

  /** Every item of every category, in the order the panel walks them. */
  function AllItems(shop: seq<Category>): (r: seq<Item>)
    decreases |shop|
  {
    if shop == [] then [] else AllItems(shop[..|shop| - 1]) + shop[|shop| - 1].items
  }

  /** The ids of a list of items. */
  function Ids(items: seq<Item>): (r: set<string>)
    ensures forall k :: 0 <= k < |items| ==> items[k].id in r
    ensures forall id :: id in r ==> exists k :: 0 <= k < |items| && items[k].id == id
    decreases |items|
  {
    if items == [] then {} else Ids(items[..|items| - 1]) + {items[|items| - 1].id}
  }

  /** `getPricesObj` on a list of items: each id maps to the price of its last occurrence. */
  function PriceMap(items: seq<Item>): (m: map<string, int>)
    ensures m.Keys == Ids(items)
    decreases |items|
  {
    if items == [] then map[]
    else
      var last := items[|items| - 1];
      var front := items[..|items| - 1];
      assert forall k :: 0 <= k < |front| ==> front[k] == items[k];
      PriceMap(front)[last.id := last.price]
  }

  predicate UniqueIds(items: seq<Item>)
  {
    forall i, j :: 0 <= i < j < |items| ==> items[i].id != items[j].id
  }

  /** Every id in `items` begins with `c`. */
  predicate StartsWith(items: seq<Item>, c: char)
  {
    forall k :: 0 <= k < |items| ==> items[k].id != [] && items[k].id[0] == c
  }

  /** No id in `items` begins with `c`. */
  predicate NoneStartsWith(items: seq<Item>, c: char)
  {
    forall k :: 0 <= k < |items| ==> items[k].id == [] || items[k].id[0] != c
  }

  /** Two lists without repeats, told apart by the first letter of their ids, have none together. */
  lemma UniqueAppend(a: seq<Item>, b: seq<Item>, c: char)
    requires UniqueIds(a) && UniqueIds(b)
    requires NoneStartsWith(a, c) && StartsWith(b, c)
    ensures UniqueIds(a + b)
  {
    forall i, j | 0 <= i < j < |a + b|
      ensures (a + b)[i].id != (a + b)[j].id
    {
      if j >= |a| && i < |a| {
        assert (a + b)[j] == b[j - |a|];
      }
    }
  }

  /** No id appears twice in the built-in shop, so its price list holds every item's own price. */
  lemma DefaultShopUnique()
    ensures UniqueIds(AllItems(DefaultShop()))
    ensures forall k :: 0 <= k < |AllItems(DefaultShop())| ==>
              PriceMap(AllItems(DefaultShop()))[AllItems(DefaultShop())[k].id] == AllItems(DefaultShop())[k].price
  {
    var shop := DefaultShop();
    var weapons, skills, items, balls := shop[0].items, shop[1].items, shop[2].items, shop[3].items;
    AllItemsOfFour(shop);
    WeaponLetters();
    SkillLetters();
    ItemLetters();
    BallLetters();
    UniqueAppend(weapons, skills, 's');
    NoneStartsWithAppend(weapons, skills, 'i');
    UniqueAppend(weapons + skills, items, 'i');
    NoneStartsWithAppend(weapons, skills, 'b');
    NoneStartsWithAppend(weapons + skills, items, 'b');
    UniqueAppend(weapons + skills + items, balls, 'b');
    forall k | 0 <= k < |AllItems(shop)|
      ensures PriceMap(AllItems(shop))[AllItems(shop)[k].id] == AllItems(shop)[k].price
    {
      PriceMapOfUnique(AllItems(shop), k);
    }
  }

  /** The weapon ids of the built-in shop: no repeats, told apart from later categories by their first letter. */
  lemma WeaponLetters()
    ensures |DefaultShop()| == 4
    ensures UniqueIds(DefaultShop()[0].items) && NoneStartsWith(DefaultShop()[0].items, 's')
    ensures NoneStartsWith(DefaultShop()[0].items, 'i') && NoneStartsWith(DefaultShop()[0].items, 'b')
  {
  }

  /** The skill ids of the built-in shop: no repeats, told apart from later categories by their first letter. */
  lemma SkillLetters()
    ensures |DefaultShop()| == 4
    ensures UniqueIds(DefaultShop()[1].items) && StartsWith(DefaultShop()[1].items, 's')
    ensures NoneStartsWith(DefaultShop()[1].items, 'i') && NoneStartsWith(DefaultShop()[1].items, 'b')
  {
  }

  /** The item ids of the built-in shop: no repeats, told apart from later categories by their first letter. */
  lemma ItemLetters()
    ensures |DefaultShop()| == 4
    ensures UniqueIds(DefaultShop()[2].items) && StartsWith(DefaultShop()[2].items, 'i')
    ensures NoneStartsWith(DefaultShop()[2].items, 'b')
  {
  }

  /** The ball ids of the built-in shop: no repeats, told apart from later categories by their first letter. */
  lemma BallLetters()
    ensures |DefaultShop()| == 4
    ensures UniqueIds(DefaultShop()[3].items) && StartsWith(DefaultShop()[3].items, 'b')
  {
  }

  /** The items of a four-category shop, category by category. */
  lemma AllItemsOfFour(shop: seq<Category>)
    requires |shop| == 4
    ensures AllItems(shop) == shop[0].items + shop[1].items + shop[2].items + shop[3].items
  {
    assert shop[..1][..0] == [] && shop[..2][..1] == shop[..1] && shop[..3][..2] == shop[..2];
    assert AllItems(shop[..1]) == [] + shop[0].items == shop[0].items;
    assert AllItems(shop[..2]) == shop[0].items + shop[1].items;
    assert AllItems(shop[..3]) == shop[0].items + shop[1].items + shop[2].items;
  }

  /** A first letter absent from two lists is absent from both together. */
  lemma NoneStartsWithAppend(a: seq<Item>, b: seq<Item>, c: char)
    requires NoneStartsWith(a, c) && NoneStartsWith(b, c)
    ensures NoneStartsWith(a + b, c)
  {
    forall k | 0 <= k < |a + b|
      ensures (a + b)[k].id == [] || (a + b)[k].id[0] != c
    {
      if k >= |a| {
        assert (a + b)[k] == b[k - |a|];
      }
    }
  }

  /** The items the built-in shop gives away are exactly ones a new player already owns. */
  lemma {:induction false} DefaultShopFreeOwned()
    ensures forall it :: it in AllItems(DefaultShop()) && it.price == 0 ==> it.id in DefaultRecord().owned && DefaultRecord().owned[it.id]
  {
    var shop, owned := DefaultShop(), DefaultRecord().owned;
    AllItemsOfFour(shop);
    forall it | it in AllItems(shop) && it.price == 0
      ensures it.id in owned && owned[it.id]
    {
      if it in shop[0].items {
        assert it == Item("w_normal", 0);
      } else if it in shop[3].items {
        assert it == Item("b_white", 0);
      } else {
        assert false;
      }
    }
  }

  /** With no id repeated, the price list holds each item's own price. */
  lemma {:induction false} PriceMapOfUnique(items: seq<Item>, k: nat)
    requires UniqueIds(items) && k < |items|
    ensures PriceMap(items)[items[k].id] == items[k].price
    decreases |items|
  {
    if k < |items| - 1 {
      var front := items[..|items| - 1];
      PriceMapOfUnique(front, k);
    }
  }

  /** The saved-price overlay on one item: a saved price for its id replaces its own. */
  function Repriced(item: Item, saved: map<string, int>): (r: Item)
    ensures r.id == item.id
  {
    if item.id in saved then item.(price := saved[item.id]) else item
  }

  /** The saved-price overlay: an item whose id has a saved price takes it; every other item keeps its price. */
  function OverlaidItems(items: seq<Item>, saved: map<string, int>): (r: seq<Item>)
    ensures |r| == |items|
    ensures forall k :: 0 <= k < |r| ==> r[k] == Repriced(items[k], saved)
    decreases |items|
  {
    if items == [] then []
    else OverlaidItems(items[..|items| - 1], saved) + [Repriced(items[|items| - 1], saved)]
  }

  function Overlaid(shop: seq<Category>, saved: map<string, int>): (r: seq<Category>)
    ensures |r| == |shop|
    ensures forall c :: 0 <= c < |r| ==> r[c] == shop[c].(items := OverlaidItems(shop[c].items, saved))
  {
    seq(|shop|, c requires 0 <= c < |shop| => shop[c].(items := OverlaidItems(shop[c].items, saved)))
  }

  lemma {:induction false} AllItemsOverlaid(shop: seq<Category>, saved: map<string, int>)
    ensures AllItems(Overlaid(shop, saved)) == OverlaidItems(AllItems(shop), saved)
    decreases |shop|
  {
    if shop != [] {
      var n := |shop|;
      var front := shop[..n - 1];
      var o := Overlaid(shop, saved);
      assert o[..n - 1] == Overlaid(front, saved);
      assert o[n - 1].items == OverlaidItems(shop[n - 1].items, saved);
      AllItemsOverlaid(front, saved);
      OverlaidAppend(AllItems(front), shop[n - 1].items, saved);
    }
  }

  /** The overlay works item by item, so it distributes over concatenation. */
  lemma OverlaidAppend(a: seq<Item>, b: seq<Item>, saved: map<string, int>)
    ensures OverlaidItems(a + b, saved) == OverlaidItems(a, saved) + OverlaidItems(b, saved)
  {
  }

  lemma {:induction false} PriceMapOverlaid(items: seq<Item>, saved: map<string, int>, id: string)
    requires id in PriceMap(items)
    ensures id in PriceMap(OverlaidItems(items, saved))
    ensures PriceMap(OverlaidItems(items, saved))[id] == if id in saved then saved[id] else PriceMap(items)[id]
    decreases |items|
  {
    var over := OverlaidItems(items, saved);
    var n := |items|;
    var front := items[..n - 1];
    var last := items[n - 1];
    assert over == OverlaidItems(front, saved) + [Repriced(last, saved)];
    assert over[..n - 1] == OverlaidItems(front, saved);
    if id != last.id {
      PriceMapOverlaid(front, saved, id);
    }
  }

  lemma IdsOverlaid(items: seq<Item>, saved: map<string, int>)
    ensures Ids(OverlaidItems(items, saved)) == Ids(items)
  {
    var over := OverlaidItems(items, saved);
    forall id | id in Ids(over)
      ensures id in Ids(items)
    {
      var k :| 0 <= k < |over| && over[k].id == id;
      assert items[k].id == id;
    }
    forall id | id in Ids(items)
      ensures id in Ids(over)
    {
      var k :| 0 <= k < |items| && items[k].id == id;
      assert over[k].id == id;
    }
  }

  /** After the overlay the price list shows the saved price for every listed id that has one and the old price for the rest; no id is added or lost. */
  lemma OverlayPrices(shop: seq<Category>, saved: map<string, int>)
    ensures PriceMap(AllItems(Overlaid(shop, saved))).Keys == PriceMap(AllItems(shop)).Keys
    ensures forall id :: id in PriceMap(AllItems(shop)) ==>
              PriceMap(AllItems(Overlaid(shop, saved)))[id] == if id in saved then saved[id] else PriceMap(AllItems(shop))[id]
  {
    AllItemsOverlaid(shop, saved);
    IdsOverlaid(AllItems(shop), saved);
    forall id | id in PriceMap(AllItems(shop))
      ensures PriceMap(AllItems(Overlaid(shop, saved)))[id] == if id in saved then saved[id] else PriceMap(AllItems(shop))[id]
    {
      PriceMapOverlaid(AllItems(shop), saved, id);
    }
  }

  // ------------------------------------------------------------ the saved record

  datatype Record = Record(
    coins: int, round: int, stage: int, charStage: int, maxLives: int,
    speedLevel: int, fireRateLevel: int, bulletCount: int,
    owned: map<string, bool>, equipped: map<string, string>,
    buffs: map<string, bool>, passives: map<string, bool>)

  /** A new player's record: round and stage 1, four lives, one bullet, and every equipped item owned. */
  function DefaultRecord(): (r: Record)
    ensures forall slot :: slot in r.equipped ==> r.equipped[slot] in r.owned && r.owned[r.equipped[slot]]
    ensures r.buffs == map[] && r.passives == map[]
  {
    Record(0, 1, 1, 0, 4, 0, 0, 1,
      map["w_normal" := true, "b_white" := true],
      map["weapon" := "w_normal", "ball" := "b_white"],
      map[], map[])
  }

  /** `saveGameData` writes every field but `stage`. */
  function Saved(stored: Record, r: Record): (s: Record)
    ensures s.stage == stored.stage && s.(stage := r.stage) == r
  {
    r.(stage := stored.stage)
  }

  /** Entering 0 (or nothing readable) for the round or the maximum lives restores the default instead. */
  lemma ZeroInputsFallBack()
    ensures OrDefault(Some(0), 1) == 1 && OrDefault(Some(0), 4) == 4 && OrDefault(None, 0) == 0
  {
  }

  class AdminPanel {
    var gameData: Record
    /** The record as last written to storage. */
    var stored: Record
    var stages: StageTable
    var shop: seq<Category>

    /** The panel on a fresh record, with the saved stage table and saved prices (when present) laid over the defaults. */
    constructor(savedStages: Option<StageTable>, savedPrices: Option<map<string, int>>)
      ensures gameData == DefaultRecord() && stored == DefaultRecord()
      ensures stages == if savedStages.Some? then savedStages.value else DefaultStages()
      ensures shop == if savedPrices.Some? then Overlaid(DefaultShop(), savedPrices.value) else DefaultShop()
    {
      gameData := DefaultRecord();
      stored := DefaultRecord();
      stages := DefaultStages();
      shop := DefaultShop();
      new;
      LoadDefaultConfigs(savedStages, savedPrices);
    }

    method LoadDefaultConfigs(savedStages: Option<StageTable>, savedPrices: Option<map<string, int>>)
      modifies this`stages, this`shop
      ensures stages == if savedStages.Some? then savedStages.value else DefaultStages()
      ensures shop == if savedPrices.Some? then Overlaid(DefaultShop(), savedPrices.value) else DefaultShop()
    {
      stages := DefaultStages();
      shop := DefaultShop();
      if savedStages.Some? {
        stages := savedStages.value;
      }
      if savedPrices.Some? {
        shop := Overlaid(shop, savedPrices.value);
      }
    }

    method SaveGameData()
      modifies this`stored
      ensures stored == Saved(old(stored), gameData)
    {
      stored := gameData.(stage := stored.stage);
    }

    method AddCoins(amount: int)
      modifies this`gameData, this`stored
      ensures gameData == old(gameData).(coins := old(gameData).coins + amount)
      ensures stored == Saved(old(stored), gameData)
    {
      gameData := gameData.(coins := gameData.coins + amount);
      SaveGameData();
    }

    method SetCoins(input: Option<int>)
      modifies this`gameData, this`stored
      ensures gameData == old(gameData).(coins := OrDefault(input, 0))
      ensures stored == Saved(old(stored), gameData)
    {
      gameData := gameData.(coins := OrDefault(input, 0));
      SaveGameData();
    }

    method SetProgress(round: Option<int>, charStage: Option<int>, maxLives: Option<int>)
      modifies this`gameData, this`stored
      ensures gameData == old(gameData).(round := OrDefault(round, 1), charStage := OrDefault(charStage, 0), maxLives := OrDefault(maxLives, 4))
      ensures stored == Saved(old(stored), gameData)
    {
      gameData := gameData.(round := OrDefault(round, 1), charStage := OrDefault(charStage, 0), maxLives := OrDefault(maxLives, 4));
      SaveGameData();
    }

    /** `resetProgress`: round 1, character stage 0, four lives; nothing else changes. */
    method ResetProgress()
      modifies this`gameData, this`stored
      ensures gameData == old(gameData).(round := 1, charStage := 0, maxLives := 4)
      ensures stored == Saved(old(stored), gameData)
    {
      gameData := gameData.(round := 1, charStage := 0, maxLives := 4);
      SaveGameData();
    }

    method SetAbilities(speed: Option<int>, fireRate: Option<int>, bullets: Option<int>)
      modifies this`gameData, this`stored
      ensures gameData == old(gameData).(speedLevel := OrDefault(speed, 0), fireRateLevel := OrDefault(fireRate, 0), bulletCount := OrDefault(bullets, 1))
      ensures stored == Saved(old(stored), gameData)
    {
      gameData := gameData.(speedLevel := OrDefault(speed, 0), fireRateLevel := OrDefault(fireRate, 0), bulletCount := OrDefault(bullets, 1));
      SaveGameData();
    }

    /** `maxAbilities`: six lives, speed and fire rate 3, five bullets. */
    method MaxAbilities()
      modifies this`gameData, this`stored
      ensures gameData == old(gameData).(maxLives := 6, speedLevel := 3, fireRateLevel := 3, bulletCount := 5)
      ensures stored == Saved(old(stored), gameData)
    {
      gameData := gameData.(maxLives := 6, speedLevel := 3, fireRateLevel := 3, bulletCount := 5);
      SaveGameData();
    }

    /** `unlockAll`: every shop id becomes owned, all buffs and passives are on, and the abilities are maxed. */
    method UnlockAll()
      modifies this`gameData, this`stored
      ensures gameData == old(gameData).(owned := Unlocked(old(gameData).owned, AllItems(shop)),
                buffs := map["bombUp" := true, "boltUp" := true, "fireUp" := true, "cdDown" := true],
                passives := map["magnet" := true, "double" := true],
                maxLives := 6, speedLevel := 3, fireRateLevel := 3, bulletCount := 5)
      ensures stored == Saved(old(stored), gameData)
    {
      var items := AllItems(shop);
      var owned := gameData.owned;
      var i := 0;
      while i < |items|
        invariant 0 <= i <= |items|
        invariant owned == Unlocked(old(gameData).owned, items[..i])
      {
        assert items[..i + 1][..i] == items[..i];
        owned := owned[items[i].id := true];
        i := i + 1;
      }
      assert items[..i] == items;
      gameData := gameData.(owned := owned,
                            buffs := map["bombUp" := true, "boltUp" := true, "fireUp" := true, "cdDown" := true],
                            passives := map["magnet" := true, "double" := true],
                            maxLives := 6, speedLevel := 3, fireRateLevel := 3, bulletCount := 5);
      SaveGameData();
    }

    /** `addStage`: a new highest stage derived from the current highest; an empty table makes the source throw, so nothing changes. */
    method AddStage() returns (added: Option<int>)
      modifies this`stages
      ensures old(stages).Keys == {} ==> added.None? && stages == old(stages)
      ensures old(stages).Keys != {} ==> added == Some(Greatest(old(stages).Keys) + 1)
      ensures added.Some? ==> added.value !in old(stages) && (forall k :: k in old(stages) ==> k < added.value)
                              && stages == old(stages)[added.value := NextStage(old(stages)[added.value - 1])]
    {
      if stages.Keys == {} {
        return None;
      }
      var top := Greatest(stages.Keys);
      stages := stages[top + 1 := NextStage(stages[top])];
      added := Some(top + 1);
    }

    /** `removeStage(key)`: refused while one stage or none is left; otherwise `key` is dropped and the rest renumbered 1.. in key order. */
    method RemoveStage(key: int) returns (removed: bool)
      modifies this`stages
      ensures removed <==> |old(stages).Keys| > 1
      ensures !removed ==> stages == old(stages)
      ensures removed ==> stages == Renumbered(old(stages) - {key})
    {
      if |stages.Keys| <= 1 {
        return false;
      }
      var rest := stages - {key};
      var ks := SortedKeys(rest.Keys);
      var table: StageTable := map[];
      var idx := 0;
      while idx < |ks|
        invariant 0 <= idx <= |ks|
        invariant table == Numbered(rest, ks[..idx])
      {
        assert ks[..idx + 1][..idx] == ks[..idx];
        table := table[idx + 1 := rest[ks[idx]]];
        idx := idx + 1;
      }
      assert ks[..idx] == ks;
      stages := table;
      removed := true;
    }

    /** `getPricesObj`: every listed id with its price (a later duplicate wins). */
    method GetPricesObj() returns (prices: map<string, int>)
      ensures prices == PriceMap(AllItems(shop))
      ensures prices.Keys == Ids(AllItems(shop))
    {
      var items := AllItems(shop);
      prices := map[];
      var i := 0;
      while i < |items|
        invariant 0 <= i <= |items|
        invariant prices == PriceMap(items[..i])
      {
        assert items[..i + 1][..i] == items[..i];
        prices := prices[items[i].id := items[i].price];
        i := i + 1;
      }
      assert items[..i] == items;
    }
  }

  /** Removing stage `key` from a table numbered 1..n (n > 1) leaves stages 1..n-1: those below `key` keep their number, the later ones move down by one. */
  lemma RemoveFromContiguous(t: StageTable, n: nat, key: int, i: int)
    requires n > 1 && t.Keys == Range(1, n) && 1 <= key <= n && 1 <= i < n
    ensures Renumbered(t - {key}).Keys == Range(1, n - 1)
    ensures Renumbered(t - {key})[i] == if i < key then t[i] else t[i + 1]
  {
    RemovedKeys(t, n, key);
    var rest := t - {key};
    RestSize(t, n, key);
    var j := if i < key then i else i + 1;
    RenumberedAt(rest, n, key, i, j);
    assert rest[j] == t[j];
  }

  lemma RemovedKeys(t: StageTable, n: nat, key: int)
    requires n > 1 && t.Keys == Range(1, n) && 1 <= key <= n
    ensures Renumbered(t - {key}).Keys == Range(1, n - 1)
  {
    RestSize(t, n, key);
  }

  lemma RestSize(t: StageTable, n: nat, key: int)
    requires t.Keys == Range(1, n) && 1 <= key <= n
    ensures (t - {key}).Keys == Range(1, n) - {key}
    ensures |(t - {key}).Keys| == n - 1
  {
    assert (t - {key}).Keys == Range(1, n) - {key};
  }

  /** `owned[id] = true` for each listed item in turn. */
  function Unlocked(owned: map<string, bool>, items: seq<Item>): (r: map<string, bool>)
    ensures forall id :: id in owned ==> id in r
    ensures forall k :: 0 <= k < |items| ==> items[k].id in r && r[items[k].id]
    decreases |items|
  {
    if items == [] then owned else Unlocked(owned, items[..|items| - 1])[items[|items| - 1].id := true]
  }

  /** After unlocking, every listed id is owned, the earlier entries are kept, and nothing else is added. */
  lemma {:induction false} UnlockedOwnsAll(owned: map<string, bool>, items: seq<Item>)
    ensures Unlocked(owned, items).Keys == owned.Keys + Ids(items)
    ensures forall id :: id in Ids(items) ==> Unlocked(owned, items)[id]
    ensures forall id :: id in owned && id !in Ids(items) ==> Unlocked(owned, items)[id] == owned[id]
    decreases |items|
  {
    if items != [] {
      UnlockedOwnsAll(owned, items[..|items| - 1]);
    }
  }
}
