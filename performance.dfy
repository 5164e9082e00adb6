/**
 * The performance optimizer: object pools for particles and bullets, a
 * bounded history of frame-rate samples and its average, the quality
 * table behind the three optimisation levels, list caps, dirty regions,
 * and the automatic level switch driven by the measured frame rate.
 *
 * The clock (`performance.now()`) is a parameter `now`, in milliseconds.
 */
module Performance {
  import opened Options

  const MaxHistoryLength: nat := 60

  // ------------------------------------------------------------ object pools

  /** A pooled object of one of the two kinds. */
  datatype PoolObject =
    | Particle(x: real, y: real, dx: real, dy: real, color: string, size: real, life: real, active: bool)
    | Bullet(x: real, y: real, dx: real, dy: real, width: real, height: real, color: string, active: bool, damage: int, piercing: bool)

  /** The pool an object belongs to. */
  function KindOf(obj: PoolObject): string
  {
    if obj.Particle? then "particle" else "bullet"
  }

  /** The pool types set up at construction, and each one's `create`. */
  function Create(poolType: string): (r: Option<PoolObject>)
    ensures r.Some? <==> poolType in {"particle", "bullet"}
    ensures r.Some? ==> !r.value.active
    ensures r.Some? ==> KindOf(r.value) == poolType
  {
    if poolType == "particle" then Some(Particle(0.0, 0.0, 0.0, 0.0, "#ffffff", 3.0, 1000.0, false))
    else if poolType == "bullet" then Some(Bullet(0.0, 0.0, 0.0, -10.0, 4.0, 4.0, "#00ffff", false, 1, false))
    else None
  }

  /**
   * The pool's `reset`: a particle gets every field back; a bullet gets
   * only its position, velocity and the inactive flag back.
   */
  function Recycled(obj: PoolObject): (r: PoolObject)
    ensures !r.active
    ensures obj.Particle? ==> Some(r) == Create("particle")
    ensures obj.Bullet? ==> r.Bullet? && r.x == 0.0 && r.y == 0.0 && r.dx == 0.0 && r.dy == -10.0
  {
    match obj
    case Particle(_, _, _, _, _, _, _, _) => Particle(0.0, 0.0, 0.0, 0.0, "#ffffff", 3.0, 1000.0, false)
    case Bullet(_, _, _, _, width, height, color, _, damage, piercing) =>
      Bullet(0.0, 0.0, 0.0, -10.0, width, height, color, false, damage, piercing)
  }

  /** A returned bullet keeps its size, colour, damage and piercing flag. */
  lemma BulletResetKeepsUpgrades(obj: PoolObject)
    requires obj.Bullet?
    ensures var r := Recycled(obj);
            r.width == obj.width && r.height == obj.height && r.color == obj.color && r.damage == obj.damage && r.piercing == obj.piercing
  {
  }

  /** `pool.find(o => !o.active)`: the first inactive object's index, or -1. */
  function FirstInactive(objs: seq<PoolObject>): (i: int)
    ensures -1 <= i < |objs|
    ensures i == -1 <==> forall k :: 0 <= k < |objs| ==> objs[k].active
    ensures i >= 0 ==> !objs[i].active && forall k :: 0 <= k < i ==> objs[k].active
    decreases |objs|
  {
    if objs == [] then -1
    else if !objs[0].active then 0
    else
      var j := FirstInactive(objs[1..]);
      if j == -1 then -1 else j + 1
  }

  /** `getFromPool`'s effect on one pool: reuse the first inactive object, or append a spare one; either way it is now active. */
  function Taken(objs: seq<PoolObject>, spare: PoolObject): (r: (seq<PoolObject>, nat))
    ensures r.1 < |r.0| && r.0[r.1].active
    ensures forall k :: 0 <= k < |r.0| ==> KindOf(r.0[k]) == if k < |objs| then KindOf(objs[k]) else KindOf(spare)
    ensures FirstInactive(objs) >= 0 ==> r.1 == FirstInactive(objs) && r.0 == objs[r.1 := objs[r.1].(active := true)]
    ensures FirstInactive(objs) == -1 ==> r.1 == |objs| && r.0 == objs + [spare.(active := true)]
  {
    var i := FirstInactive(objs);
    if i >= 0 then (objs[i := objs[i].(active := true)], i)
    else (objs + [spare.(active := true)], |objs|)
  }

  /** A pool never grows while it still holds an inactive object. */
  lemma ReuseBeforeGrowth(objs: seq<PoolObject>, spare: PoolObject, k: nat)
    requires k < |objs| && !objs[k].active
    ensures |Taken(objs, spare).0| == |objs|
    ensures Taken(objs, spare).1 <= k
  {
  }

  /** An object handed out and then returned is the very next one handed out, and the pool does not grow. */
  lemma {:induction false} TakeThenReturn(objs: seq<PoolObject>, spare: PoolObject)
    ensures var (after, i) := Taken(objs, spare);
            var back := after[i := Recycled(after[i])];
            Taken(back, spare).1 == i && |Taken(back, spare).0| == |back| == |after|
  {
    var (after, i) := Taken(objs, spare);
    var back := after[i := Recycled(after[i])];
    FirstInactiveAt(back, i);
  }

  lemma {:induction false} FirstInactiveAt(objs: seq<PoolObject>, i: nat)
    requires i < |objs| && !objs[i].active
    requires forall k :: 0 <= k < i ==> objs[k].active
    ensures FirstInactive(objs) == i
    decreases i
  {
    if i > 0 {
      FirstInactiveAt(objs[1..], i - 1);
    }
  }

  /** `filter(obj => !obj.active)`: the inactive objects of the pool, in pool order. */
  function InactiveOnly(objs: seq<PoolObject>): (r: seq<PoolObject>)
    ensures |r| <= |objs|
    ensures forall k :: 0 <= k < |r| ==> !r[k].active
    ensures forall o :: o in r <==> o in objs && !o.active
    decreases |objs|
  {
    if objs == [] then []
    else
      var init := objs[..|objs| - 1];
      var rest := InactiveOnly(init);
      assert forall o :: o in objs <==> o in init || o == objs[|objs| - 1];
      if objs[|objs| - 1].active then rest else rest + [objs[|objs| - 1]]
  }

  /** The filter over two parts is the filter of each part, in order, and one object is kept exactly when it is
      inactive: so the inactive objects keep the pool's order and multiplicity. */
  lemma InactiveOnlyAppend(a: seq<PoolObject>, b: seq<PoolObject>, x: PoolObject)
    ensures InactiveOnly(a + b) == InactiveOnly(a) + InactiveOnly(b)
    ensures InactiveOnly([x]) == if x.active then [] else [x]
  {
    InactiveOnlyConcat(a, b);
    InactiveOnlyOne(x);
  }

  lemma {:induction false} InactiveOnlyConcat(a: seq<PoolObject>, b: seq<PoolObject>)
    ensures InactiveOnly(a + b) == InactiveOnly(a) + InactiveOnly(b)
    decreases |b|
  {
    if b == [] {
      assert a + b == a;
    } else {
      var init := b[..|b| - 1];
      assert (a + b)[..|a + b| - 1] == a + init && (a + b)[|a + b| - 1] == b[|b| - 1];
      InactiveOnlyConcat(a, init);
    }
  }

  lemma InactiveOnlyOne(x: PoolObject)
    ensures InactiveOnly([x]) == if x.active then [] else [x]
  {
    assert [x][..0] == [];
  }

  /** `filter(obj => !obj.active).slice(-20)`: at most the last 20 inactive objects, in pool order. */
  function Trimmed(objs: seq<PoolObject>): (r: seq<PoolObject>)
    ensures |r| <= 20
    ensures forall k :: 0 <= k < |r| ==> !r[k].active
    ensures |r| == if |InactiveOnly(objs)| > 20 then 20 else |InactiveOnly(objs)|
    ensures r == InactiveOnly(objs)[|InactiveOnly(objs)| - |r|..]
  {
    var idle := InactiveOnly(objs);
    if |idle| > 20 then idle[|idle| - 20..] else idle
  }

  /** Collecting a pool keeps only objects of that pool's kind. */
  lemma TrimmedKeepsKind(objs: seq<PoolObject>, kind: string)
    requires forall k :: 0 <= k < |objs| ==> KindOf(objs[k]) == kind
    ensures forall k :: 0 <= k < |Trimmed(objs)| ==> KindOf(Trimmed(objs)[k]) == kind
  {
    var r := Trimmed(objs);
    forall k | 0 <= k < |r|
      ensures KindOf(r[k]) == kind
    {
      assert r[k] in InactiveOnly(objs);
      assert r[k] in objs;
    }
  }

  // ------------------------------------------------------------ frame rate

  function Sum(h: seq<real>): real
    decreases |h|
  {
    if h == [] then 0.0 else h[0] + Sum(h[1..])
  }

  /** `calculateAverageFPS`: 60 with no samples, otherwise the arithmetic mean. */
  function AverageFps(h: seq<real>): (r: real)
    ensures |h| == 0 ==> r == 60.0
    ensures |h| > 0 ==> r * (|h| as real) == Sum(h)
  {
    if |h| == 0 then 60.0 else Sum(h) / (|h| as real)
  }

  lemma {:induction false} SumBounds(h: seq<real>, lo: real, hi: real)
    requires forall k :: 0 <= k < |h| ==> lo <= h[k] <= hi
    ensures (|h| as real) * lo <= Sum(h) <= (|h| as real) * hi
    decreases |h|
  {
    if h != [] {
      SumBounds(h[1..], lo, hi);
    }
  }

  /** The mean lies between the smallest and the largest sample. */
  lemma AverageBetween(h: seq<real>, lo: real, hi: real)
    requires |h| > 0
    requires forall k :: 0 <= k < |h| ==> lo <= h[k] <= hi
    ensures lo <= AverageFps(h) <= hi
  {
    SumBounds(h, lo, hi);
    var n := |h| as real;
    var a := AverageFps(h);
    assert a * n == Sum(h);
    MeanBounds(a, n, lo, hi);
  }

  lemma MeanBounds(a: real, n: real, lo: real, hi: real)
    requires n > 0.0 && n * lo <= a * n <= n * hi
    ensures lo <= a <= hi
  {
  }

  /** A run of equal samples averages to that rate. */
  lemma {:induction false} SteadyAverage(h: seq<real>, v: real)
    requires |h| > 0 && forall k :: 0 <= k < |h| ==> h[k] == v
    ensures AverageFps(h) == v
  {
    AverageBetween(h, v, v);
  }

  /** `endFrame`'s history step: the new sample goes last; past 60 the oldest is dropped. */
  function Recorded(h: seq<real>, sample: real): (r: seq<real>)
    ensures |h| < MaxHistoryLength ==> r == h + [sample]
    ensures |h| >= MaxHistoryLength ==> r == (h + [sample])[1..]
    ensures |h| <= MaxHistoryLength ==> |r| <= MaxHistoryLength
    ensures |r| > 0 && r[|r| - 1] == sample
  {
    var pushed := h + [sample];
    if |pushed| > MaxHistoryLength then pushed[1..] else pushed
  }

  /** At the cap, every sample but the oldest moves one place toward the front. */
  lemma RecordedShifts(h: seq<real>, sample: real)
    requires |h| == MaxHistoryLength
    ensures |Recorded(h, sample)| == MaxHistoryLength
    ensures forall k :: 0 <= k < MaxHistoryLength - 1 ==> Recorded(h, sample)[k] == h[k + 1]
  {
  }

  /** `1000 / frameTime` (a zero frame time is recorded as rate 0). */
  function SampleOf(frameTime: real): (rate: real)
    ensures frameTime != 0.0 ==> rate * frameTime == 1000.0
    ensures frameTime > 0.0 ==> rate > 0.0
    ensures frameTime == 0.0 ==> rate == 0.0
  {
    if frameTime == 0.0 then 0.0 else 1000.0 / frameTime
  }

  // ------------------------------------------------------------ quality levels

  /** What `applyOptimizations` sets for a level. */
  datatype Quality = Quality(imageScale: real, enableEffects: bool, enableAntialiasing: bool, maxEntities: nat, maxParticles: nat)

  /** `setQualitySettings(scale, effects)` plus the caps; antialiasing needs a scale above 0.8. */
  function Settings(scale: real, effects: bool, entities: nat, particles: nat): (q: Quality)
    ensures q.enableAntialiasing <==> scale > 0.8
    ensures q.imageScale == scale && q.enableEffects == effects && q.maxEntities == entities && q.maxParticles == particles
  {
    Quality(scale, effects, scale > 0.8, entities, particles)
  }

  /** The level table; an unknown level sets nothing. */
  function QualityFor(level: string): (q: Option<Quality>)
    ensures q.Some? <==> level in {"minimal", "balanced", "quality"}
  {
    if level == "minimal" then Some(Settings(0.5, false, 50, 10))
    else if level == "balanced" then Some(Settings(0.8, true, 100, 25))
    else if level == "quality" then Some(Settings(1.0, true, 200, 50))
    else None
  }

  /** The table's entries, and the balanced level's scale of exactly 0.8 leaving antialiasing off. */
  lemma LevelTable()
    ensures QualityFor("minimal") == Some(Quality(0.5, false, false, 50, 10))
    ensures QualityFor("balanced") == Some(Quality(0.8, true, false, 100, 25))
    ensures QualityFor("quality") == Some(Quality(1.0, true, true, 200, 50))
  {
  }

  /** `autoOptimize`'s choice: below 45 minimal, below 55 balanced, from 58 quality, and no change in between. */
  function AutoLevel(fps: real, current: string): (level: string)
    ensures fps < 45.0 ==> level == "minimal"
    ensures 45.0 <= fps < 55.0 ==> level == "balanced"
    ensures fps >= 58.0 ==> level == "quality"
    ensures 55.0 <= fps < 58.0 ==> level == current
  {
    if fps < 45.0 then "minimal"
    else if fps < 55.0 then "balanced"
    else if fps >= 58.0 then "quality"
    else current
  }

  /** Between 55 and 58 the level holds, so small swings around the thresholds do not flip it back and forth. */
  lemma AutoLevelHysteresis(fps1: real, fps2: real, start: string)
    requires 55.0 <= fps1 < 58.0 && 55.0 <= fps2 < 58.0
    ensures AutoLevel(fps2, AutoLevel(fps1, start)) == start
  {
  }

  // ------------------------------------------------------------ lists and regions

  /** `slice(0, cap)` unless no cap is set. */
  function Capped<T>(xs: seq<T>, cap: Option<nat>): (r: seq<T>)
    ensures cap.None? || cap.value == 0 ==> r == xs
    ensures |r| <= |xs| && r == xs[..|r|]
    ensures cap.Some? && cap.value > 0 ==> |r| <= cap.value
    ensures cap.Some? && cap.value > 0 && |xs| >= cap.value ==> |r| == cap.value
    ensures cap.Some? && cap.value > 0 && |xs| < cap.value ==> r == xs
  {
    if cap.None? || cap.value == 0 then xs
    else if |xs| <= cap.value then xs
    else xs[..cap.value]
  }

  datatype Region = Region(x: real, y: real, width: real, height: real, timestamp: real)

  /** The regions still younger than 100 ms at `now`. */
  function Fresh(rs: seq<Region>, now: real): (r: seq<Region>)
    ensures forall k :: 0 <= k < |r| ==> now - r[k].timestamp < 100.0
    ensures forall g :: g in rs && now - g.timestamp < 100.0 ==> g in r
    ensures forall g :: g in r ==> g in rs
    decreases |rs|
  {
    if rs == [] then []
    else
      var rest := Fresh(rs[..|rs| - 1], now);
      var last := rs[|rs| - 1];
      assert forall g :: g in rs ==> g in rs[..|rs| - 1] || g == last;
      if now - last.timestamp < 100.0 then rest + [last] else rest
  }

  /** The open-interval overlap `isDirtyRegion` tests: boxes that only touch do not overlap. */
  predicate OverlapsOpen(g: Region, x: real, y: real, width: real, height: real)
  {
    x < g.x + g.width && x + width > g.x && y < g.y + g.height && y + height > g.y
  }

  lemma TouchingIsClean(g: Region, y: real, height: real)
    ensures !OverlapsOpen(g, g.x + g.width, y, 1.0, height)
  {
  }

  // ------------------------------------------------------------ the optimizer

  class PerformanceOptimizer {
    var fps: real
    var entityCount: nat
    var drawCalls: nat
    var frameTime: real
    var fpsHistory: seq<real>
    var lastFrameTime: real
    var frameCount: nat
    var optimizeLevel: string
    /** Unset until a level is first applied. */
    var quality: Option<Quality>
    var pools: map<string, seq<PoolObject>>
    var useDirtyRectangles: bool
    var dirtyRegions: seq<Region>

    ghost predicate Valid()
      reads this
    {
      |fpsHistory| <= MaxHistoryLength
      && pools.Keys == {"particle", "bullet"}
      && forall t, k :: t in pools && 0 <= k < |pools[t]| ==> KindOf(pools[t][k]) == t
    }

    constructor()
      ensures Valid()
      ensures fps == 60.0 && fpsHistory == [] && frameCount == 0 && optimizeLevel == "balanced" && quality.None?
      ensures pools == map["particle" := [], "bullet" := []] && useDirtyRectangles && dirtyRegions == []
      ensures lastFrameTime == 0.0 && frameTime == 0.0 && drawCalls == 0 && entityCount == 0
    {
      fps := 60.0;
      entityCount := 0;
      drawCalls := 0;
      frameTime := 0.0;
      fpsHistory := [];
      lastFrameTime := 0.0;
      frameCount := 0;
      optimizeLevel := "balanced";
      quality := None;
      pools := map["particle" := [], "bullet" := []];
      useDirtyRectangles := true;
      dirtyRegions := [];
    }

    /** `getFromPool(type)`: no object for an unknown type; otherwise the taken object's index. */
    method GetFromPool(poolType: string) returns (index: Option<nat>)
      requires Valid()
      modifies this`pools
      ensures Valid()
      ensures index.None? <==> poolType !in old(pools)
      ensures index.None? ==> pools == old(pools)
      ensures index.Some? ==> (pools[poolType], index.value) == Taken(old(pools)[poolType], Create(poolType).value)
                              && pools == old(pools)[poolType := pools[poolType]]
    {
      if poolType !in pools {
        return None;
      }
      var objs := pools[poolType];
      var i := FirstInactive(objs);
      var spare := Create(poolType).value;
      if i >= 0 {
        objs := objs[i := objs[i].(active := true)];
      } else {
        objs := objs + [spare.(active := true)];
        i := |objs| - 1;
      }
      pools := pools[poolType := objs];
      index := Some(i);
    }

    /** `returnToPool(type, obj)` for an object of the pool, named by its index; anything else leaves the pools alone. */
    method ReturnToPool(poolType: string, index: nat)
      requires Valid()
      modifies this`pools
      ensures Valid()
      ensures poolType in old(pools) && index < |old(pools)[poolType]|
              ==> pools == old(pools)[poolType := old(pools)[poolType][index := Recycled(old(pools)[poolType][index])]]
      ensures !(poolType in old(pools) && index < |old(pools)[poolType]|) ==> pools == old(pools)
    {
      if poolType in pools && index < |pools[poolType]| {
        var objs := pools[poolType];
        pools := pools[poolType := objs[index := Recycled(objs[index])]];
      }
    }

    method BeginFrame(now: real)
      modifies this`frameTime, this`lastFrameTime, this`drawCalls, this`frameCount
      ensures frameTime == now - old(lastFrameTime) && lastFrameTime == now
      ensures drawCalls == 0 && frameCount == old(frameCount) + 1
    {
      frameTime := now - lastFrameTime;
      lastFrameTime := now;
      drawCalls := 0;
      frameCount := frameCount + 1;
    }

    /** `endFrame`: every tenth frame a sample is recorded and the displayed rate becomes the history's mean. */
    method EndFrame()
      requires Valid()
      modifies this`fpsHistory, this`fps
      ensures Valid()
      ensures frameCount % 10 == 0 ==> fpsHistory == Recorded(old(fpsHistory), SampleOf(frameTime)) && fps == AverageFps(fpsHistory)
      ensures frameCount % 10 != 0 ==> fpsHistory == old(fpsHistory) && fps == old(fps)
    {
      if frameCount % 10 == 0 {
        var sample := if frameTime == 0.0 then 0.0 else 1000.0 / frameTime;
        fpsHistory := fpsHistory + [sample];
        if |fpsHistory| > MaxHistoryLength {
          fpsHistory := fpsHistory[1..];
        }
        fps := CalculateAverageFps();
      }
    }

    function CalculateAverageFps(): (r: real)
      reads this
      ensures r == AverageFps(fpsHistory)
      ensures |fpsHistory| == 0 ==> r == 60.0
    {
      AverageFps(fpsHistory)
    }

    /** `setOptimizationLevel`: the level is stored even when unknown; only known levels change the settings. */
    method SetOptimizationLevel(level: string)
      modifies this`optimizeLevel, this`quality
      ensures optimizeLevel == level
      ensures QualityFor(level).Some? ==> quality == QualityFor(level)
      ensures QualityFor(level).None? ==> quality == old(quality)
    {
      optimizeLevel := level;
      ApplyOptimizations();
    }

    method ApplyOptimizations()
      modifies this`quality
      ensures QualityFor(optimizeLevel).Some? ==> quality == QualityFor(optimizeLevel)
      ensures QualityFor(optimizeLevel).None? ==> quality == old(quality)
    {
      if optimizeLevel == "minimal" {
        quality := Some(Settings(0.5, false, 50, 10));
      } else if optimizeLevel == "balanced" {
        quality := Some(Settings(0.8, true, 100, 25));
      } else if optimizeLevel == "quality" {
        quality := Some(Settings(1.0, true, 200, 50));
      }
    }

    /** `autoOptimize`. */
    method AutoOptimize()
      modifies this`optimizeLevel, this`quality
      ensures optimizeLevel == AutoLevel(fps, old(optimizeLevel))
      ensures !(55.0 <= fps < 58.0) ==> quality == QualityFor(optimizeLevel)
      ensures 55.0 <= fps < 58.0 ==> quality == old(quality)
    {
      if fps < 45.0 {
        SetOptimizationLevel("minimal");
      } else if fps < 55.0 {
        SetOptimizationLevel("balanced");
      } else if fps >= 58.0 {
        SetOptimizationLevel("quality");
      }
    }

    /** The entity cap of the applied level: 50, 100 or 200 for a level from the table, none before any level. */
    function MaxEntities(): (r: Option<nat>)
      reads this
      ensures r.Some? <==> quality.Some?
      ensures forall l {:trigger QualityFor(l)} :: quality.Some? && quality == QualityFor(l) ==> r.value in {50, 100, 200}
    {
      if quality.Some? then Some(quality.value.maxEntities) else None
    }

    /** The particle cap of the applied level: 10, 25 or 50 for a level from the table, none before any level. */
    function MaxParticles(): (r: Option<nat>)
      reads this
      ensures r.Some? <==> quality.Some?
      ensures forall l {:trigger QualityFor(l)} :: quality.Some? && quality == QualityFor(l) ==> r.value in {10, 25, 50}
    {
      if quality.Some? then Some(quality.value.maxParticles) else None
    }

    /** `limitEntities`: the first `maxEntities`, counted in the metrics; unchanged before any level is applied. */
    method LimitEntities<T>(entities: seq<T>) returns (r: seq<T>)
      modifies this`entityCount
      ensures r == Capped(entities, MaxEntities())
      ensures MaxEntities().Some? && MaxEntities().value > 0 ==> entityCount == |r|
      ensures !(MaxEntities().Some? && MaxEntities().value > 0) ==> entityCount == old(entityCount)
    {
      var cap := MaxEntities();
      if cap.None? || cap.value == 0 {
        return entities;
      }
      r := if |entities| <= cap.value then entities else entities[..cap.value];
      entityCount := |r|;
    }

    function LimitParticles<T>(particles: seq<T>): (r: seq<T>)
      reads this
      ensures MaxParticles().None? || MaxParticles().value == 0 ==> r == particles
      ensures |r| <= |particles| && r == particles[..|r|]
      ensures MaxParticles().Some? && MaxParticles().value > 0 ==> |r| <= MaxParticles().value
      ensures MaxParticles().Some? && MaxParticles().value > 0 ==>
                |r| == if |particles| <= MaxParticles().value then |particles| else MaxParticles().value
    {
      Capped(particles, MaxParticles())
    }

    /** `markDirtyRegion`: the new region is added and every region older than 100 ms dropped. */
    method MarkDirtyRegion(x: real, y: real, width: real, height: real, now: real)
      modifies this`dirtyRegions
      ensures useDirtyRectangles ==> dirtyRegions == Fresh(old(dirtyRegions) + [Region(x, y, width, height, now)], now)
      ensures useDirtyRectangles ==> Region(x, y, width, height, now) in dirtyRegions
      ensures width > 0.0 && height > 0.0 ==> IsDirtyRegion(x, y, width, height)
      ensures !useDirtyRectangles ==> dirtyRegions == old(dirtyRegions)
    {
      if !useDirtyRectangles {
        return;
      }
      var g := Region(x, y, width, height, now);
      dirtyRegions := Fresh(dirtyRegions + [g], now);
      if width > 0.0 && height > 0.0 {
        var k :| 0 <= k < |dirtyRegions| && dirtyRegions[k] == g;
        assert OverlapsOpen(dirtyRegions[k], x, y, width, height);
      }
    }

    /** `isDirtyRegion`: always dirty without dirty rectangles; otherwise some recent region strictly overlaps. */
    predicate IsDirtyRegion(x: real, y: real, width: real, height: real)
      reads this
      ensures !useDirtyRectangles ==> IsDirtyRegion(x, y, width, height)
      ensures useDirtyRectangles && IsDirtyRegion(x, y, width, height) ==> dirtyRegions != []
      ensures IsDirtyRegion(x, y, width, height) <==>
                !useDirtyRectangles || exists g :: g in dirtyRegions && OverlapsOpen(g, x, y, width, height)
    {
      !useDirtyRectangles || exists k :: 0 <= k < |dirtyRegions| && OverlapsOpen(dirtyRegions[k], x, y, width, height)
    }

    /** `garbageCollect`: each pool keeps at most its last 20 idle objects; the dirty regions are dropped. */
    method GarbageCollect()
      requires Valid()
      modifies this`pools, this`dirtyRegions
      ensures Valid()
      ensures pools == map["particle" := Trimmed(old(pools)["particle"]), "bullet" := Trimmed(old(pools)["bullet"])]
      ensures forall t :: t in pools ==> |pools[t]| <= 20 && forall k :: 0 <= k < |pools[t]| ==> !pools[t][k].active
      ensures dirtyRegions == []
    {
      TrimmedKeepsKind(pools["particle"], "particle");
      TrimmedKeepsKind(pools["bullet"], "bullet");
      pools := map["particle" := Trimmed(pools["particle"]), "bullet" := Trimmed(pools["bullet"])];
      dirtyRegions := [];
    }
  }
}
