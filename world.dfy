/**
 * The world: the current region, the region-transition state machine, the
 * terrain features generated for a region, the terrain culling test and the
 * fog-gradient cache.
 */
module Worlds {
  import opened Wrappers
  import opened Geometry
  import opened Content

  /** Transition progress gained per second. */
  const TRANSITION_RATE: real := 0.5
  /** Features this far outside the canvas are still drawn. */
  const CULL_MARGIN: real := 100.0

  /** A region value taken unchanged from the region table. */
  predicate Known(r: Region)
  {
    r.id in REGIONS && REGIONS[r.id] == r
  }

  /** A source of `Math.random()` values: the `i`-th call returns `rand(i)`. */
  ghost predicate RandomSource(rand: nat -> real)
  {
    forall i: nat :: 0.0 <= rand(i) < 1.0
  }

  /** A terrain feature; `kind` 0 draws a tree, 1 a rock, anything else grass. */
  datatype Feature = Feature(x: real, y: real, kind: int, size: real, seed: real, opacity: real)

  /** The number of features drawn from the first random value. */
  function FeatureCount(r: real): int
  {
    20 + Scale(r, 15.0).Floor
  }

  /** `Math.random() * w`: for a positive `w`, a value in [0, w). */
  function Scale(r: real, w: real): (s: real)
    ensures 0.0 <= r < 1.0 && w > 0.0 ==> 0.0 <= s < w
  {
    assert 0.0 <= r < 1.0 && w > 0.0 ==> (1.0 - r) * w > 0.0;
    r * w
  }

  /** The `i`-th feature, built from the six random values drawn for it in field order. */
  function FeatureAt(region: Region, rand: nat -> real, i: nat): Feature
  {
    var b := 1 + 6 * i;
    Feature(Scale(rand(b), region.width), Scale(rand(b + 1), region.height), Scale(rand(b + 2), 3.0).Floor,
      20.0 + Scale(rand(b + 3), 40.0), Scale(rand(b + 4), 1000.0), 0.15 + Scale(rand(b + 5), 0.1))
  }

  /** `fs` is the feature list `generateTerrainFeatures` builds for `region` from `rand`. */
  ghost predicate GeneratedFrom(fs: seq<Feature>, region: Region, rand: nat -> real)
  {
    |fs| == FeatureCount(rand(0)) && forall i :: 0 <= i < |fs| ==> fs[i] == FeatureAt(region, rand, i)
  }

  /** A feature lies inside the region and its drawing parameters are in their ranges. */
  predicate FeatureInRange(f: Feature, region: Region)
  {
    && 0.0 <= f.x < region.width && 0.0 <= f.y < region.height
    && 0 <= f.kind <= 2 && 20.0 <= f.size < 60.0
    && 0.0 <= f.seed < 1000.0 && 0.15 <= f.opacity < 0.25
  }

  lemma FeatureAtInRange(region: Region, rand: nat -> real, i: nat)
    requires RandomSource(rand) && region.width > 0.0 && region.height > 0.0
    ensures FeatureInRange(FeatureAt(region, rand, i), region)
  {
    var b := 1 + 6 * i;
    assert 0.0 <= rand(b) < 1.0 && 0.0 <= rand(b + 1) < 1.0 && 0.0 <= rand(b + 2) < 1.0;
    assert 0.0 <= rand(b + 3) < 1.0 && 0.0 <= rand(b + 4) < 1.0 && 0.0 <= rand(b + 5) < 1.0;
  }

  /**
   * `generateTerrainFeatures`: between 20 and 34 features, each inside the
   * region, built by pushing one feature per iteration.
   */
  method GenerateTerrainFeatures(region: Region, rand: nat -> real) returns (features: seq<Feature>)
    requires RandomSource(rand) && region.width > 0.0 && region.height > 0.0
    ensures GeneratedFrom(features, region, rand)
    ensures 20 <= |features| <= 34
    ensures forall f :: f in features ==> FeatureInRange(f, region)
  {
    var featureCount := FeatureCount(rand(0));
    assert 0.0 <= rand(0) < 1.0;
    features := [];
    var i := 0;
    while i < featureCount
      invariant 0 <= i <= featureCount
      invariant |features| == i
      invariant forall j :: 0 <= j < i ==> features[j] == FeatureAt(region, rand, j)
      invariant forall f :: f in features ==> FeatureInRange(f, region)
    {
      FeatureAtInRange(region, rand, i);
      features := features + [FeatureAt(region, rand, i)];
      i := i + 1;
    }
  }

  /** The transition part of the world's state. */
  datatype Transition = Transition(current: Region, next: Option<Region>, transitioning: bool, progress: real)
  {
    /**
     * Both regions come from the table; while transitioning there is a target
     * and the progress lies in [0, 1); when idle the progress is 0.
     */
    predicate Valid()
    {
      && Known(current) && (next.Some? ==> Known(next.value))
      && (transitioning ==> next.Some? && 0.0 <= progress < 1.0)
      && (!transitioning ==> progress == 0.0)
    }
  }

  /** `startTransition`: ignored for an unknown id, otherwise (re)starts from 0 toward that region. */
  function Start(t: Transition, regionId: string): (r: Transition)
    ensures regionId !in REGIONS ==> r == t
    ensures regionId in REGIONS ==>
      r.current == t.current && r.next == Some(REGIONS[regionId]) && r.transitioning && r.progress == 0.0
    ensures t.Valid() ==> r.Valid()
  {
    if regionId in REGIONS then t.(next := Some(REGIONS[regionId]), transitioning := true, progress := 0.0)
    else t
  }

  /**
   * The transition part of `update`: the new state and whether the
   * transition completed on this call.
   */
  function Advance(t: Transition, dt: real): (r: (Transition, bool))
    requires t.Valid()
    ensures !t.transitioning ==> r == (t, false)
    ensures r.1 <==> t.transitioning && t.progress + dt * TRANSITION_RATE >= 1.0
    ensures r.1 ==> r.0 == Transition(t.next.value, t.next, false, 0.0)
    ensures t.transitioning && !r.1 ==> r.0 == t.(progress := t.progress + dt * TRANSITION_RATE)
    ensures dt >= 0.0 ==> r.0.Valid()
  {
    if t.transitioning then
      var p := t.progress + dt * TRANSITION_RATE;
      if p >= 1.0 then (Transition(t.next.value, t.next, false, 0.0), true)
      else (t.(progress := p), false)
    else (t, false)
  }

  /** The state after a run of `update` calls, and how many of them reported completion. */
  function AdvanceRun(t: Transition, dts: seq<real>): (Transition, nat)
    requires t.Valid() && forall i :: 0 <= i < |dts| ==> dts[i] >= 0.0
    decreases |dts|
  {
    if dts == [] then (t, 0)
    else
      var step := Advance(t, dts[0]);
      var rest := AdvanceRun(step.0, dts[1..]);
      (rest.0, rest.1 + (if step.1 then 1 else 0))
  }

  /**
   * Over any run of updates a transition reports completion at most once;
   * when it does, the world has moved to the target region and is idle, and
   * otherwise it is still in its starting region.
   */
  lemma {:induction false} CompletesAtMostOnce(t: Transition, dts: seq<real>)
    requires t.Valid() && forall i :: 0 <= i < |dts| ==> dts[i] >= 0.0
    ensures var (f, count) := AdvanceRun(t, dts);
      && f.Valid() && count <= 1
      && (count == 1 ==> t.transitioning && f.current == t.next.value && !f.transitioning)
      && (count == 0 ==> f.current == t.current)
      && (!t.transitioning ==> f == t && count == 0)
    decreases |dts|
  {
    if dts != [] {
      var step := Advance(t, dts[0]);
      CompletesAtMostOnce(step.0, dts[1..]);
    }
  }

  /** `n` updates of `dt` seconds each. */
  function Frames(n: nat, dt: real): (dts: seq<real>)
    ensures |dts| == n && forall i :: 0 <= i < n ==> dts[i] == dt
  {
    seq(n, i => dt)
  }

  lemma {:induction false} TransitionProgresses(t: Transition, n: nat, dt: real)
    requires t.Valid() && t.transitioning && dt >= 0.0
    ensures var (f, count) := AdvanceRun(t, Frames(n, dt));
      count == 1 || (f.transitioning && f.progress == t.progress + n as real * dt * TRANSITION_RATE)
    decreases n
  {
    if n > 0 {
      var dts := Frames(n, dt);
      assert dts[1..] == Frames(n - 1, dt);
      var step := Advance(t, dt);
      var rest := AdvanceRun(step.0, Frames(n - 1, dt));
      assert AdvanceRun(t, dts) == (rest.0, rest.1 + (if step.1 then 1 else 0));
      if step.1 {
        CompletesAtMostOnce(step.0, Frames(n - 1, dt));
      } else {
        TransitionProgresses(step.0, n - 1, dt);
        var k := (n - 1) as real;
        assert dt * TRANSITION_RATE + k * dt * TRANSITION_RATE == (k + 1.0) * dt * TRANSITION_RATE;
      }
    }
  }

  /**
   * A transition that receives updates totalling at least two seconds
   * completes, exactly once, in the target region.
   */
  lemma TransitionCompletes(t: Transition, n: nat, dt: real)
    requires t.Valid() && t.transitioning && dt >= 0.0
    requires n as real * dt * TRANSITION_RATE >= 1.0
    ensures var (f, count) := AdvanceRun(t, Frames(n, dt));
      count == 1 && f.current == t.next.value && !f.transitioning
  {
    TransitionProgresses(t, n, dt);
    CompletesAtMostOnce(t, Frames(n, dt));
  }

  /** The fog gradient: centred on the canvas, from `0.2 * width` to `0.7 * width`. */
  datatype Fog = Fog(centerX: real, centerY: real, innerRadius: real, outerRadius: real,
    innerColor: string, outerColor: string)

  /**
   * A world's fields besides its transition: the terrain features, the cached
   * fog gradient and the canvas size it was built for.
   */
  datatype Scenery = Scenery(terrain: seq<Feature>, fog: Option<Fog>, width: real, height: real)

  /** The gradient `renderFog` builds for a canvas size and a region. */
  function FogFor(width: real, height: real, region: Region): Fog
  {
    Fog(width / 2.0, height / 2.0, width * 0.2, width * 0.7, "rgba(0, 0, 0, 0)", region.bgColor + "aa")
  }

  /**
   * The culling test of `renderTerrainFeatures`: a feature is skipped when its
   * screen position is more than 100 outside the canvas.
   */
  predicate Visible(f: Feature, camera: Vec, cw: real, ch: real)
  {
    var screenX := f.x - camera.x;
    var screenY := f.y - camera.y;
    !(screenX < -CULL_MARGIN || screenX > cw + CULL_MARGIN ||
      screenY < -CULL_MARGIN || screenY > ch + CULL_MARGIN)
  }

  /** The features drawn, in list order. */
  function Culled(fs: seq<Feature>, camera: Vec, cw: real, ch: real): (r: seq<Feature>)
    ensures |r| <= |fs|
    ensures forall f :: f in r <==>
      && f in fs
      && -100.0 <= f.x - camera.x <= cw + 100.0
      && -100.0 <= f.y - camera.y <= ch + 100.0
    decreases |fs|
  {
    if fs == [] then []
    else
      var last := fs[|fs| - 1];
      assert fs == fs[..|fs| - 1] + [last];
      Culled(fs[..|fs| - 1], camera, cw, ch) + (if Visible(last, camera, cw, ch) then [last] else [])
  }

  class World {
    var currentRegion: Region
    var transitionProgress: real
    var transitioning: bool
    var nextRegion: Option<Region>
    var terrainFeatures: seq<Feature>
    var fogGradient: Option<Fog>
    var lastWidth: real
    var lastHeight: real

    function State(): Transition
      reads this
    {
      Transition(currentRegion, nextRegion, transitioning, transitionProgress)
    }

    function Scene(): Scenery
      reads this
    {
      Scenery(terrainFeatures, fogGradient, lastWidth, lastHeight)
    }

    /** The transition state is valid, and a cached gradient is never stale. */
    ghost predicate Valid()
      reads this
    {
      && State().Valid()
      && (fogGradient.Some? ==> fogGradient.value == FogFor(lastWidth, lastHeight, currentRegion))
    }

    /** Starts idle in the forest with freshly generated terrain and no cached gradient. */
    constructor (rand: nat -> real)
      requires RandomSource(rand)
      ensures Valid()
      ensures State() == Transition(REGIONS["forest"], None, false, 0.0)
      ensures GeneratedFrom(terrainFeatures, REGIONS["forest"], rand)
      ensures fogGradient == None && lastWidth == 0.0 && lastHeight == 0.0
    {
      var features := GenerateTerrainFeatures(REGIONS["forest"], rand);
      currentRegion := REGIONS["forest"];
      transitionProgress := 0.0;
      transitioning := false;
      nextRegion := None;
      terrainFeatures := features;
      fogGradient := None;
      lastWidth := 0.0;
      lastHeight := 0.0;
    }

    /**
     * `update`: advances a running transition; on completion moves to the
     * target region, regenerates the terrain from `rand`, drops the cached
     * gradient and returns true.
     */
    method Update(dt: real, rand: nat -> real) returns (complete: bool)
      requires Valid() && dt >= 0.0 && RandomSource(rand)
      modifies this
      ensures Valid()
      ensures (State(), complete) == Advance(old(State()), dt)
      ensures complete ==> GeneratedFrom(terrainFeatures, currentRegion, rand) && fogGradient == None
      ensures !complete ==> terrainFeatures == old(terrainFeatures) && fogGradient == old(fogGradient)
      ensures lastWidth == old(lastWidth) && lastHeight == old(lastHeight)
    {
      if transitioning {
        transitionProgress := transitionProgress + dt * TRANSITION_RATE;

        if transitionProgress >= 1.0 {
          currentRegion := nextRegion.value;
          transitioning := false;
          transitionProgress := 0.0;
          terrainFeatures := GenerateTerrainFeatures(currentRegion, rand);
          fogGradient := None;
          return true;
        }
      }
      return false;
    }

    /** `startTransition`. */
    method StartTransition(regionId: string)
      requires Valid()
      modifies this`nextRegion, this`transitioning, this`transitionProgress
      ensures Valid()
      ensures State() == Start(old(State()), regionId)
    {
      if regionId in REGIONS {
        nextRegion := Some(REGIONS[regionId]);
        transitioning := true;
        transitionProgress := 0.0;
      }
    }

    function GetCurrentRegion(): (r: Region)
      reads this
      ensures r == State().current
      ensures State().Valid() ==> Known(r)
    {
      currentRegion
    }

    /** `getBounds`: the current region's size, 1600 by 1200 for every region in the table. */
    function GetBounds(): (b: Size)
      reads this
      ensures b == Size(currentRegion.width, currentRegion.height)
      ensures Known(currentRegion) ==> b == Size(1600.0, 1200.0)
    {
      Size(currentRegion.width, currentRegion.height)
    }

    /** The culling loop of `renderTerrainFeatures`: the features it draws, in order. */
    method DrawnFeatures(camera: Vec, cw: real, ch: real) returns (drawn: seq<Feature>)
      ensures drawn == Culled(terrainFeatures, camera, cw, ch)
    {
      drawn := [];
      var i := 0;
      while i < |terrainFeatures|
        invariant 0 <= i <= |terrainFeatures|
        invariant drawn == Culled(terrainFeatures[..i], camera, cw, ch)
      {
        var feature := terrainFeatures[i];
        assert terrainFeatures[..i + 1][..i] == terrainFeatures[..i];
        i := i + 1;
        var screenX := feature.x - camera.x;
        var screenY := feature.y - camera.y;

        if screenX < -CULL_MARGIN || screenX > cw + CULL_MARGIN ||
          screenY < -CULL_MARGIN || screenY > ch + CULL_MARGIN {
          continue;
        }
        drawn := drawn + [feature];
      }
      assert terrainFeatures[..i] == terrainFeatures;
    }

    /**
     * `renderFog`: rebuilds the gradient only when none is cached or the
     * canvas size changed, and always hands back the gradient for the
     * current size and region.
     */
    method RenderFog(width: real, height: real) returns (fog: Fog)
      requires Valid()
      modifies this`fogGradient, this`lastWidth, this`lastHeight
      ensures Valid()
      ensures fog == FogFor(width, height, currentRegion) && fogGradient == Some(fog)
      ensures lastWidth == width && lastHeight == height
      ensures old(fogGradient).Some? && old(lastWidth) == width && old(lastHeight) == height ==>
        fogGradient == old(fogGradient)
    {
      if fogGradient.None? || lastWidth != width || lastHeight != height {
        fogGradient := Some(FogFor(width, height, currentRegion));
        lastWidth := width;
        lastHeight := height;
      }
      fog := fogGradient.value;
    }
  }
}
