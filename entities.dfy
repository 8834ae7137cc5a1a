/**
 * Discoverable entities: the reveal/discovery latch, the wandering step, the
 * journal projection and the reveal-dependent drawing parameters.
 */
module Entities {
  import opened Geometry
  import opened Content
  import Journals

  const REVEAL_RATE: real := 0.5
  const FADE_RATE: real := 0.3
  const DETECTION_RADIUS: real := 100.0
  const BOSS_DETECTION_RADIUS: real := 150.0
  const TURN_INTERVAL: real := 3.0

  function DetectionRadius(isBoss: bool): real
  {
    if isBoss then BOSS_DETECTION_RADIUS else DETECTION_RADIUS
  }

  /** The player at `player` is inside the detection radius of an entity at `pos`. */
  predicate Near(isBoss: bool, pos: Vec, player: Vec)
  {
    DistanceSq(pos, player) < DetectionRadius(isBoss) * DetectionRadius(isBoss)
  }

  datatype RevealState = RevealState(progress: real, discovered: bool)
  {
    /** Progress stays in [0, 1] and is complete exactly when the entity is discovered. */
    predicate Valid()
    {
      0.0 <= progress <= 1.0 && (discovered <==> progress == 1.0)
    }
  }

  /**
   * The position, the direction-change timer and the per-frame displacement
   * (`heading`, standing for `cos`/`sin` of `moveAngle` times `moveSpeed`).
   */
  datatype Motion = Motion(pos: Vec, moveTimer: real, heading: Vec)

  datatype EntityState = EntityState(discovery: RevealState, motion: Motion)
  {
    predicate Valid()
    {
      discovery.Valid() && 0.0 <= motion.moveTimer <= TURN_INTERVAL
    }
  }

  /**
   * The discovery part of `update`: the new reveal state and whether this is
   * the call on which the entity became discovered.
   */
  function RevealStep(s: RevealState, near: bool, dt: real): (r: (RevealState, bool))
    ensures r.1 <==> !s.discovered && r.0.discovered
    ensures s.discovered ==> r.0.discovered
    ensures dt >= 0.0 && s.Valid() ==> r.0.Valid()
    ensures dt >= 0.0 && s.Valid() && s.discovered ==> r.0 == s
    ensures dt >= 0.0 && s.Valid() && near ==> r.0.progress >= s.progress
    ensures dt >= 0.0 && s.Valid() && !near ==> r.0.progress <= s.progress
  {
    if near then
      var p := Min(1.0, s.progress + dt * REVEAL_RATE);
      if p >= 1.0 && !s.discovered then (RevealState(p, true), true)
      else (RevealState(p, s.discovered), false)
    else if !s.discovered then
      (RevealState(Max(0.0, s.progress - dt * FADE_RATE), false), false)
    else
      (s, false)
  }

  /** The rates: growth by `0.5*dt` capped at 1 inside the radius, decay by `0.3*dt` floored at 0 outside. */
  lemma RevealRates(s: RevealState, near: bool, dt: real)
    requires s.Valid() && dt >= 0.0
    ensures near ==> RevealStep(s, near, dt).0.progress == Min(1.0, s.progress + 0.5 * dt)
    ensures !near && !s.discovered ==> RevealStep(s, near, dt).0.progress == Max(0.0, s.progress - 0.3 * dt)
    ensures !near && s.discovered ==> RevealStep(s, near, dt).0.progress == 1.0
  {
  }

  /**
   * The wandering part of `update`: a moving entity advances its timer, turns
   * to the drawn heading `turn` once the timer passes the turn interval
   * (resetting it), and moves by its heading.
   */
  function MoveStep(m: Motion, moving: bool, dt: real, turn: Vec): (r: Motion)
    ensures !moving ==> r == m
    ensures moving && dt >= 0.0 && m.moveTimer >= 0.0 ==> 0.0 <= r.moveTimer <= TURN_INTERVAL
    ensures moving && m.moveTimer + dt > TURN_INTERVAL ==> r.moveTimer == 0.0 && r.heading == turn
    ensures moving && m.moveTimer + dt <= TURN_INTERVAL ==> r.moveTimer == m.moveTimer + dt && r.heading == m.heading
    ensures r.heading != m.heading ==> r.moveTimer == 0.0 && r.heading == turn
    ensures moving ==> r.pos == Vec(m.pos.x + r.heading.x, m.pos.y + r.heading.y)
  {
    if !moving then m
    else
      var t := m.moveTimer + dt;
      var (t', h) := if t > TURN_INTERVAL then (0.0, turn) else (t, m.heading);
      Motion(Vec(m.pos.x + h.x, m.pos.y + h.y), t', h)
  }

  /**
   * One `update` call: the new state and its return value. On the call that
   * discovers the entity the movement step is skipped.
   */
  function EntityStep(s: EntityState, isBoss: bool, moving: bool, player: Vec, dt: real, turn: Vec): (r: (EntityState, bool))
    ensures (r.0.discovery, r.1) == RevealStep(s.discovery, Near(isBoss, s.motion.pos, player), dt)
    ensures r.1 ==> r.0.motion == s.motion
    ensures !r.1 ==> r.0.motion == MoveStep(s.motion, moving, dt, turn)
    ensures dt >= 0.0 && s.Valid() ==> r.0.Valid()
  {
    var (discovery, now) := RevealStep(s.discovery, Near(isBoss, s.motion.pos, player), dt);
    if now then (EntityState(discovery, s.motion), true)
    else (EntityState(discovery, MoveStep(s.motion, moving, dt, turn)), false)
  }

  /** What one frame tells the discovery logic: whether the player is near, and the elapsed time. */
  datatype Frame = Frame(near: bool, dt: real)

  /** The reveal state after a run of frames, and how many of them signalled a discovery. */
  function RevealRun(s: RevealState, frames: seq<Frame>): (RevealState, nat)
    decreases |frames|
  {
    if frames == [] then (s, 0)
    else
      var (s1, now) := RevealStep(s, frames[0].near, frames[0].dt);
      var (sn, count) := RevealRun(s1, frames[1..]);
      (sn, count + (if now then 1 else 0))
  }

  /**
   * Over any run of frames the discovery signal fires at most once, exactly
   * when the run takes the entity from undiscovered to discovered, and a
   * discovered entity is left fully revealed.
   */
  lemma {:induction false} SignalAtMostOnce(s: RevealState, frames: seq<Frame>)
    requires s.Valid()
    requires forall i :: 0 <= i < |frames| ==> frames[i].dt >= 0.0
    ensures var (f, count) := RevealRun(s, frames);
      f.Valid() && count <= 1 &&
      (count == 1 <==> !s.discovered && f.discovered) &&
      (s.discovered ==> f == s)
    decreases |frames|
  {
    if frames != [] {
      var (s1, now) := RevealStep(s, frames[0].near, frames[0].dt);
      SignalAtMostOnce(s1, frames[1..]);
    }
  }

  /** `n` frames of `dt` seconds each, all inside the detection radius. */
  function Lingering(n: nat, dt: real): (frames: seq<Frame>)
    ensures |frames| == n && forall i :: 0 <= i < n ==> frames[i] == Frame(true, dt)
  {
    seq(n, i => Frame(true, dt))
  }

  lemma {:induction false} LingeringProgress(s: RevealState, n: nat, dt: real)
    requires s.Valid() && dt >= 0.0
    ensures var f := RevealRun(s, Lingering(n, dt)).0;
      f.discovered || f.progress == s.progress + n as real * (dt * REVEAL_RATE)
    decreases n
  {
    if n > 0 {
      var frames := Lingering(n, dt);
      assert frames[1..] == Lingering(n - 1, dt);
      var (s1, now) := RevealStep(s, true, dt);
      LingeringProgress(s1, n - 1, dt);
      if s1.discovered {
        SignalAtMostOnce(s1, frames[1..]);
      } else {
        var r := dt * REVEAL_RATE;
        assert s1.progress == s.progress + r;
        assert r + (n - 1) as real * r == n as real * r;
      }
    }
  }

  /**
   * Staying inside the radius for `n` frames whose total time is at least two
   * seconds discovers an undiscovered entity, with exactly one signal.
   */
  lemma LingeringDiscovers(s: RevealState, n: nat, dt: real)
    requires s.Valid() && !s.discovered && dt >= 0.0
    requires n as real * dt * REVEAL_RATE >= 1.0
    ensures var (f, count) := RevealRun(s, Lingering(n, dt)); f.discovered && count == 1
  {
    LingeringProgress(s, n, dt);
    SignalAtMostOnce(s, Lingering(n, dt));
  }

  /** An entity restored from storage (discovered, fully revealed) never signals again. */
  lemma RestoredNeverSignals(frames: seq<Frame>)
    requires forall i :: 0 <= i < |frames| ==> frames[i].dt >= 0.0
    ensures var (f, count) := RevealRun(RevealState(1.0, true), frames);
      count == 0 && f == RevealState(1.0, true)
  {
    SignalAtMostOnce(RevealState(1.0, true), frames);
  }

  /** Drawing opacity: from 0.3 for a shadow up to 1 when fully revealed. */
  function ShadowOpacity(progress: real): (o: real)
    ensures 0.0 <= progress <= 1.0 ==> 0.3 <= o <= 1.0
    ensures o == 1.0 <==> progress == 1.0
  {
    0.3 + progress * 0.7
  }

  /** Blur radius: 20 for a shadow, none when fully revealed. */
  function BlurAmount(progress: real): (b: real)
    ensures 0.0 <= progress <= 1.0 ==> 0.0 <= b <= 20.0
    ensures b == 0.0 <==> progress == 1.0
  {
    20.0 * (1.0 - progress)
  }

  /** The glow is drawn only past 30% reveal. */
  predicate DrawsGlow(progress: real)
  {
    progress > 0.3
  }

  const HEX_DIGITS: string := "0123456789abcdef"

  /** `n.toString(16)` for a non-negative integer. */
  function ToHex(n: nat): (s: string)
    ensures |s| >= 1
    ensures n < 16 ==> |s| == 1
    ensures 16 <= n < 256 ==> |s| == 2
    decreases n
  {
    if n < 16 then [HEX_DIGITS[n]] else ToHex(n / 16) + [HEX_DIGITS[n % 16]]
  }

  /** `n.toString(16)` for any integer: a minus sign before the digits of `-n`. */
  function ToHexSigned(n: int): string
  {
    if n < 0 then "-" + ToHex(-n) else ToHex(n)
  }

  /** `s.padStart(2, '0')`. */
  function PadStart2(s: string): (r: string)
    ensures |r| == if |s| >= 2 then |s| else 2
    ensures |s| >= 2 ==> r == s
  {
    if |s| >= 2 then s else seq(2 - |s|, i => '0') + s
  }

  /** The value of a string of lower-case hex digits, read most significant first. */
  function HexValue(s: string): int
  {
    if s == [] then 0
    else
      var d := s[|s| - 1];
      HexValue(s[..|s| - 1]) * 16 + DigitValue(d)
  }

  function DigitValue(c: char): int
  {
    if '0' <= c <= '9' then c as int - '0' as int
    else if 'a' <= c <= 'f' then c as int - 'a' as int + 10
    else 0
  }

  /** Reading the digits back gives the number written. */
  lemma {:induction false} HexRoundTrip(n: nat)
    ensures HexValue(ToHex(n)) == n
    decreases n
  {
    if n >= 16 {
      HexRoundTrip(n / 16);
      var s := ToHex(n);
      assert s[..|s| - 1] == ToHex(n / 16);
    }
  }

  /** The glow colour's alpha suffix: `floor(100 * progress)` as hex, padded to two digits. */
  function GlowAlpha(progress: real): (a: string)
    ensures 0.0 <= progress <= 1.0 ==> |a| == 2
  {
    PadStart2(ToHexSigned((100.0 * progress).Floor))
  }

  /** For progress in [0, 1] the suffix is two hex digits that read back as `floor(100 * progress)`. */
  lemma GlowAlphaReadsBack(progress: real)
    requires 0.0 <= progress <= 1.0
    ensures |GlowAlpha(progress)| == 2
    ensures HexValue(GlowAlpha(progress)) == (100.0 * progress).Floor
  {
    var n := (100.0 * progress).Floor;
    assert 0 <= n <= 100;
    var h := ToHex(n);
    HexRoundTrip(n);
    if |h| == 1 {
      var r := GlowAlpha(progress);
      assert r == ['0'] + h;
      assert r[..1] == "0";
      assert HexValue("0") == 0;
    }
  }

  /** A fresh entity: undiscovered, unrevealed, at its spawn point, its timer at 0. */
  function InitialState(data: EntityDef, heading: Vec): (s: EntityState)
    ensures s.Valid() && !s.discovery.discovered && s.discovery.progress == 0.0
    ensures s.motion.pos == Vec(data.x, data.y)
    ensures !data.moving ==> s.motion.heading == Vec(0.0, 0.0)
  {
    EntityState(RevealState(0.0, false), Motion(Vec(data.x, data.y), 0.0, if data.moving then heading else Vec(0.0, 0.0)))
  }

  class Entity {
    const id: string
    const name: string
    const entityType: EntityType
    const region: string
    const description: string
    const size: real
    const isBoss: bool
    const moving: bool
    const glowColor: string
    const accentColor: string

    var x: real
    var y: real
    var discovered: bool
    var revealProgress: real
    /** Per-frame displacement: `cos`/`sin` of the move angle times the move speed. */
    var heading: Vec
    var moveTimer: real

    function State(): EntityState
      reads this
    {
      EntityState(RevealState(revealProgress, discovered), Motion(Vec(x, y), moveTimer, heading))
    }

    ghost predicate Valid()
      reads this
    {
      State().Valid()
    }

    /** The entity's fixed properties are those of `data`, its colours those of `regionConfig`. */
    predicate Instance(data: EntityDef, regionConfig: Region)
    {
      && id == data.id && name == data.name && entityType == data.entityType
      && region == data.region && description == data.description
      && size == data.size && isBoss == data.isBoss && moving == data.moving
      && glowColor == regionConfig.glowColor && accentColor == regionConfig.accentColor
    }

    /**
     * A fresh, undiscovered instance of `data`. The random move angle and
     * speed arrive as `heading`; a non-moving entity has speed 0.
     */
    constructor (data: EntityDef, regionConfig: Region, heading: Vec)
      ensures Valid() && Instance(data, regionConfig)
      ensures State() == InitialState(data, heading)
    {
      id := data.id;
      name := data.name;
      entityType := data.entityType;
      region := data.region;
      description := data.description;
      x := data.x;
      y := data.y;
      size := data.size;
      isBoss := data.isBoss;
      moving := data.moving;
      discovered := false;
      revealProgress := 0.0;
      this.heading := if data.moving then heading else Vec(0.0, 0.0);
      moveTimer := 0.0;
      glowColor := regionConfig.glowColor;
      accentColor := regionConfig.accentColor;
    }

    /**
     * One frame: reveal or fade by distance, then wander. `turn` is the new
     * displacement drawn when the direction-change timer runs out.
     */
    method Update(playerPos: Vec, dt: real, turn: Vec) returns (discoveredNow: bool)
      requires Valid() && dt >= 0.0
      modifies this
      ensures Valid()
      ensures (State(), discoveredNow) == EntityStep(old(State()), isBoss, moving, playerPos, dt, turn)
    {
      var distance := DistanceTo(playerPos);
      var detectionRadius := if isBoss then BOSS_DETECTION_RADIUS else DETECTION_RADIUS;

      if distance < detectionRadius * detectionRadius {
        revealProgress := Min(1.0, revealProgress + dt * REVEAL_RATE);
        if revealProgress >= 1.0 && !discovered {
          discovered := true;
          return true;
        }
      } else {
        if !discovered {
          revealProgress := Max(0.0, revealProgress - dt * FADE_RATE);
        }
      }

      if moving {
        moveTimer := moveTimer + dt;
        if moveTimer > TURN_INTERVAL {
          heading := turn;
          moveTimer := 0.0;
        }
        x := x + heading.x;
        y := y + heading.y;
      }
      return false;
    }

    /** Squared distance from the entity to `(px, py)`. */
    function DistanceTo(p: Vec): (d: real)
      reads this
      ensures d >= 0.0
      ensures p == Vec(x, y) ==> d == 0.0
      ensures d == DistanceSq(p, Vec(x, y))
    {
      DistanceSymmetric(Vec(x, y), p);
      DistanceSq(Vec(x, y), p)
    }

    function ToJournalEntry(): (e: Journals.JournalEntry)
      reads this
      ensures e.id == id && e.name == name && e.region == region
      ensures e.description == description && e.discovered == discovered
      ensures Journals.CardOf(e).locked <==> !discovered
    {
      Journals.JournalEntry(id, name, region, description, discovered)
    }
  }
}
