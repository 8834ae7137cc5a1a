/** Optional values: `None` stands for JavaScript's `null`/`undefined`. */
module Wrappers {
  datatype Option<+T> = None | Some(value: T)
}

/** Points and the arithmetic helpers the game's `Math` calls stand for. */
module Geometry {
  datatype Vec = Vec(x: real, y: real)

  /** A width and a height, as returned by `getBounds`. */
  datatype Size = Size(width: real, height: real)

  /** `Math.min`. */
  function Min(a: real, b: real): (m: real)
    ensures m <= a && m <= b && (m == a || m == b)
  {
    if a <= b then a else b
  }

  /** `Math.max`. */
  function Max(a: real, b: real): (m: real)
    ensures m >= a && m >= b && (m == a || m == b)
  {
    if a >= b then a else b
  }

  /**
   * The square of the Euclidean distance. A test `Math.sqrt(d2) < r` with
   * `r >= 0` is the test `d2 < r * r`, so the model never takes a root.
   */
  function DistanceSq(a: Vec, b: Vec): (d: real)
    ensures d >= 0.0
    ensures a == b ==> d == 0.0
  {
    (a.x - b.x) * (a.x - b.x) + (a.y - b.y) * (a.y - b.y)
  }

  /** The distance is symmetric. */
  lemma DistanceSymmetric(a: Vec, b: Vec)
    ensures DistanceSq(a, b) == DistanceSq(b, a)
  {
  }
}

/**
 * The static tables of the game: the four regions, chained by `nextRegion`,
 * and the roster of discoverable entities listed under each region's key.
 */
module Content {
  import opened Wrappers

  datatype Region = Region(
    id: string,
    name: string,
    bgColor: string,
    accentColor: string,
    glowColor: string,
    width: real,
    height: real,
    nextRegion: Option<string>)

  datatype EntityType = Creature | Artifact | Boss

  datatype EntityDef = EntityDef(
    id: string,
    name: string,
    entityType: EntityType,
    sprite: string,
    region: string,
    x: real,
    y: real,
    size: real,
    isBoss: bool,
    moving: bool,
    description: string)

  const REGIONS: map<string, Region> := map[
    "forest" := Region("forest", "The Forest", "#0a1412", "#2d5f4a", "#4ecca3", 1600.0, 1200.0, Some("ice")),
    "ice" := Region("ice", "The Frozen Wastes", "#0a0f1a", "#3d5a80", "#98c1d9", 1600.0, 1200.0, Some("ruins")),
    "ruins" := Region("ruins", "The Ancient Ruins", "#1a1410", "#6b5b3d", "#d4a574", 1600.0, 1200.0, Some("void")),
    "void" := Region("void", "The Void", "#050505", "#2a1a3d", "#9d4edd", 1600.0, 1200.0, None)
  ]

  const FOREST_ENTITIES: seq<EntityDef> := [
    EntityDef("forest_cat", "Forest Cat", Creature, "cat", "forest", 400.0, 300.0, 25.0, false, true,
      "A small feline spirit with mossy fur. It watches silently from the shadows, guiding travelers with its glowing eyes."),
    EntityDef("forest_stone", "Whispering Stone", Artifact, "stone", "forest", 800.0, 500.0, 30.0, false, false,
      "An ancient monolith covered in moss. Those who listen closely can hear faint echoes of a language long lost to time."),
    EntityDef("forest_sprite", "Wandering Spirit", Creature, "cat", "forest", 1200.0, 400.0, 20.0, false, true,
      "A playful entity that dances between the trees. It leaves trails of shimmering light that fade like forgotten memories."),
    EntityDef("forest_elder", "The Guardian Stag", Boss, "boss_stag", "forest", 1300.0, 800.0, 60.0, true, true,
      "The ancient protector of the forest realm. Its antlers reach for the stars. Discovery grants passage to colder lands.")
  ]

  const ICE_ENTITIES: seq<EntityDef> := [
    EntityDef("ice_shard", "Frozen Echo", Artifact, "crystal", "ice", 500.0, 600.0, 28.0, false, false,
      "A crystalline structure that seems to hold frozen moments in time. Approach carefully, for it reflects your own shadow back at you."),
    EntityDef("ice_fox", "Snow Fox", Creature, "fox", "ice", 900.0, 300.0, 22.0, false, true,
      "A creature of ice and starlight, endlessly walking across the frozen plains, searching for something it cannot remember."),
    EntityDef("ice_titan", "The Frost Bear", Boss, "boss_bear", "ice", 1200.0, 700.0, 70.0, true, true,
      "An immense frozen giant. Its discovery causes the very air to crystallize, opening the path to forgotten ruins.")
  ]

  const RUINS_ENTITIES: seq<EntityDef> := [
    EntityDef("ruins_golem", "Rune Golem", Creature, "golem", "ruins", 600.0, 400.0, 24.0, false, true,
      "A construct of stone and magic, tending to ruins that predate history itself. It moves with purpose, maintaining order."),
    EntityDef("ruins_tablet", "Ancient Tablet", Artifact, "tablet", "ruins", 1000.0, 500.0, 35.0, false, false,
      "A record from a civilization that vanished without trace. The runes glow with the weight of forgotten authority."),
    EntityDef("ruins_sovereign", "The Construct King", Boss, "boss_construct", "ruins", 1300.0, 600.0, 65.0, true, true,
      "The final ruler of a nameless empire. Its presence is both regal and sorrowful. Discovery grants passage into the void itself.")
  ]

  const VOID_ENTITIES: seq<EntityDef> := [
    EntityDef("void_fragment", "Void Shard", Artifact, "void_shard", "void", 700.0, 500.0, 26.0, false, true,
      "A piece of something that should not exist. It shifts between states, neither here nor there."),
    EntityDef("void_cat", "Shadow Cat", Creature, "shadow_cat", "void", 1100.0, 400.0, 30.0, false, true,
      "An entity that exists in the space between existence and non-existence. It purrs with the sound of silence."),
    EntityDef("void_eye", "The All-Seeing Eye", Boss, "boss_eye", "void", 1200.0, 700.0, 80.0, true, false,
      "The heart of all forgotten things. It watches all, sees all. You have reached the end of your journey.")
  ]

  const ENTITIES: map<string, seq<EntityDef>> := map[
    "forest" := FOREST_ENTITIES,
    "ice" := ICE_ENTITIES,
    "ruins" := RUINS_ENTITIES,
    "void" := VOID_ENTITIES
  ]

  /** The region ids in the order the chain visits them. */
  const REGION_ORDER: seq<string> := ["forest", "ice", "ruins", "void"]

  /** The entity lists of all regions, concatenated in chain order. */
  const ALL_ENTITIES: seq<EntityDef> := FOREST_ENTITIES + ICE_ENTITIES + RUINS_ENTITIES + VOID_ENTITIES

  /** Position of a region in the chain; the chain proofs use it as a rank. */
  function Rank(id: string): nat
  {
    if id == "forest" then 0 else if id == "ice" then 1 else if id == "ruins" then 2 else 3
  }

  /** `Reaches(a, b, k)`: following `nextRegion` k times from region `a` lands on `b`. */
  ghost predicate Reaches(a: string, b: string, k: nat)
    decreases k
  {
    if k == 0 then a == b
    else a in REGIONS && REGIONS[a].nextRegion.Some? && Reaches(REGIONS[a].nextRegion.value, b, k - 1)
  }

  /** How many entries of `defs` are bosses. */
  function BossCount(defs: seq<EntityDef>): (n: nat)
    ensures n <= |defs|
  {
    if defs == [] then 0 else (if defs[0].isBoss then 1 else 0) + BossCount(defs[1..])
  }

  /** The chain is forest, ice, ruins, void and then ends; every link names a region. */
  lemma RegionChain()
    ensures REGIONS.Keys == {"forest", "ice", "ruins", "void"}
    ensures REGIONS["forest"].nextRegion == Some("ice")
    ensures REGIONS["ice"].nextRegion == Some("ruins")
    ensures REGIONS["ruins"].nextRegion == Some("void")
    ensures REGIONS["void"].nextRegion == None
    ensures forall k :: k in REGIONS && REGIONS[k].nextRegion.Some? ==> REGIONS[k].nextRegion.value in REGIONS
  {
  }

  /** Every link of the chain moves one step down `REGION_ORDER`. */
  lemma NextRaisesRank(id: string)
    requires id in REGIONS && REGIONS[id].nextRegion.Some?
    ensures REGIONS[id].nextRegion.value in REGIONS
    ensures Rank(REGIONS[id].nextRegion.value) == Rank(id) + 1
  {
  }

  lemma {:induction false} ReachesRank(a: string, b: string, k: nat)
    requires a in REGIONS && Reaches(a, b, k)
    ensures b in REGIONS && Rank(b) == Rank(a) + k
    decreases k
  {
    if k > 0 {
      NextRaisesRank(a);
      ReachesRank(REGIONS[a].nextRegion.value, b, k - 1);
    }
  }

  /** Starting in the forest, the chain visits the regions of `REGION_ORDER` in turn and stops after the void. */
  lemma {:induction false} ChainFromForest()
    ensures forall k :: 0 <= k < |REGION_ORDER| ==> Reaches("forest", REGION_ORDER[k], k)
    ensures REGIONS[REGION_ORDER[|REGION_ORDER| - 1]].nextRegion == None
  {
    assert Reaches("void", "void", 0);
    assert Reaches("ruins", "void", 1);
    assert Reaches("ice", "void", 2);
    assert Reaches("ruins", "ruins", 0);
    assert Reaches("ice", "ruins", 1);
    assert Reaches("ice", "ice", 0);
  }

  /** The chain has no cycle: no region leads back to itself in one or more steps. */
  lemma {:induction false} ChainAcyclic(a: string, k: nat)
    requires a in REGIONS && Reaches(a, a, k)
    ensures k == 0
  {
    ReachesRank(a, a, k);
  }

  /** The chain from any region ends within four steps. */
  lemma {:induction false} ChainEnds(a: string, b: string, k: nat)
    requires a in REGIONS && Reaches(a, b, k)
    ensures k <= 3
  {
    ReachesRank(a, b, k);
  }

  /** Each region's `id` is the key it is stored under. */
  lemma RegionIdsMatchKeys()
    ensures forall k :: k in REGIONS ==> REGIONS[k].id == k
  {
  }

  /** `ENTITIES` has a list for exactly the regions of `REGIONS`. */
  lemma EntityTableCoversRegions()
    ensures ENTITIES.Keys == REGIONS.Keys
  {
  }

  /** Every entity is listed under the key of its own `region`. */
  lemma EntityRegionsMatchKeys()
    ensures forall k, i :: k in ENTITIES && 0 <= i < |ENTITIES[k]| ==> ENTITIES[k][i].region == k
  {
    assert forall i :: 0 <= i < |FOREST_ENTITIES| ==> FOREST_ENTITIES[i].region == "forest";
    assert forall i :: 0 <= i < |ICE_ENTITIES| ==> ICE_ENTITIES[i].region == "ice";
    assert forall i :: 0 <= i < |RUINS_ENTITIES| ==> RUINS_ENTITIES[i].region == "ruins";
    assert forall i :: 0 <= i < |VOID_ENTITIES| ==> VOID_ENTITIES[i].region == "void";
  }

  /** `defs` holds exactly one boss, and `isBoss` agrees with the type throughout. */
  ghost predicate OneBoss(defs: seq<EntityDef>)
  {
    BossCount(defs) == 1 && forall i :: 0 <= i < |defs| ==> (defs[i].isBoss <==> defs[i].entityType == Boss)
  }

  lemma ForestHasOneBoss() ensures OneBoss(FOREST_ENTITIES) { assert BossCount(FOREST_ENTITIES[3..]) == 1; }
  lemma IceHasOneBoss() ensures OneBoss(ICE_ENTITIES) { assert BossCount(ICE_ENTITIES[2..]) == 1; }
  lemma RuinsHaveOneBoss() ensures OneBoss(RUINS_ENTITIES) { assert BossCount(RUINS_ENTITIES[2..]) == 1; }
  lemma VoidHasOneBoss() ensures OneBoss(VOID_ENTITIES) { assert BossCount(VOID_ENTITIES[2..]) == 1; }

  /** Each region's list holds exactly one boss, and `isBoss` agrees with the type. */
  lemma OneBossPerRegion()
    ensures forall k :: k in ENTITIES ==> BossCount(ENTITIES[k]) == 1
    ensures forall k, i :: k in ENTITIES && 0 <= i < |ENTITIES[k]| ==>
      (ENTITIES[k][i].isBoss <==> ENTITIES[k][i].entityType == Boss)
  {
    ForestHasOneBoss();
    IceHasOneBoss();
    RuinsHaveOneBoss();
    VoidHasOneBoss();
    assert forall k :: k in ENTITIES ==> OneBoss(ENTITIES[k]);
  }

  /** No two entities, in the same region or in different ones, share an id. */
  lemma EntityIdsUnique()
    ensures forall i, j :: 0 <= i < j < |ALL_ENTITIES| ==> ALL_ENTITIES[i].id != ALL_ENTITIES[j].id
    ensures forall k, i, j :: k in ENTITIES && 0 <= i < j < |ENTITIES[k]| ==> ENTITIES[k][i].id != ENTITIES[k][j].id
  {
  }

  /** Every spawn position lies inside its region's width by height. */
  lemma SpawnsInsideRegion()
    ensures forall k, i :: k in ENTITIES && 0 <= i < |ENTITIES[k]| ==>
      k in REGIONS &&
      0.0 <= ENTITIES[k][i].x <= REGIONS[k].width &&
      0.0 <= ENTITIES[k][i].y <= REGIONS[k].height
  {
  }
}
