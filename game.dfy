/**
 * The orchestrator: it owns the input, the world, the journal, the player
 * and the live entities, loads a region's entities, restores saved
 * progress, runs one frame with the journal as a pause gate, and sequences
 * the boss discovery into the next region.
 */
module Games {
  import opened Wrappers
  import opened Geometry
  import opened Content
  import Journals
  import Entities
  import Worlds
  import Players
  import Inputs

  /**
   * The random values one call consumes: `heading(i)` is the displacement
   * drawn for the `i`-th loaded entity, `turn(i)` the one the `i`-th entity
   * draws if it changes direction, `terrain` the `Math.random()` sequence of
   * terrain generation.
   */
  datatype Draws = Draws(heading: nat -> Vec, turn: nat -> Vec, terrain: nat -> real)
  {
    ghost predicate Valid()
    {
      Worlds.RandomSource(terrain)
    }
  }

  /**
   * What the game relies on about its entity table: every listed region
   * exists, every definition is listed under its own region, and no two
   * definitions of a region share an id.
   */
  ghost predicate TableValid(table: map<string, seq<EntityDef>>)
  {
    forall r :: r in table ==>
      r in REGIONS &&
      (forall i :: 0 <= i < |table[r]| ==> table[r][i].region == r) &&
      Journals.NoDuplicates(DefIds(table[r]))
  }

  /** The content's `ENTITIES` is such a table. */
  lemma EntitiesTableValid()
    ensures TableValid(ENTITIES)
  {
    EntityTableCoversRegions();
    EntityRegionsMatchKeys();
    EntityIdsUnique();
    forall r | r in ENTITIES
      ensures Journals.NoDuplicates(DefIds(ENTITIES[r]))
    {
      Journals.PairwiseNoDuplicates(DefIds(ENTITIES[r]));
    }
  }

  /** `ENTITIES[regionId] || []`, on the table `table`. */
  function RegionDefs(table: map<string, seq<EntityDef>>, regionId: string): (defs: seq<EntityDef>)
    ensures regionId in table ==> defs == table[regionId]
    ensures regionId !in table ==> defs == []
    ensures TableValid(table) ==>
      && (defs != [] ==> regionId in REGIONS)
      && (forall i :: 0 <= i < |defs| ==> defs[i].region == regionId)
      && Journals.NoDuplicates(DefIds(defs))
  {
    if regionId in table then table[regionId] else []
  }

  /** The ids of `defs`, in order. */
  function DefIds(defs: seq<EntityDef>): (ids: seq<string>)
    ensures |ids| == |defs| && forall i :: 0 <= i < |defs| ==> ids[i] == defs[i].id
  {
    seq(|defs|, i requires 0 <= i < |defs| => defs[i].id)
  }

  /** The journal entry of a fresh instance of `d`. */
  function EntryOf(d: EntityDef): Journals.JournalEntry
  {
    Journals.JournalEntry(d.id, d.name, d.region, d.description, false)
  }

  function EntriesOf(defs: seq<EntityDef>): (es: seq<Journals.JournalEntry>)
    ensures |es| == |defs| && forall i :: 0 <= i < |defs| ==> es[i] == EntryOf(defs[i])
  {
    seq(|defs|, i requires 0 <= i < |defs| => EntryOf(defs[i]))
  }

  lemma EntriesOfSnoc(defs: seq<EntityDef>, i: int)
    requires 0 <= i < |defs|
    ensures EntriesOf(defs[..i + 1]) == EntriesOf(defs[..i]) + [EntryOf(defs[i])]
  {
  }

  /** The entity state `loadSavedProgress` leaves: fully revealed when its id was persisted. */
  function Restored(s: Entities.EntityState, persisted: bool): Entities.EntityState
  {
    if persisted then s.(discovery := Entities.RevealState(1.0, true)) else s
  }

  /** `triggerRegionTransition` on the transition state: start toward the current region's successor, if any. */
  function Triggered(t: Worlds.Transition): (r: Worlds.Transition)
    ensures t.current.nextRegion.None? ==> r == t
    ensures t.current.nextRegion.Some? ==> r == Worlds.Start(t, t.current.nextRegion.value)
  {
    match t.current.nextRegion
    case None => t
    case Some(next) => Worlds.Start(t, next)
  }

  /**
   * Triggering from the void changes nothing; from any other region it
   * starts a transition, from progress 0, toward the next region of the chain.
   */
  lemma TriggerFollowsChain(t: Worlds.Transition)
    requires t.Valid()
    ensures t.current.id == "void" ==> Triggered(t) == t
    ensures t.current.id != "void" ==>
      && Triggered(t).transitioning && Triggered(t).progress == 0.0
      && Triggered(t).next == Some(REGIONS[REGIONS[t.current.id].nextRegion.value])
      && Rank(Triggered(t).next.value.id) == Rank(t.current.id) + 1
  {
    RegionChain();
    if t.current.id != "void" {
      NextRaisesRank(t.current.id);
    }
  }

  /** `gameLoop`'s time step: 0 on the first frame, else the elapsed milliseconds in seconds. */
  function DeltaTime(lastTime: real, currentTime: real): (dt: real)
    ensures lastTime == 0.0 ==> dt == 0.0
    ensures lastTime != 0.0 ==> dt * 1000.0 == currentTime - lastTime
    ensures currentTime >= lastTime ==> dt >= 0.0
  {
    if lastTime != 0.0 then (currentTime - lastTime) / 1000.0 else 0.0
  }

  /** The state of each entity of `es`, in order. */
  ghost function StatesOf(es: seq<Entities.Entity>): (r: seq<Entities.EntityState>)
    reads es
    ensures |r| == |es| && forall i :: 0 <= i < |es| ==> r[i] == es[i].State()
  {
    seq(|es|, i requires 0 <= i < |es| reads es => es[i].State())
  }

  /** The id of each entity of `es`, in order. */
  function IdsOf(es: seq<Entities.Entity>): (ids: seq<string>)
    ensures |ids| == |es| && forall i :: 0 <= i < |es| ==> ids[i] == es[i].id
  {
    seq(|es|, i requires 0 <= i < |es| => es[i].id)
  }

  /** Two positions of a list of entities without duplicate ids hold entities with different ids. */
  lemma DistinctIdsAt(es: seq<Entities.Entity>, i: int, j: int)
    requires Journals.NoDuplicates(IdsOf(es)) && 0 <= i < |es| && 0 <= j < |es| && i != j
    ensures es[i].id != es[j].id
  {
    if i < j {
      Journals.NoDuplicatesAt(IdsOf(es), i, j);
    } else {
      Journals.NoDuplicatesAt(IdsOf(es), j, i);
    }
  }

  predicate AllValid(states: seq<Entities.EntityState>)
  {
    forall i :: 0 <= i < |states| ==> states[i].Valid()
  }

  /** The journal entry of entity `e` when its discovered flag is `discovered`: what `toJournalEntry` returns. */
  function EntryFor(e: Entities.Entity, discovered: bool): Journals.JournalEntry
  {
    Journals.JournalEntry(e.id, e.name, e.region, e.description, discovered)
  }

  /** Each entity of `es` has a journal entry, and it is the entity's own entry with its discovered flag from `states`. */
  predicate Agree(m: Journals.EntryMap, es: seq<Entities.Entity>, states: seq<Entities.EntityState>)
  {
    |es| == |states| &&
    forall i :: 0 <= i < |es| ==> es[i].id in m.values && m.values[es[i].id] == EntryFor(es[i], states[i].discovery.discovered)
  }

  /** The fresh states of the instances of `defs`. */
  function InitialStates(defs: seq<EntityDef>, draws: Draws): (r: seq<Entities.EntityState>)
    ensures |r| == |defs|
    ensures forall i :: 0 <= i < |defs| ==> r[i] == Entities.InitialState(defs[i], draws.heading(i))
    ensures AllValid(r)
  {
    seq(|defs|, i requires 0 <= i < |defs| => Entities.InitialState(defs[i], draws.heading(i)))
  }

  /** The states after `loadSavedProgress` restored every entity whose id is in `persisted`. */
  function RestoredAll(ids: seq<string>, states: seq<Entities.EntityState>, persisted: seq<string>): (r: seq<Entities.EntityState>)
    requires |ids| == |states|
    ensures |r| == |states|
    ensures forall i :: 0 <= i < |r| ==> r[i] == Restored(states[i], ids[i] in persisted)
  {
    seq(|states|, i requires 0 <= i < |states| => Restored(states[i], ids[i] in persisted))
  }

  lemma RestoredAllSnoc(ids: seq<string>, states: seq<Entities.EntityState>, persisted: seq<string>, id: string)
    requires |ids| == |states|
    ensures RestoredAll(ids, RestoredAll(ids, states, persisted), [id]) == RestoredAll(ids, states, persisted + [id])
  {
    assert forall x :: x in persisted + [id] <==> x in persisted || x == id;
  }

  /**
   * Restoring keeps every state valid, and a journal that agreed with the
   * entities before reconciling agrees with them after.
   */
  lemma ReconcileKeepsAgreement(m: Journals.EntryMap, es: seq<Entities.Entity>, states: seq<Entities.EntityState>, persisted: seq<string>)
    requires Agree(m, es, states) && AllValid(states)
    ensures AllValid(RestoredAll(IdsOf(es), states, persisted))
    ensures Agree(m.MarkedAll(persisted), es, RestoredAll(IdsOf(es), states, persisted))
  {
  }

  /**
   * Registering fresh instances `es` of `defs` in `m`: each instance's entry
   * is its own, undiscovered; every other entry is untouched; and when none
   * of the ids was in the map, they are appended to its key order.
   */
  lemma Registered(m: Journals.EntryMap, defs: seq<EntityDef>, es: seq<Entities.Entity>, regionConfig: Region, draws: Draws)
    requires Journals.NoDuplicates(DefIds(defs))
    requires |es| == |defs| && forall i :: 0 <= i < |defs| ==> es[i].Instance(defs[i], regionConfig)
    ensures Journals.NoDuplicates(IdsOf(es)) && forall i :: 0 <= i < |es| ==> es[i].region == defs[i].region
    ensures var m' := m.SetAll(EntriesOf(defs));
      && Agree(m', es, InitialStates(defs, draws))
      && (forall k :: k in m.values && k !in IdsOf(es) ==> k in m'.values && m'.values[k] == m.values[k])
      && ((forall i :: 0 <= i < |es| ==> es[i].id !in m.values) ==> m'.keys == m.keys + IdsOf(es))
  {
    var entries := EntriesOf(defs);
    var m' := m.SetAll(entries);
    assert IdsOf(es) == DefIds(defs) == Journals.EntryIds(entries);
    forall k | 0 <= k < |defs|
      ensures es[k].id in m'.values && m'.values[es[k].id] == EntryFor(es[k], false)
    {
      forall j | k < j < |entries|
        ensures entries[j].id != entries[k].id
      {
        Journals.NoDuplicatesAt(DefIds(defs), k, j);
      }
      Journals.SetAllLastWins(m, entries, k);
    }
    forall k | k in m.values && k !in IdsOf(es)
      ensures k in m'.values && m'.values[k] == m.values[k]
    {
      assert forall i :: 0 <= i < |defs| ==> entries[i].id == IdsOf(es)[i];
      Journals.SetAllKeeps(m, entries, k);
    }
    if forall i :: 0 <= i < |es| ==> es[i].id !in m.values {
      Journals.SetAllAppends(m, entries);
    }
  }

  /** The headings drawn for the first `n` loaded entities. */
  function Headings(draws: Draws, n: nat): (hs: seq<Vec>)
    ensures |hs| == n && forall j :: 0 <= j < n ==> hs[j] == draws.heading(j)
  {
    seq(n, j requires 0 <= j < n => draws.heading(j))
  }

  lemma RegisteringSnoc(m: Journals.EntryMap, defs: seq<EntityDef>, i: int)
    requires 0 <= i < |defs|
    ensures m.SetAll(EntriesOf(defs[..i + 1])) == m.SetAll(EntriesOf(defs[..i])).Set(EntryOf(defs[i]))
  {
    EntriesOfSnoc(defs, i);
    var es := EntriesOf(defs[..i + 1]);
    assert es[..|es| - 1] == EntriesOf(defs[..i]);
  }

  /** Each entity of `es` is an instance of the definition at the same position of `defs`, stated from the last one back. */
  ghost predicate Instances(es: seq<Entities.Entity>, defs: seq<EntityDef>, regionConfig: Region)
    decreases |es|
  {
    && |es| == |defs|
    && (es != [] ==>
      && Instances(es[..|es| - 1], defs[..|defs| - 1], regionConfig)
      && es[|es| - 1].Instance(defs[|defs| - 1], regionConfig))
  }

  lemma InstancesSnoc(es: seq<Entities.Entity>, defs: seq<EntityDef>, regionConfig: Region, i: int, e: Entities.Entity)
    requires 0 <= i < |defs| && Instances(es, defs[..i], regionConfig) && e.Instance(defs[i], regionConfig)
    ensures Instances(es + [e], defs[..i + 1], regionConfig)
  {
    assert (es + [e])[..|es|] == es && defs[..i + 1][..i] == defs[..i];
  }

  lemma {:induction false} InstancesAll(es: seq<Entities.Entity>, defs: seq<EntityDef>, regionConfig: Region)
    requires Instances(es, defs, regionConfig)
    ensures forall j :: 0 <= j < |es| ==> es[j].Instance(defs[j], regionConfig)
    decreases |es|
  {
    if es != [] {
      InstancesAll(es[..|es| - 1], defs[..|defs| - 1], regionConfig);
    }
  }

  /** Each entity of `es` is in the fresh state of the definition and heading at the same position, stated from the last one back. */
  ghost predicate Initialised(es: seq<Entities.Entity>, defs: seq<EntityDef>, headings: seq<Vec>)
    reads es
    decreases |es|
  {
    && |es| == |defs| == |headings|
    && (es != [] ==>
      && Initialised(es[..|es| - 1], defs[..|defs| - 1], headings[..|headings| - 1])
      && es[|es| - 1].State() == Entities.InitialState(defs[|defs| - 1], headings[|headings| - 1]))
  }

  lemma InitialisedSnoc(es: seq<Entities.Entity>, defs: seq<EntityDef>, headings: seq<Vec>, i: int, e: Entities.Entity)
    requires 0 <= i < |defs| == |headings| && Initialised(es, defs[..i], headings[..i])
    requires e.State() == Entities.InitialState(defs[i], headings[i])
    ensures Initialised(es + [e], defs[..i + 1], headings[..i + 1])
  {
    assert (es + [e])[..|es|] == es && defs[..i + 1][..i] == defs[..i] && headings[..i + 1][..i] == headings[..i];
  }

  lemma {:induction false} InitialisedAll(es: seq<Entities.Entity>, defs: seq<EntityDef>, headings: seq<Vec>)
    requires Initialised(es, defs, headings)
    ensures forall j :: 0 <= j < |es| ==> es[j].State() == Entities.InitialState(defs[j], headings[j])
    decreases |es|
  {
    if es != [] {
      InitialisedAll(es[..|es| - 1], defs[..|defs| - 1], headings[..|headings| - 1]);
    }
  }

  /** Fresh instances drawn with `draws`' headings are in the states `InitialStates` gives. */
  lemma InitialisedStates(es: seq<Entities.Entity>, defs: seq<EntityDef>, draws: Draws)
    requires Initialised(es, defs, Headings(draws, |defs|))
    ensures StatesOf(es) == InitialStates(defs, draws)
  {
    InitialisedAll(es, defs, Headings(draws, |defs|));
  }

  /** One frame of the entity's `update` against the player position. */
  function StepOf(e: Entities.Entity, s: Entities.EntityState, player: Vec, dt: real, turn: Vec): (Entities.EntityState, bool)
  {
    Entities.EntityStep(s, e.isBoss, e.moving, player, dt, turn)
  }

  /** The states after every entity of `es` ran one frame; the `i`-th draws `turns[i]`. */
  function StepAll(es: seq<Entities.Entity>, states: seq<Entities.EntityState>, player: Vec, dt: real, turns: seq<Vec>): (r: seq<Entities.EntityState>)
    requires |es| == |states| == |turns|
    ensures |r| == |states|
    ensures forall i :: 0 <= i < |r| ==> r[i] == StepOf(es[i], states[i], player, dt, turns[i]).0
  {
    seq(|states|, i requires 0 <= i < |states| => StepOf(es[i], states[i], player, dt, turns[i]).0)
  }

  /** The states once the first `k` entities of `es` ran their frame and the rest have not yet. */
  function Stepped(es: seq<Entities.Entity>, states: seq<Entities.EntityState>, k: nat, player: Vec, dt: real, turns: seq<Vec>): seq<Entities.EntityState>
    requires |es| == |states| == |turns| && k <= |es|
  {
    seq(|states|, i requires 0 <= i < |states| => if i < k then StepOf(es[i], states[i], player, dt, turns[i]).0 else states[i])
  }

  /** Once every entity ran its frame, the loop's states are those of `StepAll`. */
  lemma SteppedAll(es: seq<Entities.Entity>, states: seq<Entities.EntityState>, player: Vec, dt: real, turns: seq<Vec>)
    requires |es| == |states| == |turns|
    ensures Stepped(es, states, |es|, player, dt, turns) == StepAll(es, states, player, dt, turns)
  {
  }

  /** The ids of the first `n` entities whose frame signalled a discovery, in order. */
  function Signalled(es: seq<Entities.Entity>, states: seq<Entities.EntityState>, n: nat, player: Vec, dt: real, turns: seq<Vec>): seq<string>
    requires |es| == |states| == |turns| && n <= |es|
  {
    if n == 0 then []
    else
      var rest := Signalled(es, states, n - 1, player, dt, turns);
      if StepOf(es[n - 1], states[n - 1], player, dt, turns[n - 1]).1 then rest + [es[n - 1].id] else rest
  }

  /** How many of the first `n` entities are bosses whose frame signalled a discovery. */
  function BossSignals(es: seq<Entities.Entity>, states: seq<Entities.EntityState>, n: nat, player: Vec, dt: real, turns: seq<Vec>): nat
    requires |es| == |states| == |turns| && n <= |es|
  {
    if n == 0 then 0
    else
      var rest := BossSignals(es, states, n - 1, player, dt, turns);
      if es[n - 1].isBoss && StepOf(es[n - 1], states[n - 1], player, dt, turns[n - 1]).1 then rest + 1 else rest
  }

  lemma {:induction false} SignalledMembers(es: seq<Entities.Entity>, states: seq<Entities.EntityState>, n: nat, player: Vec, dt: real, turns: seq<Vec>, x: string)
    requires |es| == |states| == |turns| && n <= |es|
    ensures x in Signalled(es, states, n, player, dt, turns) <==>
      exists i :: 0 <= i < n && es[i].id == x && StepOf(es[i], states[i], player, dt, turns[i]).1
  {
    if n > 0 {
      SignalledMembers(es, states, n - 1, player, dt, turns, x);
    }
  }

  /**
   * One frame of the entity loop keeps every state valid and keeps the journal
   * in agreement: the journal marks exactly the entities that signalled, and
   * once one has, the store holds the discovered ids.
   */
  lemma StepKeepsAgreement(m: Journals.EntryMap, es: seq<Entities.Entity>, states: seq<Entities.EntityState>,
                           store: Option<seq<string>>, player: Vec, dt: real, turns: seq<Vec>)
    requires Agree(m, es, states) && AllValid(states) && Journals.NoDuplicates(IdsOf(es)) && |turns| == |es| && dt >= 0.0
    ensures AllValid(StepAll(es, states, player, dt, turns))
    ensures var signalled := Signalled(es, states, |es|, player, dt, turns);
      && Agree(m.MarkedAll(signalled), es, StepAll(es, states, player, dt, turns))
      && (signalled != [] ==> Journals.MarkedStore(m, signalled, store) == Some(m.MarkedAll(signalled).DiscoveredIds()))
      && (signalled == [] ==> Journals.MarkedStore(m, signalled, store) == store)
  {
    var signalled := Signalled(es, states, |es|, player, dt, turns);
    var next := StepAll(es, states, player, dt, turns);
    forall i | 0 <= i < |es|
      ensures next[i].Valid()
      ensures es[i].id in m.MarkedAll(signalled).values
      ensures m.MarkedAll(signalled).values[es[i].id] == EntryFor(es[i], next[i].discovery.discovered)
    {
      SignalledMembers(es, states, |es|, player, dt, turns, es[i].id);
      forall k | 0 <= k < |es| && k != i
        ensures es[k].id != es[i].id
      {
        DistinctIdsAt(es, k, i);
      }
    }
    if signalled != [] {
      var x := signalled[0];
      SignalledMembers(es, states, |es|, player, dt, turns, x);
      var i :| 0 <= i < |es| && es[i].id == x && StepOf(es[i], states[i], player, dt, turns[i]).1;
      assert IdsOf(es)[i] == x;
    }
  }

  /** `StepKeepsAgreement` for the states and journal map the entity loop ends with. */
  lemma LoopKeepsAgreement(m: Journals.EntryMap, es: seq<Entities.Entity>, states: seq<Entities.EntityState>,
                           player: Vec, dt: real, turns: seq<Vec>, next: seq<Entities.EntityState>, marked: Journals.EntryMap)
    requires Agree(m, es, states) && AllValid(states) && Journals.NoDuplicates(IdsOf(es)) && |turns| == |es| && dt >= 0.0
    requires next == Stepped(es, states, |es|, player, dt, turns)
    requires marked == m.MarkedAll(Signalled(es, states, |es|, player, dt, turns))
    ensures next == StepAll(es, states, player, dt, turns) && AllValid(next) && Agree(marked, es, next)
  {
    SteppedAll(es, states, player, dt, turns);
    StepKeepsAgreement(m, es, states, None, player, dt, turns);
  }

  /** The transition state after `update`'s journal gate: triggered once when a pending boss transition meets a closed journal. */
  function Gated(t: Worlds.Transition, pending: bool, isOpen: bool): Worlds.Transition
  {
    if pending && !isOpen then Triggered(t) else t
  }

  /** The turn displacements drawn for the first `n` entities in one frame. */
  function Turns(draws: Draws, n: nat): (ts: seq<Vec>)
    ensures |ts| == n && forall j :: 0 <= j < n ==> ts[j] == draws.turn(j)
  {
    seq(n, j requires 0 <= j < n => draws.turn(j))
  }

  /**
   * Closing the journal on a pending boss transition outside the void sends
   * the world, after enough frames, into the next region of the chain, and
   * the arrival is reported exactly once.
   */
  lemma BossTransitionArrives(t: Worlds.Transition, n: nat, dt: real)
    requires t.Valid() && t.current.id != "void" && dt >= 0.0
    requires n as real * dt * Worlds.TRANSITION_RATE >= 1.0
    ensures var (f, count) := Worlds.AdvanceRun(Gated(t, true, false), Worlds.Frames(n, dt));
      && count == 1 && !f.transitioning
      && f.current == REGIONS[REGIONS[t.current.id].nextRegion.value]
      && Rank(f.current.id) == Rank(t.current.id) + 1
  {
    TriggerFollowsChain(t);
    Worlds.TransitionCompletes(Gated(t, true, false), n, dt);
  }

  /** Appending a fresh entity to fresh entities keeps them fresh. */
  twostate lemma FreshSnoc(new es: seq<Entities.Entity>, new e: Entities.Entity)
    requires fresh(es) && fresh(e)
    ensures fresh(es + [e])
  {
  }

  class Game {
    const input: Inputs.InputHandler
    const world: Worlds.World
    const journal: Journals.Journal
    const player: Players.Player
    /** The entity table the game loads regions from; the game is built with `ENTITIES` (`EntitiesTableValid`). */
    const entityTable: map<string, seq<EntityDef>>
    var entities: seq<Entities.Entity>
    var pendingBossTransition: bool
    /** Boss reveals scheduled with `setTimeout` that have not fired yet. */
    var scheduledReveals: nat
    var lastTime: real

    ghost predicate ComponentsValid()
      reads input, world, journal`entries
    {
      input.Valid() && world.Valid() && journal.Valid()
    }

    /** Entity ids are distinct and every entity state is valid. */
    ghost predicate EntitiesValid()
      reads this`entities, entities
    {
      Journals.NoDuplicates(IdsOf(entities)) && AllValid(StatesOf(entities))
    }

    /** The journal holds every live entity's `toJournalEntry()`. */
    ghost predicate JournalAgrees()
      reads this`entities, journal`entries, entities
    {
      Agree(journal.entries, entities, StatesOf(entities))
    }

    /** The live entities belong to the current region. */
    ghost predicate InCurrentRegion()
      reads this`entities, world`currentRegion
    {
      forall i :: 0 <= i < |entities| ==> entities[i].region == world.currentRegion.id
    }

    ghost predicate Valid()
      reads this`entities, input, world, journal`entries, entities
    {
      ComponentsValid() && TableValid(entityTable) && EntitiesValid() && JournalAgrees() && InCurrentRegion()
    }

    /**
     * What loading region `regionId` leaves behind, from the journal's map
     * `m0` and store `s0` before it: the live entities are instances of the
     * region's definitions, in order, restored from the persisted ids; the
     * journal holds their entries, reconciled with the store.
     */
    ghost predicate Loaded(regionId: string, draws: Draws, m0: Journals.EntryMap, s0: Option<seq<string>>)
      reads this`entities, journal`entries, journal`store, entities
    {
      && journal.Valid() && EntitiesValid() && JournalAgrees()
      && |entities| == |RegionDefs(entityTable, regionId)|
      && (forall j :: 0 <= j < |entities| ==>
            regionId in REGIONS && entities[j].Instance(RegionDefs(entityTable, regionId)[j], REGIONS[regionId]))
      && (forall j :: 0 <= j < |entities| ==> entities[j].region == regionId)
      && StatesOf(entities) == RestoredAll(IdsOf(entities), InitialStates(RegionDefs(entityTable, regionId), draws), Journals.LoadProgress(s0))
      && (journal.entries, journal.store) == Journals.Reconciled(m0.SetAll(EntriesOf(RegionDefs(entityTable, regionId))), s0)
    }

    /**
     * The game starts in the forest: the player at the region's centre, the
     * forest's entities registered, the persisted progress `stored` reconciled
     * into the journal and the entities, the clock at 0. `draws` supplies the
     * terrain and the entities' random headings.
     */
    constructor (table: map<string, seq<EntityDef>>, stored: Option<seq<string>>, root2: real, draws: Draws)
      requires TableValid(table) && root2 > 0.0 && root2 * root2 == 2.0 && draws.Valid()
      ensures Valid()
      ensures entityTable == table
      ensures world.State() == Worlds.Transition(REGIONS["forest"], None, false, 0.0)
      ensures player.x == 800.0 && player.y == 600.0
      ensures !journal.isOpen && !pendingBossTransition && scheduledReveals == 0 && lastTime == 0.0
      ensures Loaded("forest", draws, Journals.EMPTY, stored)
    {
      input := new Inputs.InputHandler(root2);
      world := new Worlds.World(draws.terrain);
      journal := new Journals.Journal(stored);
      player := new Players.Player(REGIONS["forest"].width / 2.0, REGIONS["forest"].height / 2.0);
      entityTable := table;
      entities := [];
      pendingBossTransition := false;
      scheduledReveals := 0;
      lastTime := 0.0;
      new;
      assert journal.entries == Journals.EMPTY;
      assert world.currentRegion.id == "forest" && player.x == 800.0 && player.y == 600.0;
      LoadRegion("forest", draws);
    }

    /**
     * The two calls the constructor and `onRegionChanged` both make:
     * `loadRegionEntities(regionId)`, then `loadSavedProgress()`. The journal
     * ends up with the region's entries registered and then reconciled with
     * the store, and the entities restored from the persisted ids.
     */
    method LoadRegion(regionId: string, draws: Draws)
      requires journal.Valid() && TableValid(entityTable)
      modifies this`entities, journal`entries, journal`store
      ensures Loaded(regionId, draws, old(journal.entries), old(journal.store))
      ensures journal.isOpen == old(journal.isOpen) && unchanged(world, input, player)
      ensures pendingBossTransition == old(pendingBossTransition) && scheduledReveals == old(scheduledReveals) && lastTime == old(lastTime)
      ensures (forall j :: 0 <= j < |entities| ==> entities[j].id !in old(journal.entries.values)) ==>
        journal.entries.keys == old(journal.entries.keys) + IdsOf(entities)
    {
      ghost var m0 := journal.entries;
      LoadRegionEntities(regionId, draws);
      if entities != [] {
        Registered(m0, RegionDefs(entityTable, regionId), entities, REGIONS[regionId], draws);
      }
      LoadSavedProgress();
    }

    /** The callback of `loadRegionEntities`'s `map`: a fresh entity for `data`, its entry added to the journal. */
    method Spawn(data: EntityDef, regionConfig: Region, heading: Vec) returns (entity: Entities.Entity)
      requires journal.Valid()
      modifies journal`entries
      ensures journal.Valid()
      ensures journal.entries == old(journal.entries).Set(EntryOf(data))
      ensures fresh(entity) && entity.Instance(data, regionConfig)
      ensures entity.State() == Entities.InitialState(data, heading)
    {
      entity := new Entities.Entity(data, regionConfig, heading);
      journal.AddEntry(entity.ToJournalEntry());
    }

    /** One step of `SpawnAll`'s loop: the callback applied to the next definition, the loop's facts carried over. */
    method SpawnNext(defs: seq<EntityDef>, regionConfig: Region, headings: seq<Vec>, loaded: seq<Entities.Entity>, ghost m0: Journals.EntryMap)
      returns (entity: Entities.Entity)
      requires |loaded| < |defs| == |headings| && m0.Valid()
      requires journal.entries == m0.SetAll(EntriesOf(defs[..|loaded|]))
      requires Instances(loaded, defs[..|loaded|], regionConfig) && Initialised(loaded, defs[..|loaded|], headings[..|loaded|])
      modifies journal`entries
      ensures journal.entries == m0.SetAll(EntriesOf(defs[..|loaded| + 1]))
      ensures fresh(entity)
      ensures Instances(loaded + [entity], defs[..|loaded| + 1], regionConfig)
      ensures Initialised(loaded + [entity], defs[..|loaded| + 1], headings[..|loaded| + 1])
    {
      var i := |loaded|;
      entity := Spawn(defs[i], regionConfig, headings[i]);
      RegisteringSnoc(m0, defs, i);
      InstancesSnoc(loaded, defs, regionConfig, i, entity);
      InitialisedSnoc(loaded, defs, headings, i, entity);
    }

    /**
     * The `map` of `loadRegionEntities`: one fresh entity per definition, in
     * order, each added to the journal in turn.
     */
    method SpawnAll(defs: seq<EntityDef>, regionConfig: Region, draws: Draws) returns (loaded: seq<Entities.Entity>)
      requires journal.Valid()
      modifies journal`entries
      ensures journal.Valid()
      ensures journal.entries == old(journal.entries).SetAll(EntriesOf(defs))
      ensures |loaded| == |defs|
      ensures fresh(loaded) && forall j :: 0 <= j < |defs| ==> loaded[j].Instance(defs[j], regionConfig)
      ensures StatesOf(loaded) == InitialStates(defs, draws)
    {
      var headings := Headings(draws, |defs|);
      loaded := [];
      var i := 0;
      while i < |defs|
        invariant 0 <= i <= |defs| && |loaded| == i
        invariant journal.entries == old(journal.entries).SetAll(EntriesOf(defs[..i]))
        invariant fresh(loaded)
        invariant Instances(loaded, defs[..i], regionConfig)
        invariant Initialised(loaded, defs[..i], headings[..i])
      {
        var entity := SpawnNext(defs, regionConfig, headings, loaded, old(journal.entries));
        FreshSnoc(loaded, entity);
        loaded, i := loaded + [entity], i + 1;
      }
      assert defs[..i] == defs && headings[..i] == headings;
      InstancesAll(loaded, defs, regionConfig);
      InitialisedStates(loaded, defs, draws);
    }

    /**
     * `loadRegionEntities`: replaces the live entities with fresh instances of
     * the region's definitions (none for a region without any) and adds each
     * instance's undiscovered entry to the journal. `Registered` states what
     * the journal then holds.
     */
    method LoadRegionEntities(regionId: string, draws: Draws)
      requires journal.Valid() && TableValid(entityTable)
      modifies this`entities, journal`entries
      ensures journal.Valid() && journal.store == old(journal.store) && journal.isOpen == old(journal.isOpen)
      ensures journal.entries == old(journal.entries).SetAll(EntriesOf(RegionDefs(entityTable, regionId)))
      ensures |entities| == |RegionDefs(entityTable, regionId)|
      ensures fresh(entities)
      ensures forall j :: 0 <= j < |entities| ==>
        regionId in REGIONS && entities[j].Instance(RegionDefs(entityTable, regionId)[j], REGIONS[regionId])
      ensures StatesOf(entities) == InitialStates(RegionDefs(entityTable, regionId), draws)
    {
      var defs := RegionDefs(entityTable, regionId);
      if defs == [] {
        entities := [];
      } else {
        entities := SpawnAll(defs, REGIONS[regionId], draws);
      }
    }

    /** `Array.prototype.find` on the entity ids: the first index holding `id`, or -1. */
    method FindEntity(id: string) returns (j: int)
      ensures -1 <= j < |entities|
      ensures j == -1 ==> forall i :: 0 <= i < |entities| ==> entities[i].id != id
      ensures j >= 0 ==> entities[j].id == id && forall i :: 0 <= i < j ==> entities[i].id != id
    {
      var i := 0;
      while i < |entities|
        invariant 0 <= i <= |entities|
        invariant forall k :: 0 <= k < i ==> entities[k].id != id
      {
        if entities[i].id == id {
          return i;
        }
        i := i + 1;
      }
      return -1;
    }

    /** The body of `loadSavedProgress`'s loop on the entities: the entity with id `id`, if any, becomes discovered and fully revealed. */
    method RestoreEntity(id: string)
      requires Journals.NoDuplicates(IdsOf(entities))
      modifies entities
      ensures StatesOf(entities) == RestoredAll(IdsOf(entities), old(StatesOf(entities)), [id])
    {
      var j := FindEntity(id);
      if j >= 0 {
        forall i | 0 <= i < |entities| && i != j
          ensures entities[i].id != id && entities[i] != entities[j]
        {
          DistinctIdsAt(entities, i, j);
        }
        entities[j].discovered := true;
        entities[j].revealProgress := 1.0;
      }
    }

    /**
     * One turn of `loadSavedProgress`'s `forEach`: `ids[k]` is marked in the
     * journal and its entity, if any, restored; what held after `ids[..k]`
     * holds after `ids[..k + 1]`.
     */
    method ReconcileNext(ids: seq<string>, k: int, ghost m0: Journals.EntryMap, ghost s0: Option<seq<string>>,
                         ghost states0: seq<Entities.EntityState>)
      requires 0 <= k < |ids| && |states0| == |entities| && m0.Valid()
      requires journal.Valid() && Journals.NoDuplicates(IdsOf(entities))
      requires journal.entries == m0.MarkedAll(ids[..k]) && journal.store == Journals.MarkedStore(m0, ids[..k], s0)
      requires StatesOf(entities) == RestoredAll(IdsOf(entities), states0, ids[..k])
      modifies journal`entries, journal`store, entities
      ensures journal.Valid()
      ensures journal.entries == m0.MarkedAll(ids[..k + 1]) && journal.store == Journals.MarkedStore(m0, ids[..k + 1], s0)
      ensures StatesOf(entities) == RestoredAll(IdsOf(entities), states0, ids[..k + 1])
    {
      var id := ids[k];
      Journals.MarkStep(m0, ids[..k], id, s0);
      var _ := journal.MarkDiscovered(id);
      RestoreEntity(id);
      RestoredAllSnoc(IdsOf(entities), states0, ids[..k], id);
      assert ids[..k + 1] == ids[..k] + [id];
    }

    /**
     * `loadSavedProgress`: marks every persisted id in the journal (each mark
     * of a known id rewriting the store) and restores each live entity whose
     * id was persisted to discovered and fully revealed.
     */
    method LoadSavedProgress()
      requires journal.Valid() && EntitiesValid() && JournalAgrees()
      modifies journal`entries, journal`store, entities
      ensures unchanged(this) && journal.isOpen == old(journal.isOpen)
      ensures journal.Valid() && EntitiesValid() && JournalAgrees()
      ensures (journal.entries, journal.store) == Journals.Reconciled(old(journal.entries), old(journal.store))
      ensures StatesOf(entities) == RestoredAll(IdsOf(entities), old(StatesOf(entities)), Journals.LoadProgress(old(journal.store)))
    {
      var discovered := journal.GetDiscoveredIds();
      ghost var m0, s0, states0 := journal.entries, journal.store, StatesOf(entities);
      var k := 0;
      while k < |discovered|
        invariant 0 <= k <= |discovered|
        invariant journal.Valid()
        invariant journal.entries == m0.MarkedAll(discovered[..k])
        invariant journal.store == Journals.MarkedStore(m0, discovered[..k], s0)
        invariant StatesOf(entities) == RestoredAll(IdsOf(entities), states0, discovered[..k])
      {
        ReconcileNext(discovered, k, m0, s0, states0);
        k := k + 1;
      }
      assert discovered[..k] == discovered;
      ReconcileKeepsAgreement(m0, entities, states0, discovered);
    }

    /**
     * `onEntityDiscovered`: marks the entity in the journal and, for a boss,
     * schedules the 500 ms timer that opens the journal.
     */
    method OnEntityDiscovered(entity: Entities.Entity)
      requires journal.Valid()
      modifies journal`entries, journal`store, this`scheduledReveals
      ensures journal.Valid() && journal.isOpen == old(journal.isOpen)
      ensures entity.id in old(journal.entries.values) ==>
        journal.entries == old(journal.entries).Marked(entity.id) && journal.store == Some(journal.entries.DiscoveredIds())
      ensures entity.id !in old(journal.entries.values) ==>
        journal.entries == old(journal.entries) && journal.store == old(journal.store)
      ensures scheduledReveals == old(scheduledReveals) + (if entity.isBoss then 1 else 0)
    {
      var _ := journal.MarkDiscovered(entity.id);
      if entity.isBoss {
        scheduledReveals := scheduledReveals + 1;
      }
    }

    /** The boss timer firing: the journal opens and a region transition becomes pending. */
    method RevealBoss()
      requires scheduledReveals > 0
      modifies journal`isOpen, this`pendingBossTransition, this`scheduledReveals
      ensures journal.isOpen && pendingBossTransition
      ensures scheduledReveals == old(scheduledReveals) - 1
    {
      journal.Open();
      pendingBossTransition := true;
      scheduledReveals := scheduledReveals - 1;
    }

    /** `triggerRegionTransition`: starts the transition toward the current region's successor, if it has one. */
    method TriggerRegionTransition()
      requires world.Valid()
      modifies world`nextRegion, world`transitioning, world`transitionProgress
      ensures world.Valid() && world.State() == Triggered(old(world.State()))
    {
      var currentRegion := world.GetCurrentRegion();
      if currentRegion.nextRegion.Some? {
        world.StartTransition(currentRegion.nextRegion.value);
      }
    }

    /**
     * One turn of `update`'s `forEach` on the entities: entity `k` runs its
     * frame against `player` and, if it reports a discovery, is passed to
     * `OnEntityDiscovered`; what held after `k` entities holds after `k + 1`.
     */
    method UpdateNext(k: int, playerPos: Vec, dt: real, turns: seq<Vec>, ghost m0: Journals.EntryMap,
                      ghost s0: Option<seq<string>>, ghost r0: nat, ghost states0: seq<Entities.EntityState>)
      requires 0 <= k < |entities| == |states0| == |turns| && m0.Valid() && dt >= 0.0
      requires journal.Valid() && Journals.NoDuplicates(IdsOf(entities)) && AllValid(states0)
      requires StatesOf(entities) == Stepped(entities, states0, k, playerPos, dt, turns)
      requires var signalled := Signalled(entities, states0, k, playerPos, dt, turns);
        journal.entries == m0.MarkedAll(signalled) && journal.store == Journals.MarkedStore(m0, signalled, s0)
      requires scheduledReveals == r0 + BossSignals(entities, states0, k, playerPos, dt, turns)
      modifies entities[k], journal`entries, journal`store, this`scheduledReveals
      ensures journal.Valid() && entities == old(entities)
      ensures StatesOf(entities) == Stepped(entities, states0, k + 1, playerPos, dt, turns)
      ensures var signalled := Signalled(entities, states0, k + 1, playerPos, dt, turns);
        journal.entries == m0.MarkedAll(signalled) && journal.store == Journals.MarkedStore(m0, signalled, s0)
      ensures scheduledReveals == r0 + BossSignals(entities, states0, k + 1, playerPos, dt, turns)
    {
      var entity := entities[k];
      forall i | 0 <= i < |entities| && i != k
        ensures entities[i] != entity
      {
        DistinctIdsAt(entities, i, k);
      }
      ghost var signalled := Signalled(entities, states0, k, playerPos, dt, turns);
      var justDiscovered := entity.Update(playerPos, dt, turns[k]);
      if justDiscovered {
        Journals.MarkStep(m0, signalled, entity.id, s0);
        OnEntityDiscovered(entity);
      }
    }

    /**
     * The entity loop of `update`: every entity runs one frame against the
     * player position, in order; each one that reports a discovery is marked
     * in the journal (rewriting the store) and, if a boss, schedules a reveal.
     */
    method RunEntities(playerPos: Vec, dt: real, turns: seq<Vec>, ghost m0: Journals.EntryMap,
                       ghost s0: Option<seq<string>>, ghost r0: nat, ghost states0: seq<Entities.EntityState>)
      requires journal.Valid() && Journals.NoDuplicates(IdsOf(entities)) && AllValid(states0) && |turns| == |entities| && dt >= 0.0
      requires m0 == journal.entries && s0 == journal.store && r0 == scheduledReveals && states0 == StatesOf(entities)
      modifies entities, journal`entries, journal`store, this`scheduledReveals
      ensures journal.Valid() && entities == old(entities)
      ensures StatesOf(entities) == Stepped(entities, states0, |entities|, playerPos, dt, turns)
      ensures var signalled := Signalled(entities, states0, |entities|, playerPos, dt, turns);
        journal.entries == m0.MarkedAll(signalled) && journal.store == Journals.MarkedStore(m0, signalled, s0)
      ensures scheduledReveals == r0 + BossSignals(entities, states0, |entities|, playerPos, dt, turns)
    {
      var k := 0;
      while k < |entities|
        invariant 0 <= k <= |entities|
        invariant journal.Valid()
        invariant StatesOf(entities) == Stepped(entities, states0, k, playerPos, dt, turns)
        invariant var signalled := Signalled(entities, states0, k, playerPos, dt, turns);
          journal.entries == m0.MarkedAll(signalled) && journal.store == Journals.MarkedStore(m0, signalled, s0)
        invariant scheduledReveals == r0 + BossSignals(entities, states0, k, playerPos, dt, turns)
      {
        UpdateNext(k, playerPos, dt, turns, m0, s0, r0, states0);
        k := k + 1;
      }
    }

    /** The entity loop against its specification `StepAll`, keeping the entities valid and the journal in agreement. */
    method UpdateEntities(playerPos: Vec, dt: real, turns: seq<Vec>)
      requires journal.Valid() && EntitiesValid() && JournalAgrees() && |turns| == |entities| && dt >= 0.0
      modifies entities, journal`entries, journal`store, this`scheduledReveals
      ensures journal.Valid() && EntitiesValid() && JournalAgrees()
      ensures entities == old(entities) && unchanged(world, input, player, journal`isOpen, this`pendingBossTransition, this`lastTime)
      ensures StatesOf(entities) == StepAll(entities, old(StatesOf(entities)), playerPos, dt, turns)
      ensures var signalled := Signalled(entities, old(StatesOf(entities)), |entities|, playerPos, dt, turns);
        && journal.entries == old(journal.entries).MarkedAll(signalled)
        && journal.store == Journals.MarkedStore(old(journal.entries), signalled, old(journal.store))
      ensures scheduledReveals == old(scheduledReveals) + BossSignals(entities, old(StatesOf(entities)), |entities|, playerPos, dt, turns)
    {
      ghost var states0 := StatesOf(entities);
      RunEntities(playerPos, dt, turns, journal.entries, journal.store, scheduledReveals, states0);
      LoopKeepsAgreement(old(journal.entries), entities, states0, playerPos, dt, turns, StatesOf(entities), journal.entries);
    }

    /**
     * The journal gate at the top of `update`: the `j` latch toggles the
     * journal, and a pending boss transition fires, once, as soon as the
     * journal is found closed, whether by the key or by its close button.
     */
    method Gate()
      requires world.Valid()
      modifies journal`isOpen, this`pendingBossTransition, world`nextRegion, world`transitioning, world`transitionProgress
      ensures world.Valid()
      ensures journal.isOpen == (old(journal.isOpen) != input.journalToggled)
      ensures pendingBossTransition == (old(pendingBossTransition) && journal.isOpen)
      ensures world.State() == Gated(old(world.State()), old(pendingBossTransition), journal.isOpen)
      ensures world.GetBounds() == old(world.GetBounds()) && world.Scene() == old(world.Scene())
    {
      if input.WasJournalToggled() {
        journal.Toggle();
        if !journal.isOpen && pendingBossTransition {
          pendingBossTransition := false;
          TriggerRegionTransition();
        }
      }
      if pendingBossTransition && !journal.isOpen {
        pendingBossTransition := false;
        TriggerRegionTransition();
      }
    }

    /**
     * `onRegionChanged`: loads the new current region's entities, restores
     * the saved progress and puts the player at x = 200, half-way down.
     */
    method OnRegionChanged(draws: Draws)
      requires journal.Valid() && TableValid(entityTable)
      modifies this`entities, journal`entries, journal`store, player`x, player`y
      ensures Loaded(world.currentRegion.id, draws, old(journal.entries), old(journal.store))
      ensures player.x == 200.0 && player.y == world.currentRegion.height / 2.0
      ensures journal.isOpen == old(journal.isOpen) && unchanged(world, input)
      ensures pendingBossTransition == old(pendingBossTransition) && scheduledReveals == old(scheduledReveals) && lastTime == old(lastTime)
    {
      var newRegion := world.GetCurrentRegion();
      // Loading never reads the player, so placing it first is equivalent.
      player.x := 200.0;
      player.y := newRegion.height / 2.0;
      LoadRegion(newRegion.id, draws);
    }

    /**
     * The middle of `update` when the journal is closed: the player moves by
     * the input within the region's bounds, then every entity runs its frame
     * against the player's new position, discoveries going to the journal.
     */
    method Play(dt: real, draws: Draws, ghost p0: Vec, ghost move: Vec, ghost bounds: Size,
                ghost es: seq<Entities.Entity>, ghost states: seq<Entities.EntityState>,
                ghost m0: Journals.EntryMap, ghost s0: Option<seq<string>>, ghost r0: nat)
      requires Valid() && dt >= 0.0
      requires p0 == Vec(player.x, player.y) && move == input.GetMovement() && bounds == world.GetBounds()
      requires es == entities && states == StatesOf(entities) && m0 == journal.entries && s0 == journal.store && r0 == scheduledReveals
      modifies player`x, player`y, entities, journal`entries, journal`store, this`scheduledReveals
      ensures Valid()
      ensures var pos := Players.Moved(p0, move, player.speed, player.size, bounds);
        var turns := Turns(draws, |es|);
        var signalled := Signalled(es, states, |es|, pos, dt, turns);
        && Vec(player.x, player.y) == pos
        && entities == es && StatesOf(entities) == StepAll(es, states, pos, dt, turns)
        && journal.entries == m0.MarkedAll(signalled) && journal.store == Journals.MarkedStore(m0, signalled, s0)
        && scheduledReveals == r0 + BossSignals(es, states, |es|, pos, dt, turns)
      ensures world.State() == old(world.State()) && input.journalToggled == old(input.journalToggled)
      ensures journal.isOpen == old(journal.isOpen) && pendingBossTransition == old(pendingBossTransition) && lastTime == old(lastTime)
    {
      player.Update(input, world.GetBounds());
      assert StatesOf(entities) == states && Valid();
      var playerPos := player.GetPosition();
      UpdateEntities(playerPos, dt, Turns(draws, |entities|));
    }

    /**
     * The end of `update`: the world advances its transition and, when the
     * transition completes, `onRegionChanged` loads the region arrived in.
     */
    method AdvanceWorld(dt: real, draws: Draws) returns (complete: bool)
      requires Valid() && dt >= 0.0 && draws.Valid()
      modifies world, this`entities, journal`entries, journal`store, player`x, player`y
      ensures Valid()
      ensures (world.State(), complete) == Worlds.Advance(old(world.State()), dt)
      ensures complete ==> Worlds.GeneratedFrom(world.terrainFeatures, world.currentRegion, draws.terrain) && world.fogGradient == None
      ensures !complete ==> world.terrainFeatures == old(world.terrainFeatures) && world.fogGradient == old(world.fogGradient)
      ensures world.lastWidth == old(world.lastWidth) && world.lastHeight == old(world.lastHeight)
      ensures complete ==>
        && Loaded(world.currentRegion.id, draws, old(journal.entries), old(journal.store))
        && player.x == 200.0 && player.y == world.currentRegion.height / 2.0
      ensures !complete ==>
        && entities == old(entities) && StatesOf(entities) == old(StatesOf(entities)) && journal.entries == old(journal.entries)
        && journal.store == old(journal.store) && player.x == old(player.x) && player.y == old(player.y)
      ensures journal.isOpen == old(journal.isOpen) && input.journalToggled == old(input.journalToggled)
      ensures pendingBossTransition == old(pendingBossTransition) && scheduledReveals == old(scheduledReveals) && lastTime == old(lastTime)
    {
      complete := world.Update(dt, draws.terrain);
      if complete {
        OnRegionChanged(draws);
      }
    }

    /**
     * What `update` leaves, given the state before it (the transition `t0`,
     * the journal's open flag `open0`, the pending boss transition `pending0`
     * and the arguments of `Simulated`): the journal gate toggles the journal
     * by the latch and fires a pending boss transition once the journal is
     * closed; if the journal is then open, nothing else changes, the world's
     * scenery included, otherwise the frame is played from the gated
     * transition.
     */
    ghost predicate Updated(dt: real, draws: Draws, t0: Worlds.Transition, sc0: Worlds.Scenery, open0: bool, pending0: bool,
                            p0: Vec, move: Vec, bounds: Size, es: seq<Entities.Entity>, states: seq<Entities.EntityState>,
                            m0: Journals.EntryMap, s0: Option<seq<string>>, r0: nat)
      reads this`entities, this`pendingBossTransition, this`scheduledReveals, world, player, journal, input, entities
    {
      && journal.isOpen == (open0 != input.journalToggled)
      && pendingBossTransition == (pending0 && journal.isOpen)
      && (journal.isOpen ==>
            && world.State() == Gated(t0, pending0, true) && world.Scene() == sc0
            && entities == es && StatesOf(entities) == states
            && journal.entries == m0 && journal.store == s0
            && Vec(player.x, player.y) == p0 && scheduledReveals == r0)
      && (!journal.isOpen ==> Simulated(dt, draws, Gated(t0, pending0, false), sc0, p0, move, bounds, es, states, m0, s0, r0))
    }

    /**
     * `update`: the journal gate; nothing else while the journal is open;
     * otherwise the player and the entities move, then the world advances.
     */
    method Update(dt: real, draws: Draws)
      requires Valid() && dt >= 0.0 && draws.Valid()
      modifies journal`isOpen, this`pendingBossTransition, world, this`entities, entities
      modifies journal`entries, journal`store, this`scheduledReveals, player`x, player`y
      ensures Valid() && lastTime == old(lastTime)
      ensures Updated(dt, draws, old(world.State()), old(world.Scene()), old(journal.isOpen), old(pendingBossTransition),
                      old(Vec(player.x, player.y)), old(input.GetMovement()), old(world.GetBounds()),
                      old(entities), old(StatesOf(entities)), old(journal.entries), old(journal.store), old(scheduledReveals))
    {
      ghost var p0, move, bounds, sc0 := Vec(player.x, player.y), input.GetMovement(), world.GetBounds(), world.Scene();
      ghost var es, states := entities, StatesOf(entities);
      ghost var m0, s0, r0 := journal.entries, journal.store, scheduledReveals;
      Gate();
      assert Vec(player.x, player.y) == p0 && input.GetMovement() == move && world.GetBounds() == bounds && StatesOf(entities) == states;
      assert world.Scene() == sc0;
      if journal.isOpen {
        return;
      }
      Simulate(dt, draws, world.State(), sc0, p0, move, bounds, es, states, m0, s0, r0);
    }

    /**
     * What one played frame leaves, given the transition `t0`, the world's
     * scenery `sc0`, the player position `p0`, the input's movement `move`, the region's bounds, the
     * entities `es` in states `states`, the journal map `m0` and store `s0`
     * and the `r0` scheduled reveals before it: the player moves, every entity
     * steps against the new position, each discovery is marked and each boss
     * discovery schedules a reveal, and the world advances; on arrival the new
     * region's terrain is generated, the fog cache dropped, the region loaded
     * over the marked journal and the player placed at its start, otherwise
     * the terrain and fog cache are kept and the entities, the journal and the
     * player keep the frame's effects.
     */
    ghost predicate Simulated(dt: real, draws: Draws, t0: Worlds.Transition, sc0: Worlds.Scenery, p0: Vec, move: Vec, bounds: Size,
                              es: seq<Entities.Entity>, states: seq<Entities.EntityState>,
                              m0: Journals.EntryMap, s0: Option<seq<string>>, r0: nat)
      reads this`entities, this`scheduledReveals, world, player, journal, entities
    {
      && t0.Valid() && |states| == |es|
      && var pos := Players.Moved(p0, move, player.speed, player.size, bounds);
        var turns := Turns(draws, |es|);
        var signalled := Signalled(es, states, |es|, pos, dt, turns);
        var (t1, complete) := Worlds.Advance(t0, dt);
        var m1, s1 := m0.MarkedAll(signalled), Journals.MarkedStore(m0, signalled, s0);
        && world.State() == t1 && world.lastWidth == sc0.width && world.lastHeight == sc0.height
        && scheduledReveals == r0 + BossSignals(es, states, |es|, pos, dt, turns)
        && (complete ==>
              && Worlds.GeneratedFrom(world.terrainFeatures, world.currentRegion, draws.terrain) && world.fogGradient == None
              && Loaded(world.currentRegion.id, draws, m1, s1)
              && player.x == 200.0 && player.y == world.currentRegion.height / 2.0)
        && (!complete ==>
              && world.terrainFeatures == sc0.terrain && world.fogGradient == sc0.fog
              && entities == es && StatesOf(entities) == StepAll(es, states, pos, dt, turns)
              && journal.entries == m1 && journal.store == s1 && Vec(player.x, player.y) == pos)
    }

    /**
     * The part of `update` past the journal gate: `Play`, then `AdvanceWorld`.
     * The ghost parameters name the state it starts from.
     */
    method Simulate(dt: real, draws: Draws, ghost t0: Worlds.Transition, ghost sc0: Worlds.Scenery, ghost p0: Vec, ghost move: Vec, ghost bounds: Size,
                    ghost es: seq<Entities.Entity>, ghost states: seq<Entities.EntityState>,
                    ghost m0: Journals.EntryMap, ghost s0: Option<seq<string>>, ghost r0: nat)
      requires Valid() && dt >= 0.0 && draws.Valid()
      requires t0 == world.State() && sc0 == world.Scene() && p0 == Vec(player.x, player.y) && move == input.GetMovement() && bounds == world.GetBounds()
      requires es == entities && states == StatesOf(entities) && m0 == journal.entries && s0 == journal.store && r0 == scheduledReveals
      modifies world, this`entities, entities, journal`entries, journal`store, this`scheduledReveals, player`x, player`y
      ensures Valid()
      ensures Simulated(dt, draws, t0, sc0, p0, move, bounds, es, states, m0, s0, r0)
      ensures journal.isOpen == old(journal.isOpen) && input.journalToggled == old(input.journalToggled)
      ensures pendingBossTransition == old(pendingBossTransition) && lastTime == old(lastTime)
    {
      Play(dt, draws, p0, move, bounds, es, states, m0, s0, r0);
      var complete := AdvanceWorld(dt, draws);
    }

    /**
     * `gameLoop` at time `currentTime` (milliseconds): the step is 0 on the
     * first frame and the elapsed time in seconds after it, then `update`.
     */
    method Frame(currentTime: real, draws: Draws)
      requires Valid() && draws.Valid()
      requires lastTime != 0.0 ==> currentTime >= lastTime
      modifies journal`isOpen, this`pendingBossTransition, world, this`entities, entities, this`lastTime
      modifies journal`entries, journal`store, this`scheduledReveals, player`x, player`y
      ensures Valid() && lastTime == currentTime
      ensures Updated(DeltaTime(old(lastTime), currentTime), draws, old(world.State()), old(world.Scene()), old(journal.isOpen), old(pendingBossTransition),
                      old(Vec(player.x, player.y)), old(input.GetMovement()), old(world.GetBounds()),
                      old(entities), old(StatesOf(entities)), old(journal.entries), old(journal.store), old(scheduledReveals))
    {
      ghost var t0, sc0, move, bounds, states := world.State(), world.Scene(), input.GetMovement(), world.GetBounds(), StatesOf(entities);
      var deltaTime := DeltaTime(lastTime, currentTime);
      lastTime := currentTime;
      assert world.State() == t0 && world.Scene() == sc0 && input.GetMovement() == move && world.GetBounds() == bounds && StatesOf(entities) == states;
      Update(deltaTime, draws);
    }

  }
}
