# Shadow Archive: discovery and progression core

Shadow Archive is a small browser exploration game. The player walks a shadow
through four regions (forest, frozen wastes, ancient ruins, the void). Standing
near a hidden creature, artifact or boss slowly reveals it. A fully revealed
entity is recorded as discovered in the player's journal, and the journal is
persisted. Discovering a region's boss opens the journal. Closing it starts a
fade into the next region of the chain.

This project is a Dafny model of that game's logic. The canvas drawing, audio and
DOM are not modelled. The model has one module per source file:

- `Content` (data/content.js): the `REGIONS` and `ENTITIES` tables as constants.
  - Lemmas cover the invariants the game relies on: the region chain
    forest → ice → ruins → void ends and is acyclic, ids match their keys,
    each region has exactly one boss, entity ids are unique, and spawns lie
    inside their region.
  - `Wrappers` (Option) and `Geometry` (vectors, squared distance) are small
    support modules in the same file.
- `Entities` (js/entities.js):
  - `Entity` is a class whose `Update` changes its fields in place. It is
    specified by the pure step `EntityStep`, which is built from the
    discovery latch `RevealStep` and the wandering step `MoveStep`.
  - Lemmas over runs of frames prove the latch fires at most once, that
    lingering in range discovers, and that a restored entity never signals.
  - The render formulas are modelled as functions: opacity, blur, and the
    two-digit hex glow alpha.
- `Worlds` (js/world.js):
  - `World` is a class holding the region-transition state machine,
    specified by the pure functions `Start` and `Advance` over the
    `Transition` value.
  - Also modelled: terrain generation as a loop over an abstract random
    source, the culling test, and the fog-gradient cache.
- `Journals` (js/journal.js):
  - `Journal` is a class whose entries are an insertion-ordered map
    (`EntryMap`: key order plus a map). It has an open flag and a persisted
    store, `Option<seq<string>>`, where `None` means absent or unreadable.
  - Modelled operations: `markDiscovered`, `saveProgress` with its loop, the
    load path, and the locked/unlocked card projection.
  - `Reconciled` models the effect of the orchestrator's reload on the
    journal.
- `Players` (js/player.js): the `Player` class. Its `Update` moves the player
  and clamps the position, specified by the function `Moved`.
- `Inputs` (js/input.js):
  - The `InputHandler` class: key state, the `j` latch, and the movement
    vector.
  - Diagonal normalisation divides by a constant `root2` with
    `root2 * root2 == 2`.
- `Games` (js/game.js): the `Game` orchestrator. Its methods are specified
  against the pure functions above:
  - loading a region's entities and reconciling saved progress;
  - the per-frame `update`, with the journal as a pause gate;
  - the entity loop, proved against `StepAll` while keeping the journal in
    agreement with the entities;
  - the deferred boss reveal;
  - the triggered region transition;
  - the `gameLoop` time step.

Randomness comes in as parameters. `Draws` supplies the entity headings, the
turns, and the terrain's `Math.random()` sequence. Distances are compared
squared, and numbers are Dafny reals.

Where the game's design description differs from the code, the model
follows the code:

- Detection radii are 100, and 150 for bosses.
- The reveal rate is 0.5/s and the fade rate 0.3/s.
- `toJournalEntry` copies the entity's `discovered` flag rather than writing
  `false`.
- Shadow opacity is `0.3 + 0.7p`.
- The update call that discovers an entity returns before the movement code,
  so a moving entity does not move on that frame (js/entities.js:45-47,
  modelled by `EntityStep`).
- The `j` latch is level-triggered: it is set on key-down and cleared only on
  key-up, and `wasJournalToggled` does not clear it. While `j` is held, the
  journal therefore toggles on every frame (js/input.js:33-36, 46-48, 71-73
  and js/game.js:152-160, modelled by `Gate`).
- Loading a region adds every entity's entry with `Map.set`. An entry added
  again with `discovered: false` replaces an earlier discovered entry, until
  the saved progress is reconciled (js/journal.js:22-30 via
  js/game.js:69-71, modelled by `EntryMap.Set`).
- Moving entities take a random walk: their heading turns by a random angle
  every three seconds. They do not hover in place.

## Model

| member | source | states |
|---|---|---|
| Geometry.Min | js/entities.js:42 | the result is the smaller of the two arguments |
| Geometry.Max | js/entities.js:52 | the result is the larger of the two arguments |
| Geometry.DistanceSq | js/entities.js:204-208 | the squared distance is non-negative and zero from a point to itself |
| Geometry.DistanceSymmetric | js/player.js:60-64 | the squared distance is symmetric |
| Content.BossCount | data/content.js:51-229 | the number of bosses in a list is at most its length |
| Content.RegionChain | data/content.js:7-48 | the regions are exactly forest, ice, ruins and void, and `nextRegion` links forest→ice→ruins→void→null; every non-null `nextRegion` is a key of `REGIONS` |
| Content.NextRaisesRank | data/content.js:16-46 | following `nextRegion` moves one place down the chain order |
| Content.ReachesRank | data/content.js:7-48 | reaching region b from a in k `nextRegion` steps puts b exactly k places after a |
| Content.ChainFromForest | data/content.js:7-48 | starting from the forest, the k-th step reaches the k-th region of the order, and the last region has no successor |
| Content.ChainAcyclic | data/content.js:7-48 | no region reaches itself in one or more steps: the chain is acyclic |
| Content.ChainEnds | data/content.js:7-48 | every walk along the chain has at most three steps: it ends |
| Content.RegionIdsMatchKeys | data/content.js:8-39 | each region's `id` equals its key in `REGIONS` |
| Content.EntityTableCoversRegions | data/content.js:51-229 | `ENTITIES` lists exactly the four regions |
| Content.EntityRegionsMatchKeys | data/content.js:51-229 | every entity's `region` equals the key it is listed under |
| Content.ForestHasOneBoss | data/content.js:52-105 | the forest list has exactly one boss |
| Content.IceHasOneBoss | data/content.js:106-146 | the ice list has exactly one boss |
| Content.RuinsHaveOneBoss | data/content.js:147-187 | the ruins list has exactly one boss |
| Content.VoidHasOneBoss | data/content.js:188-228 | the void list has exactly one boss |
| Content.OneBossPerRegion | data/content.js:93-227 | every region's list holds exactly one boss, and `isBoss` holds exactly when the type is boss |
| Content.EntityIdsUnique | data/content.js:51-229 | entity ids are unique across all regions and within each region |
| Content.SpawnsInsideRegion | data/content.js:14-227 | every spawn position lies inside its region's width × height |
| Journals.NoDuplicatesAt | js/journal.js:7 | a duplicate-free id list has distinct elements at distinct positions |
| Journals.PairwiseNoDuplicates | js/journal.js:7 | pairwise-distinct elements make a duplicate-free list |
| Journals.NoDuplicatesSnoc | js/journal.js:22-30 | appending a new id keeps the key order duplicate-free |
| Journals.EntryMap.Set | js/journal.js:22-30 | `Map.set`: the id maps to the entry and other ids are untouched; a replaced key keeps its position and a new key is appended |
| Journals.EntryMap.Marked | js/journal.js:32-35 | setting `discovered` on a known id changes only that entry's flag; an unknown id changes nothing |
| Journals.EntryMap.MarkedAll | js/game.js:77-79 | marking ids in turn keeps the key order and the key set |
| Journals.EntryMap.SetAll | js/game.js:69-73 | adding entries in turn keeps the map well formed |
| Journals.DiscoveredAmongMembers | js/journal.js:135-139 | an id is collected exactly when it is a key and its entry is discovered |
| Journals.DiscoveredAmongDistinct | js/journal.js:135-139 | collecting over distinct keys gives distinct ids |
| Journals.DiscoveredIdsExact | js/journal.js:133-141 | the saved list holds exactly the discovered ids of the map, with no duplicates |
| Journals.SetAllKeeps | js/game.js:69-73 | adding entries leaves every other id's entry unchanged |
| Journals.SetAllLastWins | js/game.js:69-73 | after adding entries, an id maps to the last entry added for it |
| Journals.SetAllAppends | js/game.js:69-73 | adding entries with new, distinct ids appends those ids to the key order |
| Journals.MarkedAllSnoc | js/game.js:78-79 | marking one more id extends the marked map by that mark |
| Journals.MarkedIdempotent | js/journal.js:32-41 | marking an id twice is the same as marking it once |
| Journals.LoadProgress | js/journal.js:143-154 | the load path gives the empty list when the slot is absent or unreadable, and the stored list otherwise |
| Journals.MarkStep | js/game.js:78-79 | one iteration of the reload loop: marking a known id rewrites the store with the discovered ids; an unknown id changes neither map nor store |
| Journals.ReconcileDropsUnknown | js/game.js:76-86 | once a persisted id is known, the reload rewrites the store to the discovered known ids, so persisted ids of regions not yet loaded are dropped |
| Journals.ReconcileWithoutKnownIds | js/game.js:76-86 | a reload where no persisted id is known changes neither the map nor the store |
| Journals.ReconcileIdempotent | js/game.js:76-86 | reloading twice is the same as reloading once |
| Journals.ReloadForgetsLaterRegion | js/game.js:76-86 | concretely: with only the forest loaded, a saved forest and ice discovery becomes a saved forest discovery only |
| Journals.FormatRegionName | js/journal.js:123-131 | the four region ids map to their names; any other id is returned unchanged |
| Journals.CardOf | js/journal.js:84-104 | an entry is locked exactly when undiscovered; a locked card shows '???', 'Unknown' and the hidden text; an unlocked one shows the entry's name, description and region name |
| Journals.Journal.constructor | js/journal.js:6-20 | the journal starts empty and closed, over the given store |
| Journals.Journal.AddEntry | js/journal.js:22-30 | the map becomes `Set(entry)` and stays well formed |
| Journals.Journal.MarkDiscovered | js/journal.js:32-41 | a known id is marked, the store is rewritten with the discovered ids, and the discovered entry is returned; an unknown id returns None and changes nothing |
| Journals.Journal.IsDiscovered | js/journal.js:43-46 | true exactly for known ids whose entry is discovered; false for unknown ids |
| Journals.Journal.Toggle | js/journal.js:48-54 | the open flag is negated |
| Journals.Journal.Open | js/journal.js:56-60 | the journal is open afterwards |
| Journals.Journal.Close | js/journal.js:62-65 | the journal is closed afterwards |
| Journals.Journal.DiscoveredList | js/journal.js:134-139 | the loop collects exactly the discovered ids in insertion order |
| Journals.Journal.SaveProgress | js/journal.js:133-141 | the store becomes the discovered ids in insertion order |
| Journals.Journal.GetDiscoveredIds | js/journal.js:156-158 | the persisted list, or the empty list when absent or unreadable |
| Entities.RevealStep | js/entities.js:37-54 | signals exactly when it flips `discovered` from false to true; discovered is never undone and a discovered entity stays at progress 1; progress stays in [0,1]; it never falls in range and never rises out of range |
| Entities.RevealRates | js/entities.js:41-53 | in range, progress becomes min(1, p + 0.5·dt); out of range an undiscovered entity decays to max(0, p − 0.3·dt) and a discovered one stays at 1 |
| Entities.MoveStep | js/entities.js:56-68 | a still entity does not move; a moving entity adds dt to its timer and, once the timer passes 3, takes the drawn turn and resets the timer, otherwise keeps its heading; the timer stays in [0, 3]; it then moves by its heading |
| Entities.EntityStep | js/entities.js:35-71 | the discovery part is the latch at the squared radius (150 for bosses, else 100); the signalling call skips movement; otherwise the entity takes its movement step |
| Entities.SignalAtMostOnce | js/entities.js:45-47 | over any run of frames the entity signals at most once, exactly when it goes from undiscovered to discovered; a discovered entity never changes |
| Entities.LingeringProgress | js/entities.js:41-42 | lingering n frames in range raises progress by exactly n·dt·0.5, unless the entity ends up discovered |
| Entities.LingeringDiscovers | js/entities.js:41-47 | lingering long enough in range discovers an undiscovered entity, with exactly one signal |
| Entities.RestoredNeverSignals | js/game.js:82-83 | an entity restored as discovered never signals and never changes its reveal state |
| Entities.ShadowOpacity | js/entities.js:78 | the opacity lies in [0.3, 1] and is 1 exactly at full reveal |
| Entities.BlurAmount | js/entities.js:79 | the blur lies in [0, 20] and is 0 exactly at full reveal |
| Entities.ToHex | js/entities.js:85 | `toString(16)` has one digit below 16 and two digits below 256 |
| Entities.PadStart2 | js/entities.js:85 | `padStart(2, '0')` gives at least two characters and leaves longer strings alone |
| Entities.HexRoundTrip | js/entities.js:85 | reading the hex digits back gives the number |
| Entities.GlowAlpha | js/entities.js:85 | for progress in [0,1] the alpha suffix is exactly two characters |
| Entities.GlowAlphaReadsBack | js/entities.js:85 | the two-character alpha reads back as floor(100·p) |
| Entities.InitialState | js/entities.js:6-33 | a new entity is undiscovered at progress 0, at its table position, with a zero heading when it does not move |
| Entities.Entity.constructor | js/entities.js:6-33 | the fields come from the definition and region, and the state is `InitialState` |
| Entities.Entity.Update | js/entities.js:35-71 | the new state and the returned flag are `EntityStep` of the old state; the entity stays valid |
| Entities.Entity.DistanceTo | js/entities.js:204-208 | the squared distance to the point: non-negative and zero at the entity's own position |
| Entities.Entity.ToJournalEntry | js/entities.js:210-218 | id, name, region, description and discovered are copied unchanged; the card is locked exactly when the entity is undiscovered |
| Worlds.Scale | js/world.js:33-34 | `Math.random() * w` lies in [0, w) |
| Worlds.FeatureAtInRange | js/world.js:32-39 | every generated feature lies in the region, with a type in {0,1,2}, a size in [20,60), a seed in [0,1000) and an opacity in [0.15,0.25) |
| Worlds.GenerateTerrainFeatures | js/world.js:24-43 | the loop produces 20 to 34 features, each the one drawn from the random source and each in range |
| Worlds.Start | js/world.js:164-170 | an unknown id changes nothing; a known one (re)starts a transition toward it from progress 0, even mid-transition |
| Worlds.Advance | js/world.js:45-59 | idle: nothing changes and false is returned; transitioning: progress rises by 0.5·dt, and completion is reported exactly when it reaches 1, committing the next region and resetting to idle at 0 |
| Worlds.CompletesAtMostOnce | js/world.js:49-55 | over any run of frames a transition completes at most once, and only by entering the target region |
| Worlds.TransitionProgresses | js/world.js:47-52 | after n frames an ongoing transition has either completed or advanced by n·dt·0.5 |
| Worlds.TransitionCompletes | js/world.js:47-55 | enough frames complete a transition exactly once, in the target region |
| Worlds.Culled | js/world.js:81-90 | a feature is drawn exactly when its screen position lies within 100 pixels of the canvas |
| Worlds.World.constructor | js/world.js:9-22 | the world starts idle in the forest with freshly generated terrain and an empty fog cache |
| Worlds.World.Update | js/world.js:45-59 | the transition state and the result are `Advance` of the old state; on completion the terrain is regenerated and the fog cache cleared, otherwise both are kept |
| Worlds.World.StartTransition | js/world.js:164-170 | the transition state becomes `Start` of the old state |
| Worlds.World.GetCurrentRegion | js/world.js:172-174 | the current region, a region from the table |
| Worlds.World.GetBounds | js/world.js:176-181 | the current region's width and height, 1600 × 1200 for every region |
| Worlds.World.DrawnFeatures | js/world.js:81-90 | the loop draws exactly the features the culling test keeps |
| Worlds.World.RenderFog | js/world.js:124-139 | the gradient is rebuilt for the given size unless one is cached for that same size; afterwards the cached size is the given size |
| Inputs.ToLower | js/input.js:27 | ASCII lower-casing maps each character by `LowerChar`, keeps the length and leaves no upper-case letter |
| Inputs.ArrowKeysUnreachable | js/input.js:7-16 | no lower-cased key is an arrow-key name, so the arrow entries are never set |
| Inputs.JournalLatch | js/input.js:33-36 | after a sequence of key events, the toggle flag is true exactly when the last `j` event was a key-down |
| Inputs.JournalLatchUntouched | js/input.js:33-48 | events other than `j` leave the toggle flag unchanged |
| Inputs.UnitDiagonal | js/input.js:62-66 | a diagonal divided by √2 has unit length |
| Inputs.DiagonalSigns | js/input.js:62-66 | dividing by √2 keeps each component's sign |
| Inputs.InputHandler.constructor | js/input.js:6-24 | every tracked key is up and the journal latch is clear |
| Inputs.InputHandler.OnKeyDown | js/input.js:26-37 | only the lower-cased key's entry is set, when it is tracked; the latch follows the `j` rule |
| Inputs.InputHandler.OnKeyUp | js/input.js:39-49 | only the lower-cased key's entry is cleared, when it is tracked; a `j` release clears the latch |
| Inputs.InputHandler.GetMovement | js/input.js:52-69 | opposing keys cancel on that axis; each sign follows its pressed key; components are in {-1,0,1} unless both are non-zero, and then the vector has unit length |
| Inputs.InputHandler.WasJournalToggled | js/input.js:71-73 | reads the latch without resetting it |
| Players.Clamp | js/player.js:22-23 | `max(lo, min(hi, v))` lies in [lo, hi] when lo ≤ hi, is v inside, and otherwise the nearer bound |
| Players.Moved | js/player.js:14-24 | the position moves by movement × speed, then is clamped: kept when inside, pushed to `size` below and, when the bound is at least 2·size, to `bound − size` above; inside [size, bound − size] when the bound is at least 2·size; unchanged for zero movement from an in-bounds position |
| Players.Player.constructor | js/player.js:6-12 | the player starts at the given position |
| Players.Player.Update | js/player.js:14-24 | the new position is `Moved` of the old one with the input's movement and the world bounds |
| Players.Player.GetPosition | js/player.js:56-58 | returns x and y |
| Players.Player.DistanceTo | js/player.js:60-64 | the squared distance: non-negative and zero at the player's own position |
| Games.EntitiesTableValid | data/content.js:51-229 | the content's entity table meets what the game relies on: known regions, matching region fields, distinct ids per region |
| Games.RegionDefs | js/game.js:67 | `ENTITIES[regionId] \|\| []`: a known region's list or the empty list, each definition of that region, with distinct ids |
| Games.EntriesOf | js/game.js:69-71 | the journal entry for each definition, in order |
| Games.EntriesOfSnoc | js/game.js:69-71 | the entries of one more definition extend the list by its entry |
| Games.Triggered | js/game.js:195-200 | the transition toward the current region's successor, or no change when there is none |
| Games.TriggerFollowsChain | js/game.js:195-200 | from the void nothing changes; from any other region a transition starts from 0 toward the next region of the chain |
| Games.DeltaTime | js/game.js:92 | the first frame has step 0; later frames have step (current − last)/1000, non-negative for monotonic time |
| Games.DistinctIdsAt | js/game.js:80 | distinct live entities have distinct ids |
| Games.InitialStates | js/game.js:69-73 | each loaded entity starts in its initial state with its drawn heading, and all are valid |
| Games.RestoredAll | js/game.js:76-86 | each entity whose id is persisted is fully revealed and discovered; the others are unchanged |
| Games.RestoredAllSnoc | js/game.js:78-85 | restoring one more id extends the restoration by that id |
| Games.ReconcileKeepsAgreement | js/game.js:76-86 | restoring the entities and marking the journal together keep the journal in agreement with the entities |
| Games.Registered | js/game.js:65-74 | loading a region registers each entity's entry, in agreement with its initial state; other ids' entries are untouched; new ids are appended in order |
| Games.RegisteringSnoc | js/game.js:69-73 | registering one more definition adds its entry |
| Games.InstancesSnoc | js/game.js:69-70 | one more constructed entity extends the instances |
| Games.InstancesAll | js/game.js:69-70 | every loaded entity is built from its definition |
| Games.InitialisedSnoc | js/game.js:69-70 | one more constructed entity extends the initial states |
| Games.InitialisedAll | js/game.js:69-70 | every loaded entity is in its initial state |
| Games.InitialisedStates | js/game.js:69-73 | the loaded states are `InitialStates` of the definitions |
| Games.StepAll | js/game.js:180-186 | each entity takes its own step against the player position, in order |
| Games.SteppedAll | js/game.js:180-186 | stepping every entity of the loop gives `StepAll` |
| Games.SignalledMembers | js/game.js:183-185 | an id is reported discovered in a frame exactly when its entity's step signals |
| Games.StepKeepsAgreement | js/game.js:179-186 | one frame of the entity loop keeps the states valid and the journal in agreement with the entities; the store is rewritten exactly when some entity signals |
| Games.LoopKeepsAgreement | js/game.js:179-186 | the states and journal the entity loop ends with are `StepAll` and in agreement |
| Games.BossTransitionArrives | js/game.js:152-167 | closing the journal on a pending boss transition outside the void brings the world, after enough frames, into the next region of the chain, reported exactly once |
| Games.FreshSnoc | js/game.js:69 | appending a fresh entity to fresh entities keeps them fresh |
| Games.Game.constructor | js/game.js:14-58 | the game starts in the forest with the player at its centre, the journal closed, no pending transition, the clock at 0, and the forest loaded and reconciled with the persisted progress |
| Games.Game.LoadRegion | js/game.js:207-208 | loading a region and restoring progress leaves the region's entities, restored, with the journal reconciled; nothing else changes |
| Games.Game.Spawn | js/game.js:70-71 | a fresh entity built from the definition, in its initial state, with its entry added to the journal |
| Games.Game.SpawnNext | js/game.js:69-73 | one iteration of the loading map: the next entity is constructed and its entry registered |
| Games.Game.SpawnAll | js/game.js:69-73 | one fresh entity per definition, in order, in its initial state, with every entry registered |
| Games.Game.LoadRegionEntities | js/game.js:65-74 | the entities are replaced with fresh instances of the region's list (empty for an unknown region), and their entries are added to the journal |
| Games.Game.FindEntity | js/game.js:80 | `find`: the first entity with the id, or -1 when none has it |
| Games.Game.RestoreEntity | js/game.js:80-84 | the entity with the id, if any, is fully revealed and discovered; all others are unchanged |
| Games.Game.ReconcileNext | js/game.js:78-85 | one iteration of the reload loop: marks the id in the journal and restores its entity |
| Games.Game.LoadSavedProgress | js/game.js:76-86 | the journal becomes `Reconciled`, every persisted id present among the entities is fully revealed, and the journal stays in agreement |
| Games.Game.OnEntityDiscovered | js/game.js:126-148 | the entity is marked discovered in the journal; a boss schedules exactly one deferred reveal, and other entities schedule none |
| Games.Game.RevealBoss | js/game.js:139-143 | the deferred callback opens the journal and sets the pending boss transition |
| Games.Game.TriggerRegionTransition | js/game.js:195-200 | the world state becomes `Triggered` of the old one |
| Games.Game.UpdateNext | js/game.js:180-186 | one iteration of the entity loop: the entity steps, and a discovery marks the journal and counts boss reveals |
| Games.Game.RunEntities | js/game.js:179-186 | the loop steps every entity, marks each signalled id in the journal, and schedules a reveal per signalled boss |
| Games.Game.UpdateEntities | js/game.js:179-186 | the entity loop meets its specification `StepAll`, keeps the entities valid and the journal in agreement, and changes nothing else |
| Games.Game.Gate | js/game.js:152-167 | the latch toggles the journal; a pending boss transition fires once as soon as the journal is closed and is then cleared; the world's bounds, terrain and fog cache are untouched |
| Games.Game.OnRegionChanged | js/game.js:202-222 | the new region is loaded and reconciled, and the player is placed at (200, height/2) |
| Games.Game.Play | js/game.js:172-186 | the player moves by `Moved`; every entity then steps by `StepAll` against the new position; every signalled id is marked in the journal and its store, and each signalled boss schedules one reveal; the world and the gate state are unchanged |
| Games.Game.AdvanceWorld | js/game.js:188-192 | the world advances by `Advance`; on completion the terrain is regenerated for the new region, the fog cache dropped, the region loaded and the player placed; otherwise the terrain, fog cache, entities, journal and player are unchanged; the cached canvas size is always kept |
| Games.Game.Update | js/game.js:150-193 | `Updated`: the gate toggles the journal by the latch and fires a pending boss transition once the journal is closed; if the journal is then open, the world's terrain and fog cache, the player, entities, journal and reveals are unchanged; otherwise the frame is `Simulated` from the gated transition |
| Games.Game.Simulate | js/game.js:172-192 | `Simulated`: the world takes one `Advance` step; the player moves by `Moved`; each signalled boss schedules one reveal; if the transition completes, the terrain is regenerated, the fog cache dropped, the new region `Loaded` from the marked journal and the player placed at (200, height/2); otherwise the terrain and fog cache are kept, the entities step by `StepAll` and the journal marks every signalled id |
| Games.Game.Frame | js/game.js:88-103 | `lastTime` becomes the timestamp, and the state is `Updated` with the step `DeltaTime` of the old `lastTime`, so every guarantee of `update` holds for the frame |

## Left out

- Canvas drawing is not modelled. This covers `Entity.render`, `World.render`,
  `renderTerrainFeatures`, `renderAmbience` and `Player.render`, and the
  `Date.now()` pulses. Only the culling test, the fog cache and the
  opacity, blur and glow-alpha formulas are modelled.
- Audio (js/audio.js), the DOM, `updateRegionUI`, `resizeCanvas`, the camera
  (`updateCamera`) and console logging have no effect on the modelled state
  and are left out. The audio module is not part of this model.
- The journal's DOM rendering is reduced to `CardOf`, the locked/unlocked
  projection of one entry. The close button reaches the journal only
  through `Close` and is seen by the game through `isOpen`.
- `Math.random()` is a parameter. Entity headings, turns and terrain values
  come from `Draws`. An entity's `cos`/`sin` step with its random speed is an
  arbitrary displacement vector.
- Terrain generation draws its values by index from an abstract source with
  values in [0, 1).
- `Math.sqrt` is not modelled. Distances are compared squared, and
  `DistanceTo` returns the squared distance.
- Diagonal normalisation divides by a constant `root2` with
  `root2 * root2 == 2`, fixed when the input handler is built.
- Numbers are exact reals. Floating-point rounding is not modelled.
- `localStorage` and `JSON.parse` are modelled as an `Option<seq<string>>`
  store. `None` means absent or unparsable. A stored JSON value that parses
  but is not an array is not modelled.
- The journal constructor's own `loadProgress()` call is not modelled. Its
  result is discarded in the code.
- `setTimeout` for the boss reveal is modelled as a counter of scheduled
  reveals (`scheduledReveals`). The reveal itself is the explicit method
  `RevealBoss`, which the environment calls when a timer fires. The 500 ms
  delay and the ambience timer in `onRegionChanged` are not modelled.
- `requestAnimationFrame` is not modelled: `Frame` is one call of `gameLoop`.
  `running` is always true.
- `Games.Game.Frame` requires non-decreasing timestamps. Frame timestamps
  are monotonic, and the step must be non-negative for the reveal and
  transition bounds.
- `Games.Game.OnRegionChanged`: the code loads the region and restores the
  saved progress first, then places the player. The model places the player
  first and calls `LoadRegion` after. Loading reads no player field, so the
  final state is the same.
- The game's entity table is a constructor parameter. `EntitiesTableValid`
  proves that the content's `ENTITIES` meets the requirements on it.
- Inputs.ToLower: lower-casing is ASCII only. JavaScript's `toLowerCase` is
  Unicode-aware and can change a string's length (for example "İ"). Key
  lookups (`REGIONS[id]`, `names[id] || id`, `key in this.keys`) are modelled
  as own keys only. In JavaScript, inherited names such as "toString" would
  also be found. The game's own calls pass only region ids and key names,
  which are unaffected.
