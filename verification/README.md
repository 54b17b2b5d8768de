# micro-odyssey action layer, in Dafny

This project models the action layer of the micro-odyssey roguelike
(`crates/odyssey_game/src/actions.rs`). It also models the component data
model and the content-data component loader (`crates/odyssey_game/src/components.rs`).

Every gameplay effect is an `Action`. Dafny has a closed datatype with the
eight variants Travel, Shoot, Paralyze, Pause, PlaceBouy, MeleeHit, Damage and
PickItem. Each variant has three behaviours:

- `execute` changes the world and returns follow-up actions, or fails;
- `score` is a read-only utility number that the AI uses;
- `event` is a tag for rendering and audio.

The files:

- `vectors.dfy` (`Vectors`): grid vectors, Manhattan distance, and `Walk`, which is
  repeated `+= dir`.
- `components.dfy` (`Components`): one `Component` constructor per component struct,
  the type tag of each, `u32`, and the `AP` default.
- `storage.dfy` (`Storage`): the entity store. `State` is the store as a value: the
  live entities in enumeration order, a record of components per entity (one per
  component type), and the id counter. The class `World` holds the same data in
  fields. Its methods are the store calls the Rust code makes: `spawn_entity`,
  `insert_component` and `despawn_entity`.
- `events.dfy` (`Events`): the event values the actions emit.
- `actions.dfy` (`Actions`): the eight `execute` methods and the pure
  `score`/`event` functions. It also has `Shoot::get_target` as a loop, and the
  `Execute` dispatcher.
- `loader.dfy` (`ComponentLoader`): `insert_single` as a method, and
  `insert_data_components` as a loop over the mapping's entries, checked against the
  function `LoadEntries`.

The `execute` methods change a `World` in place. Each one states its result and
the new `Snapshot()` in terms of the old one. The `Execute` dispatcher states the
same through the function `Effect`, which gives the new world for every variant.
The scores, MeleeHit's and Pause's
follow-ups, and `Shoot::get_target` only read the world. They take a `State`.

Modelling decisions:

- `get_entities_at_position` lives in crate::utils, which is not part of this model.
  It is modelled as "live entities whose `Position` is `p`, in store enumeration
  order" (`State.EntitiesAt`). The query `.next()` in the Travel and Shoot scores
  uses the same order.
- `spawn_with_position` also lives in crate::utils. The components the name
  selects are a parameter, `None` when the helper yields no entity. On success it
  creates a fresh entity holding those components and the `Position`.
- Content data is a sequence of entries. Each entry has an optional string key and
  a payload that the model does not look into. Decoding is a function parameter
  that may fail.
- A Rust panic in the loader is an outcome value (`UnknownComponent`,
  `ParseFailure`). The world is left as it was when the panic happened.

Two behaviours of the code worth noting:

- Paralyze on a despawned entity returns `Ok` and changes nothing, because the
  result of `insert_component` is discarded (`actions.rs:113-117`).
- MeleeHit's score tests the `Player` marker, which buoys also carry, not
  `PlayerCharacter` (`actions.rs:177-179`).

## Model

| member | source | states |
|---|---|---|
| `Vectors.Manhattan` | crates/odyssey_game/src/actions.rs:53 | the distance is a natural number, and zero exactly when the two cells are equal |
| `Vectors.Walk` | crates/odyssey_game/src/actions.rs:71-75 | k repetitions of `target += dir` reach `source + k*dir` |
| `Components.DecodeAP` | crates/odyssey_game/src/components.rs:10-15 | `max` must be present; both fields must fit a u32; an absent `current` defaults to 0 |
| `Storage.State.Insert` | crates/odyssey_game/src/actions.rs:113-116 | inserting files the component under its type on a live entity and changes nothing else; a dead entity is left unchanged; the store invariant is kept |
| `Storage.State.SpawnedWith` | crates/odyssey_game/src/actions.rs:83-88 | spawning adds one fresh id, enumerated last, with exactly the given components; existing entities are untouched |
| `Storage.State.Despawned` | crates/odyssey_game/src/actions.rs:213-215 | despawned entities are no longer live or enumerated and have no components; the others keep theirs |
| `Storage.DespawnedTwice` | crates/odyssey_game/src/actions.rs:213-215 | despawning one set and then another equals despawning their union |
| `Storage.State.EntitiesAt` | crates/odyssey_game/src/actions.rs:163 | lists exactly the live entities whose `Position` is the cell, each once |
| `Actions.Event` | crates/odyssey_game/src/actions.rs:43-45 | Travel gives `Travel(entity, target)`, MeleeHit gives `Melee(entity, target, value)` (lines 173-175), every other action gives `Other` (line 25) |
| `Actions.PlayerPositionAmong` | crates/odyssey_game/src/actions.rs:47-51 | `None` exactly when no entity has both `PlayerCharacter` and `Position`; otherwise the position of one that has both |
| `Actions.PlayerPositionOfUniquePlayer` | crates/odyssey_game/src/components.rs:66-72 | when the player character is unique, the scores see its position |
| `Actions.ObstaclePositionsAmong` | crates/odyssey_game/src/actions.rs:65-68 | lists exactly the positions of entities carrying `Obstacle` and `Position` |
| `Actions.ExecuteTravel` | crates/odyssey_game/src/actions.rs:38-42 | fails exactly when the actor has no `Position`, and then changes nothing; otherwise sets `Position := target`, returns no follow-ups, and changes nothing else |
| `Actions.TravelScore` | crates/odyssey_game/src/actions.rs:46-54 | 0 when there is no placed player character; otherwise at most 20, and 20 exactly when the target is the player's cell |
| `Actions.TravelScoreTowardsPlayer` | crates/odyssey_game/src/actions.rs:46-54 | with a unique player character at p, the score is `20 - manhattan(target, p)` |
| `Actions.TravelScoreFavoursNearerCells` | crates/odyssey_game/src/actions.rs:53 | a cell nearer to the player scores strictly higher |
| `Actions.StopFrom` | crates/odyssey_game/src/actions.rs:72-75 | searching from step i finds the first obstacle step in i..dist, or gives dist |
| `Actions.ImpactSteps` | crates/odyssey_game/src/actions.rs:64-77 | the step count is at most dist; every step before it is clear; below dist it is at least 1 and lands on an obstacle; the shot's own starting cell is never tested |
| `Actions.ImpactStepsIsFirstObstacle` | crates/odyssey_game/src/actions.rs:70-75 | those properties determine the step count: it is the smallest obstacle step in 1..dist, or dist |
| `Actions.ShotStopsAtObstacle` | crates/odyssey_game/src/actions.rs:70-76 | from (0,0) along (1,0) over 5 cells with an obstacle at (3,0), the shot stops at (3,0), not at (5,0) |
| `Actions.GetTarget` | crates/odyssey_game/src/actions.rs:64-77 | the loop with early `break` returns the impact cell `source + k*dir`, where k = `ImpactSteps` |
| `Actions.ExecuteShoot` | crates/odyssey_game/src/actions.rs:81-90 | never fails and has no follow-ups; adds exactly one fresh entity holding only `Projectile{damage, source, target = get_target}`; existing entities are untouched |
| `Actions.ShootScore` | crates/odyssey_game/src/actions.rs:91-103 | 100 exactly when the impact cell is the player character's position, otherwise 0 (also 0 with no player) |
| `Actions.ExecuteParalyze` | crates/odyssey_game/src/actions.rs:112-118 | always `Ok([])`; files `Paralyzed(value)` on a live subject; leaves the world unchanged when the subject is despawned |
| `Actions.PauseFollowUps` | crates/odyssey_game/src/actions.rs:126-132 | `[PickItem(entity)]` when the entity has `PlayerCharacter`, `[]` otherwise |
| `Actions.WithPosition` | crates/odyssey_game/src/actions.rs:143 | the spawned record holds the given `Position` and otherwise exactly the template's components |
| `Actions.SpawnWithPosition` | crates/odyssey_game/src/actions.rs:143-144 | the spawn helper yields an entity exactly when a template is found; it then adds one fresh entity holding the template's components and the position (a helper that yields none is taken to change nothing, see "Left out") |
| `Actions.BuoyRecord` | crates/odyssey_game/src/actions.rs:143-146 | a buoy holds `Position(position)`, `Player` and `Health(health)`, and the template's other components |
| `Actions.ExecutePlaceBouy` | crates/odyssey_game/src/actions.rs:142-148 | fails exactly when the spawn helper yields no entity, and then changes nothing; otherwise adds one fresh entity holding `BuoyRecord`, with no follow-ups |
| `Actions.DamageEach` | crates/odyssey_game/src/actions.rs:163-170 | one `Damage(e, value)` per entity of the list that has `Health`, none for the others, no duplicates |
| `Actions.MeleeFollowUps` | crates/odyssey_game/src/actions.rs:162-172 | exactly one `Damage(e, value)` for each live entity at the target that has `Health`, none for the others, and none for an empty cell |
| `Actions.MeleeScore` | crates/odyssey_game/src/actions.rs:176-184 | 200 exactly when some entity at the target carries the `Player` marker, otherwise -50 |
| `Actions.SaturatingSub` | crates/odyssey_game/src/actions.rs:195 | the result never exceeds the old health, drops by at most `value`, and drops by exactly `value` unless it reaches 0 |
| `Actions.ExecuteDamage` | crates/odyssey_game/src/actions.rs:193-197 | fails exactly when the entity has no `Health` (despawned included), and then changes nothing; otherwise sets `health := saturating_sub(h, value)` with no follow-ups |
| `Actions.ItemsAt` | crates/odyssey_game/src/actions.rs:208-211 | lists exactly the live entities at the cell that carry an `Item` |
| `Actions.PickingUpTakesExactlyTheItems` | crates/odyssey_game/src/actions.rs:207-215 | after pickup, an entity is alive exactly when it was alive and was not an item at the actor's cell; survivors keep all their components |
| `Actions.ExecutePickItem` | crates/odyssey_game/src/actions.rs:206-217 | fails exactly when the actor has no `Position`, and then changes nothing; otherwise the despawn loop removes exactly the item entities at that position, with no follow-ups |
| `Actions.Score` | crates/odyssey_game/src/actions.rs:22-30 | Paralyze, Pause and Damage keep the default 0, and PlaceBouy and PickItem override it with 0 (lines 149-152, 218-221); with no player, everything except MeleeHit scores 0 |
| `Actions.FollowUpsComeFromMeleeHitOrPause` | crates/odyssey_game/src/actions.rs:126-132 | only MeleeHit and Pause return follow-ups: MeleeHit only Damage actions carrying its own value (lines 162-171), Pause only the pausing entity's PickItem |
| `Actions.Effect` | crates/odyssey_game/src/actions.rs:36-217 | the world after a successful execution: Travel, Damage and Paralyze change only their entity (its new `Position`, saturated `Health`, `Paralyzed`); Shoot and PlaceBouy add one fresh entity (the projectile, the buoy) and change nothing else; PickItem removes exactly the items at the actor's cell; MeleeHit and Pause change nothing; the store invariant is kept |
| `Actions.Execute` | crates/odyssey_game/src/actions.rs:20-24 | a failed execution leaves the world exactly as it was; it fails only in the four cases of `Fails`; on success it returns the variant's follow-ups and leaves the world `Effect` gives |
| `ComponentLoader.DataType` | crates/odyssey_game/src/components.rs:101-110 | exactly the eight names Actor, Fixture, Health, Item, Obstacle, Tile, ViewBlocker and Vortex are accepted, each selecting the type of that name |
| `ComponentLoader.DataTypeOfName` | crates/odyssey_game/src/components.rs:101-109 | every data component type is selected by its own name |
| `ComponentLoader.LoadEntries` | crates/odyssey_game/src/components.rs:99-112 | loading touches only the given entity, keeps every entity alive, changes nothing on a dead entity, and keeps the store invariant |
| `ComponentLoader.Load` | crates/odyssey_game/src/components.rs:98 | a value that is not a mapping inserts nothing |
| `ComponentLoader.LoadEntriesAppend` | crates/odyssey_game/src/components.rs:99-112 | loading entries in sequence equals loading the first run, then the second run only if the first completed |
| `ComponentLoader.NonStringKeySkipped` | crates/odyssey_game/src/components.rs:100 | an entry with a non-string key is skipped wherever it stands, and processing continues |
| `ComponentLoader.UnknownNamePanicsAfterEarlierEntries` | crates/odyssey_game/src/components.rs:110 | an unknown name panics; the earlier entries have already been inserted and are not rolled back |
| `ComponentLoader.ParseFailurePanicsAfterEarlierEntries` | crates/odyssey_game/src/components.rs:120 | data that fails to parse for a known name panics, likewise without rollback |
| `ComponentLoader.AcceptedNameInsertsItsType` | crates/odyssey_game/src/components.rs:115-121 | an accepted name whose data parses inserts a component of that name's type on the entity, and its other components are unchanged |
| `ComponentLoader.InsertSingle` | crates/odyssey_game/src/components.rs:115-122 | a parse failure changes nothing and reports the panic; otherwise the decoded component is inserted |
| `ComponentLoader.InsertDataComponents` | crates/odyssey_game/src/components.rs:93-113 | the loop leaves the world, and reports the outcome, that `Load` describes |

## Left out

- The resolution loop and turn rotation. `PendingActions` and `ActorQueue` are only declared (`actions.rs:17-18`). Their draining, where follow-ups are inserted, and the `Paralyzed` countdown are not in this code.
- AI candidate selection (maximum score, tie-breaking). It depends on `get_ability_actions`, which is not part of this model. Only `score` is modelled.
- `as_any` and `type_id`: runtime reflection with no behaviour.
- `Actions.SpawnWithPosition`: crate::utils is not part of this model. The components the name selects are a parameter, and how the name is looked up is not modelled. A helper that yields no entity is assumed to leave the world as it was; the no-change-on-failure promises of `Actions.ExecutePlaceBouy` and `Actions.Execute` for PlaceBouy rest on that assumption. The order in which the helper files the template's components is not modelled.
- `get_entities_at_position` and the query iteration order are modelled as store enumeration order. The source does not fix either order.
- `Actions.TravelScore`: the score is an unbounded integer. The model does not model i32 overflow of `20 - manhattan`, or of `Vector2I` coordinates.
- `Vectors.Walk`: coordinates are unbounded integers. The model does not model i32 overflow of `target += dir`.
- Entity ids are a counter that is never reused. rogalik's versioned entity handles are not modelled.
- `PlayerCharacter.selected_action` (a boxed action) is not modelled, so components do not depend on actions.
- YAML parsing and serde decoding belong to foreign libraries. Payloads are opaque, and decoding is a function parameter. `Components.DecodeAP` covers only the integer fields of an `AP` mapping.
- A panic is modelled as a returned outcome. The process abort itself, and the panic message text, are not modelled.
- `ActionEvent` has only the three variants the actions emit; events.rs is not part of this model.
- `crates/odyssey/src/main.rs`, `cursor.rs`, `status.rs` and `input.rs`: I/O, drawing and input glue.
- `player.rs`: a thin spawn wrapper. It is also out of line with the `PlayerCharacter` struct's fields.
