# Aquarium game core, modelled in Dafny

This project models the state shapes and inline state transitions of a small
aquarium game. The player's fish eats smaller fish and avoids bigger ones in a
bounded tank. The game advances through scripted levels, each with a
population table and score thresholds, and the collision pipeline reports
what happened as a tagged game event.

- `Core.dfy` (module `Core`, for `src/Core.h`):
  - the `AwaitFrames` frame gate, as a class plus the pure `TickStep`/`Ticks` specification;
  - the `Creature` and `PowerUp` records, as classes with their setters and getters;
  - the `GameEvent` tagged record, as a datatype with its seven type tests.
- `Aquarium.dfy` (module `Aquarium`, for `src/Aquarium.h`):
  - the creature kinds and the population node;
  - `AquariumLevel`, with its base constructor and the five level tables as named constructors `Level0` to `Level4`;
  - the `PlayerCreature` stats, the `Aquarium` arena's configuration, and the `AquariumGameScene` last-event slot.
- `Setup.dfy` (module `Setup`): the five levels the application creates, with their target and power-up scores (`src/ofApp.cpp:35-39`).

Modelling choices:
- C++ `int` is the newtype `Core.int32`. Positions, radii and other `float`/`double` values are `real`.
- Each `shared_ptr` to a creature, power-up, player, arena or level is either a plain object reference or an `Option` of one (null is `None`). The scene's `shared_ptr<GameEvent>` is the exception: it is an `Option` of an event value (see "## Left out").
- `PlayerCreature` inherits from `Creature` in the source. Here it holds its creature part in a `const creature` field, and its direction tests read that part's `dx`/`dy`.
- `GameLevel`'s level number is a field of `AquariumLevel`, the only class derived from `GameLevel`.
- `AquariumLevelPopulationNode` is a value (`PopulationNode`), because no shown code changes a node in place. `AquariumLevel` keeps its table as a `seq` field, and its named constructors append to it one node at a time, as the source's `push_back` calls do.
- Each mutator states its whole new state through a ghost `State()`/`Stats()` snapshot: the new snapshot is the old one with the assigned field replaced.

The central result is the frame gate's period. `TicksPeriodic` says that, on a fresh gate, call k (counting from 1) returns true exactly when k is a multiple of `frames + 1`, and that every call returns true when `frames <= 0`. `AwaitFrames.Tick` is proved to perform one `TickStep`, so a sequence of ticks is `Ticks`. The counter stays in `0..frames`, and a tick that returns true leaves the gate as a fresh one.

Notes on the code:
- `GameEvent` has no type test for NEW_LEVEL. Such an event satisfies none of the seven tests (`ExactlyOneTestHolds`).
- `isXDirectionActive`/`isYDirectionActive` return a `float` (1.0 or 0.0) although they answer a yes/no question.
- Nothing in the headers restricts the player's direction components to {-1, 0, 1}; they are arbitrary `float`s.

## Model

| member | source | states |
|---|---|---|
| `Core.TickStep` | src/Core.h:12-19 | a tick that fires leaves the counter at 0; one that does not fire moves the counter up, still at most `frames`; an in-range counter stays in range |
| `Core.Ticks` | src/Core.h:12-19 | the answers of n successive ticks, one per call |
| `Core.TicksFromCounter` | src/Core.h:11-19 | from counter c with 0 <= c <= frames, call k+1 fires iff c+k+1 is a multiple of frames+1 |
| `Core.TicksAlwaysFire` | src/Core.h:13-18 | a gate with frames <= 0 fires on every call |
| `Core.TicksPeriodic` | src/Core.h:11-19 | on a fresh gate, call k fires iff `FiresOnCall(frames, k)`: k is a multiple of frames+1, or frames <= 0 |
| `Core.GateWaitsThenFires` | src/Core.h:11-19 | a fresh gate with frames >= 0 refuses its first `frames` calls and fires on call frames+1 |
| `Core.AwaitFrames.constructor` | src/Core.h:11 | stores the frame count, counter 0, invariant holds |
| `Core.AwaitFrames.Tick` | src/Core.h:12-19 | one `TickStep` on the gate's state (never overflows int32); the counter stays in 0..frames; after a true answer the gate equals a fresh one |
| `Core.Creature.constructor` | src/Core.h:56-67 | stores x, y, speed, collision radius and value; dx, dy, width and height are 0 |
| `Core.Creature.GetCollisionRadius` | src/Core.h:85 | returns the creature's collision radius |
| `Core.Creature.SetCollisionRadius` | src/Core.h:85-86 | `GetCollisionRadius()` returns the new radius; no other field changes |
| `Core.Creature.GetX` | src/Core.h:88 | returns the creature's x position |
| `Core.Creature.GetY` | src/Core.h:89 | returns the creature's y position |
| `Core.Creature.GetSpeed` | src/Core.h:90 | returns the creature's speed |
| `Core.Creature.SetSpeed` | src/Core.h:90-91 | `GetSpeed()` returns the new speed; no other field changes |
| `Core.Creature.GetValue` | src/Core.h:98 | returns the creature's score value |
| `Core.PowerUp.constructor` | src/Core.h:114-125 | stores x and y; width, height and collision radius are 0 |
| `Core.PowerUp.GetX` | src/Core.h:135 | returns the power-up's x position |
| `Core.PowerUp.GetY` | src/Core.h:136 | returns the power-up's y position |
| `Core.PowerUp.GetCollisionRadius` | src/Core.h:137 | returns the power-up's collision radius |
| `Core.PowerUp.SetCollisionRadius` | src/Core.h:137-138 | `GetCollisionRadius()` returns the new radius; nothing else changes |
| `Core.PowerUp.GetPowerUpType` | src/Core.h:139 | returns the power-up's type tag |
| `Core.PowerUp.SetPowerUpType` | src/Core.h:139-140 | `GetPowerUpType()` returns the new type; nothing else changes |
| `Core.GameEvent.IsCollisionEvent` | src/Core.h:178 | true exactly when the tag is COLLISION, the enumerator the collision test answers for |
| `Core.GameEvent.IsPowerUpEvent` | src/Core.h:179 | true exactly when the tag is POWERUP |
| `Core.GameEvent.IsCreatureAddedEvent` | src/Core.h:180 | true exactly when the tag is CREATURE_ADDED |
| `Core.GameEvent.IsCreatureRemovedEvent` | src/Core.h:181 | true exactly when the tag is CREATURE_REMOVED |
| `Core.GameEvent.IsGameOver` | src/Core.h:182 | true exactly when the tag is GAME_OVER |
| `Core.GameEvent.IsGameExit` | src/Core.h:183 | true exactly when the tag is GAME_EXIT |
| `Core.GameEvent.IsNoneEvent` | src/Core.h:184 | true exactly when the tag is NONE |
| `Core.DefaultEvent` | src/Core.h:159-184 | the default event is NONE with null participants; `isNoneEvent` holds and the other six tests fail |
| `Core.CreatureEvent` | src/Core.h:163-167 | stores exactly the tag, creature A and creature B; the power-up slot is null |
| `Core.PowerUpEvent` | src/Core.h:169-174 | stores the tag, the acting creature in slot A and the power-up; slot B is null |
| `Core.TestedKind` | src/Core.h:146-184 | each type test compares against an enumerator other than NEW_LEVEL, and the tests are in one-to-one correspondence with those enumerators |
| `Core.TestFor` | src/Core.h:146-184 | every enumerator except NEW_LEVEL has a type test |
| `Core.AnswerMeansKind` | src/Core.h:178-184 | a type test holds exactly of events whose tag is its enumerator |
| `Core.TestsExclusive` | src/Core.h:178-184 | no two different type tests hold of one event |
| `Core.ExactlyOneTestHolds` | src/Core.h:146-184 | of the seven tests, the list that holds is exactly the test for the event's tag, or empty for NEW_LEVEL |
| `Aquarium.NewPopulationNode` | src/Aquarium.h:35-39 | a new node stores its kind and target and has no live creatures; it meets the node invariant iff the target is non-negative |
| `Aquarium.ResetCounts` | src/Aquarium.h:52 | same length, same kinds and targets, every live count 0; keeps the node invariant |
| `Aquarium.ResetCountsIdempotent` | src/Aquarium.h:52 | resetting the population twice is the same as resetting it once |
| `Aquarium.LevelTablesStartEmpty` | src/Aquarium.h:232-287 | every level table meets the node invariant and has all live counts at 0 |
| `Aquarium.AquariumLevel.constructor` | src/Aquarium.h:48-49 | level score 0, the given level number, target and power-up scores; an empty table |
| `Aquarium.AquariumLevel.AddNode` | src/Aquarium.h:235-236 | appends the node at the end of the table (each `push_back`); everything else unchanged; the node invariant is kept |
| `Aquarium.AquariumLevel.GetLevelNumber` | src/Core.h:198 | returns the level number stored by the constructor |
| `Aquarium.AquariumLevel.Level0` | src/Aquarium.h:232-237 | the base state with table [(NPCreature, 8), (NewNemoCreature, 4)], all live counts 0 |
| `Aquarium.AquariumLevel.Level1` | src/Aquarium.h:241-248 | the base state with table [(NPCreature, 12), (NewNemoCreature, 6), (FastNPCreature, 6)] |
| `Aquarium.AquariumLevel.Level2` | src/Aquarium.h:253-261 | the base state with table [(NPCreature, 30), (BiggerFish, 2), (FastNPCreature, 8)] |
| `Aquarium.AquariumLevel.Level3` | src/Aquarium.h:266-273 | the base state with table [(BiggerFish, 20), (FastNPCreature, 20), (SharkCreature, 6)] |
| `Aquarium.AquariumLevel.Level4` | src/Aquarium.h:278-284 | the base state with table [(BiggerFish, 5), (FastNPCreature, 5), (SharkCreature, 15)] |
| `Aquarium.AquariumLevel.PopulationReset` | src/Aquarium.h:52 | the table becomes `ResetCounts` of the old one; scores and level number unchanged |
| `Aquarium.AquariumLevel.LevelReset` | src/Aquarium.h:53 | level score 0, population reset, target score, power-up score and level number unchanged |
| `Aquarium.AquariumLevel.SetPowerUpScore` | src/Aquarium.h:59 | only the power-up score changes |
| `Aquarium.PlayerCreature.constructor` | src/Aquarium.h:71-99 | score 0, 3 lives, power 1, damage debounce 0, delta time 0; the creature part starts at (x, y) and at rest |
| `Aquarium.PlayerCreature.SetLives` | src/Aquarium.h:78 | lives become n; score, power, debounce unchanged |
| `Aquarium.PlayerCreature.IsXDirectionActive` | src/Aquarium.h:80 | 1.0 or 0.0, and non-zero iff dx is non-zero |
| `Aquarium.PlayerCreature.IsYDirectionActive` | src/Aquarium.h:81 | 1.0 or 0.0, and non-zero iff dy is non-zero |
| `Aquarium.PlayerCreature.GetDx` | src/Aquarium.h:82 | returns the creature part's horizontal direction |
| `Aquarium.PlayerCreature.GetDy` | src/Aquarium.h:83 | returns the creature part's vertical direction |
| `Aquarium.PlayerCreature.GetScore` | src/Aquarium.h:85 | returns the player's score |
| `Aquarium.PlayerCreature.GetLives` | src/Aquarium.h:86 | returns the player's lives |
| `Aquarium.PlayerCreature.GetPower` | src/Aquarium.h:87 | returns the player's power |
| `Aquarium.PlayerCreature.AddToScore` | src/Aquarium.h:89 | the score grows by exactly amount * weight (weight 1 by default); lives, power, debounce unchanged |
| `Aquarium.PlayerCreature.IncreasePower` | src/Aquarium.h:92 | power grows by exactly the given value; score, lives, debounce unchanged |
| `Aquarium.Aquarium.constructor` | src/Aquarium.h:163-200 | population cap 0, current level 0, no creatures, levels or power-ups |
| `Aquarium.Aquarium.SetBounds` | src/Aquarium.h:170 | `GetWidth()`/`GetHeight()` return w and h; the creature count and everything else unchanged |
| `Aquarium.Aquarium.SetMaxPopulation` | src/Aquarium.h:171 | only the cap changes; the creature count is unchanged |
| `Aquarium.Aquarium.GetPowerUpCount` | src/Aquarium.h:177 | returns the number of power-ups in the arena |
| `Aquarium.Aquarium.GetCanCollidePowerUp` | src/Aquarium.h:178 | returns the power-up collision flag |
| `Aquarium.Aquarium.SetCanCollidePowerUp` | src/Aquarium.h:178-179 | `GetCanCollidePowerUp()` returns the new flag; nothing else changes |
| `Aquarium.Aquarium.GetCreatureCount` | src/Aquarium.h:184 | returns the number of creatures in the arena (not the staged ones) |
| `Aquarium.Aquarium.GetWidth` | src/Aquarium.h:185 | returns the arena width |
| `Aquarium.Aquarium.GetHeight` | src/Aquarium.h:186 | returns the arena height |
| `Aquarium.AquariumGameScene.constructor` | src/Aquarium.h:212-227 | stores player, arena and name; no last event; the update throttle is a fresh 5-frame gate |
| `Aquarium.AquariumGameScene.GetLastEvent` | src/Aquarium.h:214 | returns the remembered event, `None` before any is set |
| `Aquarium.AquariumGameScene.SetLastEvent` | src/Aquarium.h:214-215 | `GetLastEvent()` returns the event just set: only the latest is kept |
| `Aquarium.AquariumGameScene.GetPlayer` | src/Aquarium.h:216 | returns the player given to the constructor |
| `Aquarium.AquariumGameScene.GetAquarium` | src/Aquarium.h:217 | returns the arena given to the constructor |
| `Aquarium.AquariumGameScene.GetName` | src/Aquarium.h:218 | returns the scene name given to the constructor |
| `Aquarium.SceneThrottlePeriod` | src/Aquarium.h:227 | the scene's 5-frame gate lets through exactly every sixth call, starting with the sixth |
| `Setup.GameLevels` | src/ofApp.cpp:35-39 | five levels numbered 0-4 with target scores 10, 15, 20, 35, 50, power-up scores 5, 7, 10, 17, 25, their tables, and level score 0 |

## Left out

- `Aquarium.AquariumLevel.PopulationReset`: the body of `populationReset` is in Aquarium.cpp, which is not part of this model. The model assumes that `populationReset` sets every live count to 0 and keeps the kinds and targets. `LevelReset` inherits this assumption.
- `Aquarium.Aquarium.constructor`: its body is in Aquarium.cpp. The defaults (population cap 0, level 0) and the empty containers are what the header pins down. The bounds are taken to be stored. `m_canCollidePowerUp` is never initialised in the header, so the constructor promises nothing about it.
- `Aquarium.PlayerCreature.constructor`: its body is in the .cpp. The collision radius and score value it passes to `Creature` are therefore parameters here.
- `Core.PowerUp.constructor`: `m_power_upType` is never initialised by the source constructor, so no type is promised. `PowerUpType` has the single enumerator Health.
- `Aquarium.PlayerCreature.AddToScore` and `Aquarium.PlayerCreature.IncreasePower`: these require that the new value fits in 32 bits, because signed overflow is undefined in C++. For `AddToScore` both the product `amount * weight` and the sum `score + amount * weight` must fit. Wrap-around is not modelled.
- `Aquarium.Aquarium.GetCreatureCount` and `GetPowerUpCount` return the container size as a `nat`. The source's narrowing from `size_t` to `int` is not modelled.
- Floating point: `float`/`double` values are exact reals, with no rounding.
- Operations that are only declared in the headers, with bodies in .cpp files that are not part of this model, are left out, because no contract for them could come from the source:
  - `AquariumLevel`: `ConsumePopulation`, `Repopulate`, `isCompleted`, `canSpawnPowerUp`, and `GameLevel`'s pure virtual `isCompleted`/`canSpawnPowerUp`.
  - `Creature` and `PowerUp`: `checkCollision`, `move`, `bounce`, `normalize`, `setBounds` and `draw`.
  - `PlayerCreature`: `move`, `update`, `changeSpeed`, `setDirection`, `gainLive`, `loseLife` and `reduceDamageDebounce`.
  - `Aquarium`: `addCreature`, `removeCreature`, `clearCreatures`, `addAquariumLevel`, `update`, `Repopulate`, `SpawnCreature`, `addPowerUp`, `SpawnPowerUp`, `clearPowerUps`, `getCreatureAt` and `getPowerUpAt`.
  - Free functions and scene methods: `DetectAquariumCollisions`, `DetectPowerUpCollisions`, `AquariumGameScene::Update`/`Draw`/`paintAquariumHUD`, and `GameEvent::print`.
- `NPCreature`, `BiggerFish`, `FastNPCreature`, `NewNemoCreature`, `SharkCreature` and `HealthPowerUp` are left out: their constructors (which set the creature type) and movement rules are only declared. The creature kinds themselves are modelled as `AquariumCreatureType`.
- Sprites and rendering are left out: images and drawing, so `setFlipped`, `setSprite` and the sprite fields are dropped. This covers `GameSprite` and `AquariumSpriteManager`.
- The scene classes, `GameSceneManager` and the enum-to-string helpers are left out: they are presentation plumbing and only declared.
- `src/ofApp.cpp` is left out apart from its level constants: window, input, music and HUD code.
- Reference counting and ownership of `shared_ptr` are not modelled.
- `Aquarium.AquariumGameScene.SetLastEvent` and `GetLastEvent`: `m_lastEvent` (src/Aquarium.h:225) is a `shared_ptr<GameEvent>`, and `GameEvent`'s fields are public and mutable (src/Core.h:159-161). Here the slot holds an event value. A change made to the event through another pointer to it is therefore not seen through the scene, and the model does not capture that aliasing.
