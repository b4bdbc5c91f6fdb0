# Minerware arena lifecycle and map templates, in Dafny

Minerware is a PocketMine-MP minigame plugin. Each arena session is
driven by a repeating scheduler task. Once per period, `ArenaTask::onRun`
advances the arena through four phases:

- **waiting**: gather players and count down.
- **starting**: provision the arena's world from the voted map, then count down.
- **ingame**: start and tick microgames.
- **ending**: requeue the players and tear the arena down.

A `Map` is a template arena read from configuration. Its constructor
computes the platform bounds, the centre, the spawns and the two cages,
then registers the map in a process-wide list. `Map::getByName` looks a
map up in that list. `Map::generateWorld` gives each session its own
world folder, named `<map name>-<arena id>`, restored from
`<data folder>/database/backups/<map name>.zip`.

The project has six modules:

- `Wrappers`: `Option` and `Result`.
- `Geometry`: integer points. The configuration holds whole numbers and 24/2 is exact, so integers are enough.
- `Maps` (`maps.dfy`): the template class `Map`, the registry class `MapRegistry` with `GetByName`, the constant `MINI_PLATFORMS`, and the world-name and archive-path derivations.
- `ArenaTask` (`arena_task.dfy`): the tick. The pure function `Step(config, state, env)` is the tick's specification. `Arena.Tick` is the imperative tick, with the same fields and per-player loops as the source. Its postcondition is that the new state, the calls it made and the way it ended are exactly what `Step` gives.
  - The calls a tick makes into players, the engine and the arena manager (tips, messages, sounds, teleports, `deleteMap`, `deleteArena`, ...) are appended to a ghost `trace` of `Effect` values.
  - Each `Env` is the tick's input from the world outside the model: the vote winner and whether the world manager loaded the new world.
- `TickProperties`: lemmas about a single tick.
- `ArenaRuns`: `Run`, which applies `Step` over a sequence of ticks, and lemmas about whole phases.

Behaviours of the code that the model keeps, and that a description of
the design might not suggest:

- Entering `ingame` does not tick a microgame that same tick. The status is read once per tick, so the first microgame starts on the following tick, when `gametime` reaches 1.
- Aborting a countdown does not reset `startingtime`. When the arena is re-entered below 12, the provisioning tick never comes (`ArenaRuns.ProvisioningTick`).
- An abort does not reset `waitingtime` either. Suppose a countdown reaches 0 and the arena enters starting, then aborts, and the minimum is back by the next waiting tick. The timer then counts -1, -2, ... and the arena starts only if the roster fills (`ArenaRuns.WaitingCountdown`).
- An abort calls `deleteMap` once per player, and not at all when the roster is empty. With an empty roster, a world bound on that very tick stays bound (`TickProperties.StartingAbort`).
- World folder names are unique per arena id for one template. Two templates can still produce the same folder name, because `-` may occur in names (`Maps.WorldNamesOfDifferentMapsCanCollide`).
- A full roster moves `waiting` to `starting` at once, on the same tick that still sends the countdown notice.

## Model

| member | source | states |
|---|---|---|
| Maps.MiniPlatformGrid | src/LatamPMDevs/minerware/arena/Map.php:41-52 | The nine mini platforms are 2x2 squares at height 1 on a 3x3 grid of pitch 8 starting at (3, 3), in row order. |
| Maps.MiniPlatformsInsidePlatform | src/LatamPMDevs/minerware/arena/Map.php:38-52 | Every mini-platform cell lies at height 1 inside the 24x24 platform. |
| Maps.MiniPlatformsDisjoint | src/LatamPMDevs/minerware/arena/Map.php:41-52 | No cell belongs to two mini platforms. |
| Maps.MiddleMiniPlatformAtCenter | src/LatamPMDevs/minerware/arena/Map.php:46 | The fifth mini platform is the 2x2 square of cells meeting at the computed platform centre. |
| Maps.MinAndMaxPos | src/LatamPMDevs/minerware/arena/Map.php:83-88 | The first corner is componentwise at most the second, and on each axis the two corners hold the two configured coordinates. |
| Maps.CenterOf | src/LatamPMDevs/minerware/arena/Map.php:89 | The centre is at the minimum corner's height and equidistant from both x edges and both z edges of the 24x24 platform. |
| Maps.SpawnsFrom | src/LatamPMDevs/minerware/arena/Map.php:91-93 | One spawn point per configured entry, in the same order and with the same coordinates. |
| Maps.Map.constructor | src/LatamPMDevs/minerware/arena/Map.php:79-99 | Every field is derived from the configuration as above, and the new map is appended to the registry with earlier maps unchanged. |
| Maps.MapRegistry.constructor | src/LatamPMDevs/minerware/arena/Map.php:36 | The registry starts empty. |
| Maps.MapRegistry.GetByName | src/LatamPMDevs/minerware/arena/Map.php:69-77 | Returns the first registered map with the name. Returns none exactly when no registered map has it. |
| Maps.FirstNamedIsFirst | src/LatamPMDevs/minerware/arena/Map.php:69-77 | The lookup result is a map in the registry with that name, preceded by no map with that name, and it is absent iff no map has that name. |
| Maps.FirstNamedAfterRegister | src/LatamPMDevs/minerware/arena/Map.php:98 | Registering a map never changes an existing lookup hit. A miss becomes the new map when its name matches and stays a miss otherwise. |
| Maps.ZipPath | src/LatamPMDevs/minerware/arena/Map.php:136-138 | The archive path is the backups directory of the data folder, followed by the map name and `.zip`. |
| Maps.ZipPathInjective | src/LatamPMDevs/minerware/arena/Map.php:136-138 | Distinct templates have distinct archive paths. |
| Maps.Map.GenerateWorld | src/LatamPMDevs/minerware/arena/Map.php:140-157 | Succeeds iff the world loads. The world is then the folder `<name>-<id>` under the server's worlds directory; otherwise it fails with "Error Generating world". |
| Maps.WorldNameInjective | src/LatamPMDevs/minerware/arena/Map.php:141 | For one template, different arena ids give different world names and world directories. |
| Maps.WorldNamesOfDifferentMapsCanCollide | src/LatamPMDevs/minerware/arena/Map.php:141 | Two different templates can produce the same world name. |
| ArenaTask.Arena.Tick | src/minerware/tasks/ArenaTask.php:37-149 | One tick leaves the arena in `Step`'s state, appends exactly `Step`'s calls to the trace, and throws exactly when `Step` does. |
| ArenaTask.Arena.TickWaiting | src/minerware/tasks/ArenaTask.php:42-75 | The waiting branch, implemented with per-player loops, equals `WaitingTick`. |
| ArenaTask.Arena.TickStarting | src/minerware/tasks/ArenaTask.php:78-126 | The starting branch equals `StartingTick`, including stopping with the timer already decremented when world generation throws. |
| ArenaTask.Arena.Provision | src/minerware/tasks/ArenaTask.php:80-91 | At the provisioning tick the voted map and its new world are bound, then each player's inventories are cleared and the player is teleported to a spawn. A failed generation changes nothing. |
| ArenaTask.Arena.CheckRoster | src/minerware/tasks/ArenaTask.php:92-104 | Equals `AbortCheck`: under the minimum the arena goes back to waiting and every player is notified, sent to the lobby and cleared. `deleteMap` runs once per player. |
| ArenaTask.Arena.ShowStartTips | src/minerware/tasks/ArenaTask.php:105-123 | Appends exactly the starting tips (and toast sounds) for the timer value. |
| TickProperties.WaitingUnderpopulated | src/minerware/tasks/ArenaTask.php:43-47 | Under the minimum, waitingtime is reset to 40, nothing else changes, and the only calls are one "need more players" tip per player, in roster order. |
| TickProperties.WaitingPopulated | src/minerware/tasks/ArenaTask.php:48-75 | With enough players, waitingtime drops by one. The arena moves to starting iff the roster is full or the timer reached 0. The capacity message is sent iff the roster is full. |
| TickProperties.WaitingCountdownBands | src/minerware/tasks/ArenaTask.php:56-71 | A player gets the plain countdown iff the new timer is 6..40, and the urgent countdown with a click iff it is 1..5. |
| TickProperties.StartingDecrement | src/minerware/tasks/ArenaTask.php:79-84 | startingtime drops by one. The tick throws iff the new value is 11 and the world does not load, and then nothing else changes. |
| TickProperties.StartingProvisioning | src/minerware/tasks/ArenaTask.php:80-91 | The world is bound once iff the new timer is 11 and it loads. With enough players the voted map and the world named after the arena id stay bound, and every player is cleared and teleported; otherwise the bindings are unchanged. |
| TickProperties.StartingFinalStatus | src/minerware/tasks/ArenaTask.php:92-126 | After a starting tick the status is ingame at timer 0, else waiting under the minimum, else starting. |
| TickProperties.StartingAbort | src/minerware/tasks/ArenaTask.php:92-104 | An abort deletes the map once per player, and tells each player, sends them to the lobby and clears their inventories. The bindings are released iff the roster is non-empty. |
| TickProperties.StartingTipBands | src/minerware/tasks/ArenaTask.php:105-123 | A player gets the plain starting bar iff the new timer is 4..10, and the urgent bar with a toast iff it is 1..3. |
| TickProperties.InGameStep | src/minerware/tasks/ArenaTask.php:129-136 | gametime rises by one and the microgame ticks once. The next microgame starts, before that tick, exactly when gametime becomes 1. |
| TickProperties.EndingStep | src/minerware/tasks/ArenaTask.php:138-147 | endingtime drops by one. At 0 every player is requeued, the map is deleted and the arena is removed, each once and the removal last; otherwise nothing else happens. |
| TickProperties.OneBranchPerTick | src/minerware/tasks/ArenaTask.php:41 | A tick changes only its own phase's timer, never the id or the roster. Only starting can throw, and ingame and ending never leave their phase (given the assumption about collaborator calls under "Left out"). |
| TickProperties.ForEachArenaCalls | src/minerware/tasks/ArenaTask.php:95-103 | Per-player loops never bind or remove the arena. Only the abort loop deletes the map, once per player. |
| ArenaRuns.Run | src/minerware/tasks/ArenaTask.php:37-149 | Successive ticks produce at most one result per input, and at least one when there is an input. |
| ArenaRuns.RunStopsOnlyOnThrow | src/minerware/tasks/ArenaTask.php:37-149 | Every tick of a run but the last returns normally, and a run shorter than its inputs ends on a tick that throws. |
| ArenaRuns.RunAt | src/minerware/tasks/ArenaTask.php:37-149 | Tick k of a run is one tick applied to the state the previous tick left. |
| ArenaRuns.UnderpopulatedKeepsWaiting | src/minerware/tasks/ArenaTask.php:43-47 | Under the minimum, tick j exists for every input, returns, and leaves the arena waiting with the timer at 40. |
| ArenaRuns.WaitingCountdown | src/minerware/tasks/ArenaTask.php:48-75 | With enough players and no full roster, tick j of a countdown from w leaves the timer at w - 1 - j and nothing else changed. It stays waiting until the w-th tick enters starting with the timer at 0. From w <= 0 the timer goes negative and the arena stays waiting. |
| ArenaRuns.ProvisioningTick | src/minerware/tasks/ArenaTask.php:79-91 | Over consecutive starting ticks, the world is bound at most once: on the tick that starts at startingtime 12, if the run reaches it and the world loads. |
| ArenaRuns.StartingCountdown | src/minerware/tasks/ArenaTask.php:78-126 | With enough players and a world that loads, tick j of a countdown from T leaves the timer at T - 1 - j, ingame at 0, and holds the voted map and its world from the provisioning tick on. |
| ArenaRuns.StartingReachesInGame | src/minerware/tasks/ArenaTask.php:78-126 | With enough players and a world that loads, a starting timer at T reaches ingame on the T-th tick. The arena then holds the voted map and its world when T >= 12, and its previous bindings otherwise. |
| ArenaRuns.InGameCounts | src/minerware/tasks/ArenaTask.php:129-136 | Tick j of an in-game run exists for every input, returns, and leaves gametime raised by j + 1 with nothing else changed. |
| ArenaRuns.InGameRun | src/minerware/tasks/ArenaTask.php:129-136 | An in-game run lasts as long as its inputs and ticks one microgame per tick. The first microgame starts once, if the run reaches gametime 1, and never otherwise. |
| ArenaRuns.EndingCounts | src/minerware/tasks/ArenaTask.php:138-147 | Tick j of an ending run leaves endingtime lowered by j + 1, and the map and world unbound from the tick that reaches 0 on. |
| ArenaRuns.EndingRun | src/minerware/tasks/ArenaTask.php:138-147 | Over an ending run the map is deleted and the arena removed exactly once if the timer reaches 0 within the run, and never otherwise. |

## Left out

- Translations, message texts, colour codes and the starting progress bar (`Utils::getStartingBar`) are left out. A notice is identified by its kind and timer value.
- Sounds, inventory clearing, teleports and lobby chunk loading are engine calls. They appear only as entries in the ghost trace.
- `Arena` itself (`setStatus`, `tpSpawn`, `deleteMap`, the vote counter and the microgame list) is not part of this model. `deleteMap` is taken to unbind the map and the world. The vote winner is an input to each tick.
- `ArenaManager::join` and `deleteArena` are recorded as trace entries. What they do to other arenas is not modelled.
- The scheduler, the singletons (`Minerware::getInstance`, `DataManager`, `ArenaManager`) and the task constructor are left out. The server path and the player bounds are in `Config`.
- Microgame internals (`startNextMicrogame`, `tick`) are left out. A tick records them only as `MicrogameStarted` and `MicrogameTicked`.
- `TickProperties.OneBranchPerTick`, `ArenaRuns.InGameCounts`, `ArenaRuns.InGameRun`, `ArenaRuns.EndingCounts`: these assume that the calls a tick makes leave this arena's status, timers and roster untouched. The calls are the microgame's `tick`, the player teleports, `ArenaManager::join` and `deleteArena`. The move from ingame to ending would happen inside the microgame tick, which is not modelled. So "ingame never leaves its phase" and "an in-game run lasts as long as its inputs" hold only under that assumption.
- `mkdir`, the archive extraction and `loadWorld` are file-system and server I/O. The boolean `loaded` of each tick stands for their outcome.
- `ArenaRuns.Run`: the roster is an input that stays fixed for the whole run. Joins and quits are not modelled. Neither are roster changes that the tick's own calls might cause (the teleport to the lobby, `ArenaManager::join`).
- `Maps.Map.constructor`: reading the `DataHolder`, and the errors it raises for missing keys, are left out. The configuration arrives as a well-formed `MapData`.
- `Geometry`: `Vector3` holds floats. The model uses integers, which is exact for configured whole-number coordinates and for 24 / 2.
- `DIRECTORY_SEPARATOR` is fixed to "/".
- The status string can only hold the four phases, so an unknown status, which the source silently ignores, cannot occur.
- The map getters are modelled as the constant fields they return.
