# Running key sprint controller, in Dafny

This project models the sprint controller of the Stardew Valley "Running Key"
mod. While the run key is held (or the left stick is latched), the controller
raises the farmer's speed and drains stamina at a throttled rate. It refuses
to run at or below a stamina floor. The mod exists in two versions, and both
are modelled as pure step functions.

- **Current version** (`ModEntry.cs`, modules `Sprint` and `SprintSessions`).
  Each farmer has a `PlayerRunState` in a map keyed by multiplayer id, created
  lazily. On each tick the controller updates the gamepad latch, checks the
  run gate (a key or the latch, the farmer moving, stamina above the floor),
  and then either runs or restores the baseline speed it captured when the run
  began. Day start and save load reset the map.
- **Earlier version** (`RunningKey/ModEntry.cs`, modules `RunningKey` and
  `RunningKeySessions`). A single global state. The boost is a percentage of a
  day-start baseline, adjusted for rain, snow, flooring and hoed dirt. Speed
  is set to the truncated boost plus 5 and is never restored. Day end zeroes
  the baseline, which closes the run gate until the next day start.

Shared pieces:

- `Numeric` holds C#'s truncating integer division and float-to-int cast, and
  the percentage helpers.
- `Host` holds the farmer record, the tile kind and the gamepad latch used by
  both versions.

Every host query is a parameter of the handler that uses it:

- the key and stick state;
- `isMoving`;
- the tick counter;
- weather;
- the terrain feature under the farmer;
- the list of buff speeds.

Each handler returns the new controller state together with the farmer's
new speed and stamina.

Two behaviours of the current version follow from the contracts:

- **Boost can outlast the stamina floor.** While the stick stays pushed, the
  latch keeps `IsRunning` true. So when the run gate closes (stamina at the
  floor, or the farmer stops), no restore happens. Speed stays boosted, and
  nothing is drained, until the stick is released (`LatchOutlastsFloor`).
  The `StaminaLimit` setting's description says reaching the limit disables
  running; with the stick held it only stops the drain.
- **Buffs are folded into the baseline.** The captured baseline includes the
  buff total. One run-then-stop cycle therefore leaves `speed` at its old value
  plus the buff total (`RunStopCycleAddsBuffs`). With no buffs it returns
  exactly to the old value (`KeySessionRestoresSpeed`), whether the run was
  on the key, on the stick, or both.

In the code, the drain window is strict: stamina drains only when
`LastTickLose + StaminaTick < ticks`, so a drain happens `StaminaTick + 1`
ticks after the previous one at the earliest. The running speed is the
float baseline-plus-boost cast to an int, which drops the fraction.

## Model

| member | source | states |
|---|---|---|
| Numeric.IntPercent | ModEntry.cs:68 | `max * limit / 100` on ints truncates toward zero: rounds down for a non-negative product, up for a negative one |
| Numeric.TruncateToInt | ModEntry.cs:221 | the `(int)` cast of a float drops the fraction: floor for non-negative values, ceiling for negative ones |
| Numeric.AddPercent | ModEntry.cs:278-281 | the increase over the base is exactly `percent`% of the base |
| Numeric.RemovePercent | RunningKey/ModEntry.cs:175-178 | the decrease from the base is exactly `percent`% of the base |
| Host.Latch | ModEntry.cs:193-201 | the latch is set iff (already running and stick held) or stick pressed; when it is cleared, running is cleared too; otherwise running is kept |
| Sprint.DefaultSettings | ModEntry.cs:13-33 | with the default settings running adds 3.5 to the baseline, and 270 max stamina gives a floor of 54 |
| Sprint.GetState | ModEntry.cs:60-78 | an existing entry and every other entry are returned unchanged; a new farmer gets baseline = speed, floor = truncated `max * limit / 100`, drain tick 0, all flags false, and is the only key added |
| Sprint.GetSpeedPlayerBuffs | ModEntry.cs:288-302 | the buff total is the float sum of buff speeds truncated toward zero (0 with no buffs) |
| Sprint.BoostDelta | ModEntry.cs:270-272 | the boost is non-negative and equals abs(gain)/20, whatever the baseline |
| Sprint.CalculateFinalSpeed | ModEntry.cs:261-276 | baseline captured as speed + buffs only when no run is under way, otherwise kept; final speed is at least 0 and at least the baseline, positive iff baseline + boost is, and then equal to it |
| Sprint.Run | ModEntry.cs:215-236 | a positive final speed sets speed to its truncation (at least the baseline) and running on; a drain happens iff moving, window elapsed and `StaminaLose > 0`, by exactly `StaminaLose`; the drain tick moves to `ticks` whenever the window elapsed; otherwise running off and the farmer untouched |
| Sprint.Observe | ModEntry.cs:171-201 | the state a tick acts on is the stored or freshly created one with only the latch flags updated; the stick counts only when the gamepad is enabled; running is kept iff the latch holds and the farmer was running |
| Sprint.Tick | ModEntry.cs:165-236 | gate open: run under way, baseline captured once, running iff baseline + boost is positive, and then speed = truncated baseline + boost and a drain of `StaminaLose` on an elapsed window, otherwise the farmer untouched and only the baseline and the running flags changed; gate closed: no drain, and the only speed write is the restore to the baseline when running stopped after a run; stamina drops only by `StaminaLose` and only on an elapsed window; other farmers' entries unchanged |
| Sprint.DayStart | ModEntry.cs:238-254 | every listed farmer (the last of each id) gets the fresh state: floor recomputed, baseline = speed, flags cleared, drain tick 0; unlisted entries unchanged |
| Sprint.FarmerIdsAreListed | ModEntry.cs:238-254 | every id in the set of ids day start resets belongs to some farmer in the list, so day start adds no other key |
| Sprint.SaveLoaded | ModEntry.cs:153-163 | the map holds only the current farmer, with a fresh state whose baseline is its present speed |
| SprintSessions.NoDrainWithinWindow | ModEntry.cs:224-230 | over any ticks whose counter stays within `StaminaTick` of the last drain, stamina and the drain tick do not change |
| SprintSessions.DrainsAreSpaced | ModEntry.cs:224-230 | after a tick that drains, no tick in the next `StaminaTick` ticks drains again |
| SprintSessions.SteadyRunKeepsBaseline | ModEntry.cs:264-268 | over consecutive running ticks the baseline is captured on the first and never again |
| SprintSessions.KeySessionRestoresSpeed | ModEntry.cs:193-212 | with no buffs, any session on the key or the stick followed by a tick with the key up and the stick released leaves the farmer at exactly its starting speed |
| SprintSessions.RunStopCycleAddsBuffs | ModEntry.cs:267 | one run tick then one stop tick leaves speed = starting speed + buff total |
| SprintSessions.LatchOutlastsFloor | ModEntry.cs:193-212 | a farmer running with the stick held and stamina at or below the floor stays running at an unchanged speed and stamina over any ticks that keep the stick held |
| RunningKey.CalculateFinalSpeed | RunningKey/ModEntry.cs:141-168 | the boost is never negative; off terrain features it is max(0, baseline * gain / 100); on hoed dirt with a non-negative baseline it is 0 |
| RunningKey.CalculateFinalSpeedIsReference | RunningKey/ModEntry.cs:143-167 | the boost equals max(0, baseline * (1 + gain%) * weather * terrain - baseline): weather only on terrain features, rain excluding snow, flooring applied after weather |
| RunningKey.Observe | RunningKey/ModEntry.cs:80-96 | the stick button counts only when the pad is connected; the latch is set iff (running and stick pushed beyond 0.1 on an axis, strictly) or button pressed; nothing else changes |
| RunningKey.Run | RunningKey/ModEntry.cs:104-122 | records the old speed; a positive boost sets speed to floor(boost) + 5 whatever the current speed and sets running; stamina drops by `StaminaLose` (unchecked sign) iff the window elapsed; a zero boost changes neither speed nor stamina |
| RunningKey.Tick | RunningKey/ModEntry.cs:78-122 | gate open: the old speed is recorded, the boost is recomputed, and a positive boost sets running, speed = floor(boost) + 5 and a drain of `StaminaLose` on an elapsed window, while a zero boost changes nothing but the recorded speed and boost; gate closed: only the latch flags and stick state change; no baseline means no change to the farmer; speed changes only to floor(boost) + 5; stamina only on an elapsed window; the baseline and floor are never touched |
| RunningKey.DayStart | RunningKey/ModEntry.cs:124-132 | baseline = current speed and floor = `max * limit / 100` truncated toward zero, for either sign; nothing else changes |
| RunningKey.DayEnd | RunningKey/ModEntry.cs:134-138 | only the baseline changes, and afterwards no tick's run gate opens, whatever the inputs and the farmer |
| RunningKeySessions.DayEndSuspendsRunning | RunningKey/ModEntry.cs:98-101 | after day end, no sequence of ticks changes the farmer, and the baseline stays 0 |
| RunningKeySessions.DayStartResumesRunning | RunningKey/ModEntry.cs:124-132 | after day start with a positive speed, key held and stamina above the new floor, the next tick runs |
| RunningKeySessions.OriginalSpeedNeverRead | RunningKey/ModEntry.cs:104-106 | two states that differ only in `originalSpeed` give the same farmer and the same other fields over any ticks |
| RunningKeySessions.NothingRunsBeforeFirstDay | RunningKey/ModEntry.cs:16-36 | before the first day start no tick changes the farmer; with the default settings day start gives 270 max stamina a floor of 54 |
| RunningKeySessions.NoDrainWithinWindow | RunningKey/ModEntry.cs:116-120 | over any ticks whose counter stays within `StaminaTick` of the last drain, stamina and the drain tick do not change |

## Left out

- Host wiring is not modelled: `Entry`, event subscription and `Context.IsWorldReady`. Each handler is a plain function, modelled for a loaded world. `SaveLoaded` in an unloaded world only clears the map, and that case is not modelled.
- `OnGameLaunched` is not modelled: the Generic Mod Config Menu registration and config persistence (`ReadConfig`/`WriteConfig`) are host and UI glue. `ModConfig` is an immutable input record.
- Input polling is not modelled: `Helper.Input`, `GamePad.GetState`, `SButtonState` and `farmer.isMoving()` are host calls. They are replaced by booleans and the stick position as reals.
- `Game1` globals are parameters: the tick counter, rain, snow, terrain lookup by tile and `getAllFarmers`. Buff enumeration becomes a sequence of buff speeds.
- IEEE float rounding is not modelled. This covers `AddPercent`/`RemovePercent`, the sums, the casts and the `0.1f` dead zone, which becomes exact real arithmetic with truncation.
- 32-bit integer overflow is not modelled, for speed, stamina floor products, `(int)FinalAdded + 5` and the tick counter. Integers are unbounded because the mod's values stay far below the limits.
- The earlier version writes and reads `Game1.player.Speed` while running but takes the day-start baseline from `Game1.player.speed`. The model treats both as one field, `Farmer.speed`, which assumes the property reads and writes that field.
- Any clamping the host's `Stamina` setter does is not part of this model. Stamina drops by exactly `StaminaLose`.
- Several members are left out because no code path uses them: the unused `RemovePercent` and the no-op `DayEnd` of the current version, and the unused `GameTickTimeout`, `TickRunningTimeout` and `gamepadRun` of the earlier one. The earlier version's `HoeReductionPercent` setting is kept in the config record but is read nowhere.
- SprintSessions.KeySessionRestoresSpeed: assumes between ticks the host changes the farmer only through the controller (no eating, no buff changes), and covers only a farmer without speed buffs, because with buffs the restore lands on speed plus buffs (see RunStopCycleAddsBuffs).
