/** Properties of the current controller over runs of consecutive ticks in
    which the host changes nothing but what the tick inputs report. */
module SprintSessions {
  import opened Host
  import opened Sprint

  /** Feeds the inputs to the per-tick handler in order, one tick each. */
  function Ticks(config: ModConfig, players: Players, f: Farmer, inputs: seq<TickInput>): Outcome
    decreases |inputs|
  {
    if |inputs| == 0 then Outcome(players, f)
    else
      var o := Ticks(config, players, f, inputs[..|inputs| - 1]);
      Tick(config, o.players, o.farmer, inputs[|inputs| - 1])
  }

  /** Every tick of the run opens the run gate. */
  predicate RunsEveryTick(config: ModConfig, players: Players, f: Farmer, inputs: seq<TickInput>)
    decreases |inputs|
  {
    if |inputs| == 0 then true
    else
      var earlier := inputs[..|inputs| - 1];
      var last := inputs[|inputs| - 1];
      var o := Ticks(config, players, f, earlier);
      && RunsEveryTick(config, players, f, earlier)
      && RunGate(Observe(config, o.players, o.farmer, last), o.farmer, last)
  }

  /** The gamepad contributes nothing on this tick. */
  predicate NoPad(input: TickInput) {
    !input.thumbHeld && !input.stickPressed
  }

  /** The farmer keeps its id, its max stamina and its buffs through ticks. */
  lemma {:induction false} TicksKeepFarmer(config: ModConfig, players: Players, f: Farmer, inputs: seq<TickInput>)
    ensures var o := Ticks(config, players, f, inputs);
      o.farmer == f.(speed := o.farmer.speed, stamina := o.farmer.stamina)
    ensures f.id in Ticks(config, players, f, inputs).players || |inputs| == 0
    decreases |inputs|
  {
    if |inputs| > 0 {
      TicksKeepFarmer(config, players, f, inputs[..|inputs| - 1]);
    }
  }

  /** Drain throttle: while the tick counter stays within `staminaTick` of the
      last drain, no tick drains stamina and the drain tick stays put. With a
      monotone tick counter, two drains are thus more than `staminaTick` ticks apart. */
  lemma {:induction false} NoDrainWithinWindow(config: ModConfig, players: Players, f: Farmer, inputs: seq<TickInput>)
    requires f.id in players
    requires forall k :: 0 <= k < |inputs| ==> inputs[k].ticks <= players[f.id].lastTickLose + config.staminaTick
    ensures Ticks(config, players, f, inputs).farmer.stamina == f.stamina
    ensures f.id in Ticks(config, players, f, inputs).players
    ensures Ticks(config, players, f, inputs).players[f.id].lastTickLose == players[f.id].lastTickLose
    decreases |inputs|
  {
    if |inputs| > 0 {
      var earlier := inputs[..|inputs| - 1];
      NoDrainWithinWindow(config, players, f, earlier);
      TicksKeepFarmer(config, players, f, earlier);
    }
  }

  /** A tick that drains opens a new window: no tick in the following
      `staminaTick` ticks drains again. */
  lemma {:induction false} DrainsAreSpaced(config: ModConfig, players: Players, f: Farmer, first: TickInput, inputs: seq<TickInput>)
    requires Tick(config, players, f, first).farmer.stamina != f.stamina
    requires forall k :: 0 <= k < |inputs| ==> inputs[k].ticks <= first.ticks + config.staminaTick
    ensures var o := Tick(config, players, f, first);
      Ticks(config, o.players, o.farmer, inputs).farmer.stamina == o.farmer.stamina
  {
    var o := Tick(config, players, f, first);
    assert o.players[f.id].lastTickLose == first.ticks;
    NoDrainWithinWindow(config, o.players, o.farmer, inputs);
  }

  /** The baseline a run starts from: kept when a run is already under way,
      otherwise the farmer's speed plus its buffs. */
  function Baseline(players: Players, f: Farmer): int {
    if f.id in players && players[f.id].stateChanged then players[f.id].baseSpeed
    else f.speed + GetSpeedPlayerBuffs(f.buffSpeeds)
  }

  /** Capture once: over any run of consecutive running ticks the baseline is
      captured on the first tick and never again, so boosts do not stack. */
  lemma {:induction false} SteadyRunKeepsBaseline(config: ModConfig, players: Players, f: Farmer, inputs: seq<TickInput>)
    requires 0 < |inputs|
    requires RunsEveryTick(config, players, f, inputs)
    ensures f.id in Ticks(config, players, f, inputs).players
    ensures Ticks(config, players, f, inputs).players[f.id].stateChanged
    ensures Ticks(config, players, f, inputs).players[f.id].baseSpeed == Baseline(players, f)
    decreases |inputs|
  {
    var earlier := inputs[..|inputs| - 1];
    var last := inputs[|inputs| - 1];
    var o := Ticks(config, players, f, earlier);
    TicksKeepFarmer(config, players, f, earlier);
    if |earlier| > 0 {
      SteadyRunKeepsBaseline(config, players, f, earlier);
      assert Baseline(o.players, o.farmer) == Baseline(players, f);
    } else {
      assert o == Outcome(players, f);
    }
  }

  /** What a session keeps true when the farmer has no speed buffs:
      a captured baseline is the speed the session started from, and without
      one the farmer is at that speed. */
  predicate HoldsStartSpeed(players: Players, f: Farmer, startSpeed: int) {
    if f.id in players && players[f.id].stateChanged then players[f.id].baseSpeed == startSpeed
    else f.speed == startSpeed
  }

  lemma {:induction false} KeyTicksHoldStartSpeed(config: ModConfig, players: Players, f: Farmer, startSpeed: int, inputs: seq<TickInput>)
    requires GetSpeedPlayerBuffs(f.buffSpeeds) == 0
    requires HoldsStartSpeed(players, f, startSpeed)
    ensures var o := Ticks(config, players, f, inputs); HoldsStartSpeed(o.players, o.farmer, startSpeed)
    decreases |inputs|
  {
    if |inputs| > 0 {
      var earlier := inputs[..|inputs| - 1];
      KeyTicksHoldStartSpeed(config, players, f, startSpeed, earlier);
      TicksKeepFarmer(config, players, f, earlier);
    }
  }

  /** Restore: with no speed buffs, a farmer that runs for any number of
      ticks, on the key or the stick, and then lets go of both is back at
      exactly its starting speed. */
  lemma {:induction false} KeySessionRestoresSpeed(config: ModConfig, players: Players, f: Farmer, inputs: seq<TickInput>, stop: TickInput)
    requires GetSpeedPlayerBuffs(f.buffSpeeds) == 0
    requires f.id !in players || !players[f.id].stateChanged
    requires NoPad(stop) && !stop.keyDown
    ensures Ticks(config, players, f, inputs + [stop]).farmer.speed == f.speed
  {
    KeyTicksHoldStartSpeed(config, players, f, f.speed, inputs);
    assert (inputs + [stop])[..|inputs|] == inputs;
  }

  /** One run-then-stop cycle on the key leaves the farmer at its starting
      speed plus its buff total, because the captured baseline includes buffs. */
  lemma {:induction false} RunStopCycleAddsBuffs(config: ModConfig, players: Players, f: Farmer, go: TickInput, stop: TickInput)
    requires f.id !in players || !players[f.id].stateChanged
    requires NoPad(go) && go.keyDown && go.isMoving
    requires f.stamina > Observe(config, players, f, go).finalMinStamina as real
    requires NoPad(stop) && !stop.keyDown
    ensures Ticks(config, players, f, [go, stop]).farmer.speed == f.speed + GetSpeedPlayerBuffs(f.buffSpeeds)
  {
    assert [go, stop][..1] == [go];
    assert [go][..0] == [];
    var o1 := Tick(config, players, f, go);
    assert Ticks(config, players, f, [go]) == o1;
    var t := o1.players[f.id];
    assert t.stateChanged && t.baseSpeed == f.speed + GetSpeedPlayerBuffs(f.buffSpeeds);
    var s2 := Observe(config, o1.players, o1.farmer, stop);
    assert !RunGate(s2, o1.farmer, stop) && RestoreDue(s2);
  }

  /** The latch outlasts the stamina floor: a farmer already running with
      the stick held, at or below the floor, stays running and keeps its
      boosted speed over any ticks that keep the stick held. Nothing is drained
      and nothing is restored until the stick is released. */
  lemma {:induction false} LatchOutlastsFloor(config: ModConfig, players: Players, f: Farmer, inputs: seq<TickInput>)
    requires config.enableGamePad
    requires f.id in players && players[f.id].isRunning
    requires f.stamina <= players[f.id].finalMinStamina as real
    requires forall k :: 0 <= k < |inputs| ==> inputs[k].thumbHeld
    ensures Ticks(config, players, f, inputs).farmer == f
    ensures f.id in Ticks(config, players, f, inputs).players
    ensures Ticks(config, players, f, inputs).players[f.id].isRunning
    ensures Ticks(config, players, f, inputs).players[f.id].finalMinStamina == players[f.id].finalMinStamina
    decreases |inputs|
  {
    if |inputs| > 0 {
      LatchOutlastsFloor(config, players, f, inputs[..|inputs| - 1]);
    }
  }
}
