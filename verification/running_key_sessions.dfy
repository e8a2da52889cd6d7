/** Properties of the earlier controller over runs of consecutive ticks and
    across the day boundary. */
module RunningKeySessions {
  import opened Numeric
  import opened Host
  import opened RunningKey

  /** Feeds the inputs to the per-tick handler in order, one tick each. */
  function Ticks(config: ModConfig, s: ModState, f: Farmer, inputs: seq<TickInput>): Outcome
    decreases |inputs|
  {
    if |inputs| == 0 then Outcome(s, f)
    else
      var o := Ticks(config, s, f, inputs[..|inputs| - 1]);
      Tick(config, o.state, o.farmer, inputs[|inputs| - 1])
  }

  /** Without a baseline no tick runs: the farmer is untouched and the
      baseline stays as it is. */
  lemma {:induction false} NoBaselineNoRun(config: ModConfig, s: ModState, f: Farmer, inputs: seq<TickInput>)
    requires s.baseSpeed <= 0
    ensures Ticks(config, s, f, inputs).farmer == f
    ensures Ticks(config, s, f, inputs).state.baseSpeed == s.baseSpeed
    decreases |inputs|
  {
    if |inputs| > 0 {
      NoBaselineNoRun(config, s, f, inputs[..|inputs| - 1]);
    }
  }

  /** Before the first day start the baseline is zero, so nothing runs; with
      the default settings day start then sets a floor of 54 for a farmer
      with 270 max stamina. */
  lemma {:induction false} NothingRunsBeforeFirstDay(f: Farmer, inputs: seq<TickInput>)
    requires f.maxStamina == 270
    ensures Ticks(DefaultConfig, InitialState, f, inputs).farmer == f
    ensures DayStart(DefaultConfig, InitialState, f).finalMinStamina == 54
  {
    NoBaselineNoRun(DefaultConfig, InitialState, f, inputs);
  }

  /** After day end, whatever the inputs, nothing runs until the next day start. */
  lemma {:induction false} DayEndSuspendsRunning(config: ModConfig, s: ModState, f: Farmer, inputs: seq<TickInput>)
    ensures Ticks(config, DayEnd(s), f, inputs).farmer == f
    ensures Ticks(config, DayEnd(s), f, inputs).state.baseSpeed == 0
  {
    NoBaselineNoRun(config, DayEnd(s), f, inputs);
  }

  /** Day start re-seeds the baseline from the current speed: with a positive
      speed, the key held and stamina above the recomputed floor, the next
      tick runs again. */
  lemma DayStartResumesRunning(config: ModConfig, s: ModState, f: Farmer, input: TickInput)
    requires 0 < f.speed && input.keyDown
    requires f.stamina > IntPercent(f.maxStamina, config.staminaLimit) as real
    ensures var d := DayStart(config, DayEnd(s), f);
      RunGate(Observe(d, input), f, input)
    ensures Tick(config, DayStart(config, DayEnd(s), f), f, input).state.originalSpeed == f.speed
  {
  }

  /** Two states that differ only in `originalSpeed`. */
  predicate SameButOriginalSpeed(a: ModState, b: ModState) {
    a == b.(originalSpeed := a.originalSpeed)
  }

  /** `originalSpeed` is written but never read: it has no effect on the
      farmer or on any other field, over any number of ticks. */
  lemma {:induction false} OriginalSpeedNeverRead(config: ModConfig, a: ModState, b: ModState, f: Farmer, inputs: seq<TickInput>)
    requires SameButOriginalSpeed(a, b)
    ensures Ticks(config, a, f, inputs).farmer == Ticks(config, b, f, inputs).farmer
    ensures SameButOriginalSpeed(Ticks(config, a, f, inputs).state, Ticks(config, b, f, inputs).state)
    decreases |inputs|
  {
    if |inputs| > 0 {
      var earlier := inputs[..|inputs| - 1];
      OriginalSpeedNeverRead(config, a, b, f, earlier);
      var oa := Ticks(config, a, f, earlier);
      var ob := Ticks(config, b, f, earlier);
      var last := inputs[|inputs| - 1];
      assert SameButOriginalSpeed(Observe(oa.state, last), Observe(ob.state, last));
    }
  }

  /** Drain throttle: while the tick counter stays within `staminaTick` of
      the last drain, stamina does not change and the drain tick stays put. */
  lemma {:induction false} NoDrainWithinWindow(config: ModConfig, s: ModState, f: Farmer, inputs: seq<TickInput>)
    requires forall k :: 0 <= k < |inputs| ==> inputs[k].ticks <= s.lastTickLose + config.staminaTick
    ensures Ticks(config, s, f, inputs).farmer.stamina == f.stamina
    ensures Ticks(config, s, f, inputs).state.lastTickLose == s.lastTickLose
    decreases |inputs|
  {
    if |inputs| > 0 {
      NoDrainWithinWindow(config, s, f, inputs[..|inputs| - 1]);
    }
  }
}
