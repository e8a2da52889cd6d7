/** The current sprint controller: one run state per farmer, created lazily,
    driven once per game tick, reset at day start and on save load. Every host
    query (key state, stick state, movement, tick counter) is a parameter, and
    every handler returns the new state together with the farmer it wrote. */
module Sprint {
  import opened Numeric
  import opened Host

  /** The mod's settings, read once and treated as immutable here. */
  datatype ModConfig = ModConfig(
    runningSpeedGain: int,  // percent of speed gained while running
    staminaLose: int,       // stamina lost each time the drain window elapses
    staminaTick: int,       // length of the drain window, in game ticks
    staminaLimit: int,      // percent of max stamina at or below which running is refused
    enableGamePad: bool)    // whether the left stick may trigger running

  const DefaultConfig := ModConfig(70, 1, 30, 20, true)

  /** With the default settings running adds 3.5 to the baseline, and a
      farmer with 270 max stamina (the game's starting value) may run while
      stamina is above 54. */
  lemma DefaultSettings(f: Farmer)
    requires f.maxStamina == 270
    ensures BoostDelta(DefaultConfig.runningSpeedGain) == 3.5
    ensures FreshState(DefaultConfig, f).finalMinStamina == 54
  {
  }

  /** Per-farmer controller state. */
  datatype PlayerRunState = PlayerRunState(
    baseSpeed: int,        // speed to restore when running stops
    baseStamina: int,      // max stamina the floor was computed from
    finalMinStamina: int,  // stamina floor: running needs strictly more
    lastTickLose: int,     // tick of the last drain window
    stateChanged: bool,    // a run happened and the baseline is captured
    isRunning: bool,
    wasRunningPad: bool)   // gamepad latch

  type Players = map<int, PlayerRunState>

  /** What the host reports on one tick. */
  datatype TickInput = TickInput(
    keyDown: bool,       // the configured run key is down
    thumbHeld: bool,     // one of the four left-thumbstick directions is held
    stickPressed: bool,  // the left-stick button is in its pressed state
    isMoving: bool,      // the farmer reports that it is moving
    ticks: int)          // the host's game tick counter

  datatype Outcome = Outcome(players: Players, farmer: Farmer)

  datatype RunStep = RunStep(state: PlayerRunState, farmer: Farmer)

  /** The state a farmer gets when first seen, and again at every day start. */
  function FreshState(config: ModConfig, f: Farmer): PlayerRunState {
    PlayerRunState(
      baseSpeed := f.speed,
      baseStamina := f.maxStamina,
      finalMinStamina := IntPercent(f.maxStamina, config.staminaLimit),
      lastTickLose := 0,
      stateChanged := false,
      isRunning := false,
      wasRunningPad := false)
  }

  /** Looks up the farmer's state, creating it if the farmer is new. */
  function GetState(config: ModConfig, players: Players, f: Farmer): (r: (Players, PlayerRunState))
    ensures r.0.Keys == players.Keys + {f.id}
    ensures r.0[f.id] == r.1
    ensures forall id :: id in players ==> r.0[id] == players[id]
    ensures f.id !in players ==> r.1 == FreshState(config, f)
    ensures f.id !in players ==>
      && r.1.baseSpeed == f.speed
      && r.1.finalMinStamina == IntPercent(f.maxStamina, config.staminaLimit)
      && r.1.lastTickLose == 0
      && !r.1.stateChanged && !r.1.isRunning && !r.1.wasRunningPad
  {
    if f.id in players then (players, players[f.id])
    else
      var s := FreshState(config, f);
      (players[f.id := s], s)
  }

  /** Sum of the speed effects of the applied buffs (zero effects add nothing). */
  function BuffSpeedSum(buffs: seq<real>): real {
    if |buffs| == 0 then 0.0 else BuffSpeedSum(buffs[..|buffs| - 1]) + buffs[|buffs| - 1]
  }

  /** The buff speed total, summed as a float and then cast to int. */
  function GetSpeedPlayerBuffs(buffs: seq<real>): (total: int)
    ensures |buffs| == 0 ==> total == 0
    ensures 0.0 <= BuffSpeedSum(buffs) ==> total as real <= BuffSpeedSum(buffs) < total as real + 1.0
    ensures BuffSpeedSum(buffs) < 0.0 ==> total as real - 1.0 < BuffSpeedSum(buffs) <= total as real
  {
    TruncateToInt(BuffSpeedSum(buffs))
  }

  /** How much running adds to the baseline: the gain taken as a percentage of
      a fixed speed of 5, made non-negative. It does not depend on the baseline. */
  function BoostDelta(gain: int): (delta: real)
    ensures 0.0 <= delta
    ensures delta * 20.0 == Abs(gain) as real
  {
    var added := AddPercent(5.0, gain) - 5.0;
    if added < 0.0 then -added else added
  }

  /** Captures the baseline when no run is under way, then returns the state
      and the speed to run at: baseline plus boost, never below zero. */
  function CalculateFinalSpeed(config: ModConfig, s: PlayerRunState, f: Farmer): (r: (PlayerRunState, real))
    ensures s.stateChanged ==> r.0 == s
    ensures !s.stateChanged ==> r.0 == s.(baseSpeed := f.speed + GetSpeedPlayerBuffs(f.buffSpeeds))
    ensures 0.0 <= r.1 && r.0.baseSpeed as real <= r.1
    ensures 0.0 < r.1 <==> 0.0 < r.0.baseSpeed as real + BoostDelta(config.runningSpeedGain)
    ensures 0.0 < r.1 ==> r.1 == r.0.baseSpeed as real + BoostDelta(config.runningSpeedGain)
  {
    var captured := if !s.stateChanged then s.(baseSpeed := f.speed + GetSpeedPlayerBuffs(f.buffSpeeds)) else s;
    var finalSpeed := BoostDelta(config.runningSpeedGain) + captured.baseSpeed as real;
    (captured, MaxReal(finalSpeed, 0.0))
  }

  /** The drain window has elapsed: strictly more than `staminaTick` ticks
      after the last drain. */
  predicate DrainDue(config: ModConfig, s: PlayerRunState, ticks: int) {
    s.lastTickLose + config.staminaTick < ticks
  }

  /** One running tick: set the boosted speed and drain stamina at the throttled
      rate; when the final speed is not positive, only stop running. */
  function Run(config: ModConfig, s: PlayerRunState, f: Farmer, isMoving: bool, ticks: int): (r: RunStep)
    ensures r.farmer == f.(speed := r.farmer.speed, stamina := r.farmer.stamina)
    ensures r.state == s.(baseSpeed := r.state.baseSpeed, isRunning := r.state.isRunning,
                           lastTickLose := r.state.lastTickLose)
    ensures s.stateChanged ==> r.state.baseSpeed == s.baseSpeed
    ensures !s.stateChanged ==> r.state.baseSpeed == f.speed + GetSpeedPlayerBuffs(f.buffSpeeds)
    ensures r.state.isRunning <==> 0.0 < r.state.baseSpeed as real + BoostDelta(config.runningSpeedGain)
    ensures r.state.isRunning ==>
      && r.state.baseSpeed <= r.farmer.speed
      && r.farmer.speed as real <= r.state.baseSpeed as real + BoostDelta(config.runningSpeedGain)
      && r.state.baseSpeed as real + BoostDelta(config.runningSpeedGain) < r.farmer.speed as real + 1.0
    ensures !r.state.isRunning ==> r.farmer == f && r.state.lastTickLose == s.lastTickLose
    ensures r.farmer.stamina ==
      if r.state.isRunning && isMoving && DrainDue(config, s, ticks) && 0 < config.staminaLose
      then f.stamina - config.staminaLose as real else f.stamina
    ensures r.state.lastTickLose ==
      if r.state.isRunning && isMoving && DrainDue(config, s, ticks) then ticks else s.lastTickLose
  {
    var (captured, finalSpeed) := CalculateFinalSpeed(config, s, f);
    if finalSpeed > 0.0 then
      var running := captured.(isRunning := true);
      var boosted := f.(speed := TruncateToInt(finalSpeed));
      if isMoving && DrainDue(config, captured, ticks) then
        var drained := if config.staminaLose > 0 then boosted.(stamina := f.stamina - config.staminaLose as real) else boosted;
        RunStep(running.(lastTickLose := ticks), drained)
      else
        RunStep(running, boosted)
    else
      RunStep(captured.(isRunning := false), f)
  }

  /** The farmer's state as the tick sees it after lazy creation and the
      gamepad latch; the stick only counts when the gamepad is enabled. */
  function Observe(config: ModConfig, players: Players, f: Farmer, input: TickInput): (s: PlayerRunState)
    ensures f.id in players ==>
      s == players[f.id].(wasRunningPad := s.wasRunningPad, isRunning := s.isRunning)
    ensures f.id !in players ==>
      s == FreshState(config, f).(wasRunningPad := s.wasRunningPad, isRunning := s.isRunning)
    ensures s.wasRunningPad <==>
      (config.enableGamePad && input.stickPressed)
      || (config.enableGamePad && input.thumbHeld && f.id in players && players[f.id].isRunning)
    ensures s.isRunning <==> s.wasRunningPad && f.id in players && players[f.id].isRunning
  {
    var s := GetState(config, players, f).1;
    var pad := Latch(s.isRunning, config.enableGamePad && input.thumbHeld,
                     config.enableGamePad && input.stickPressed);
    s.(wasRunningPad := pad.wasRunningPad, isRunning := pad.isRunning)
  }

  /** The run gate: a key or the latch asks for it, the farmer is moving, and
      stamina is strictly above the floor. */
  predicate RunGate(s: PlayerRunState, f: Farmer, input: TickInput) {
    (s.wasRunningPad || input.keyDown) && input.isMoving && f.stamina > s.finalMinStamina as real
  }

  /** Running stopped after a run: the baseline must be put back. */
  predicate RestoreDue(s: PlayerRunState) {
    !s.isRunning && s.stateChanged
  }

  /** The per-tick handler. */
  function Tick(config: ModConfig, players: Players, f: Farmer, input: TickInput): (r: Outcome)
    ensures r.players.Keys == players.Keys + {f.id}
    ensures forall id :: id in players && id != f.id ==> r.players[id] == players[id]
    ensures r.farmer == f.(speed := r.farmer.speed, stamina := r.farmer.stamina)
    // gate open: a run is under way and its baseline is captured once
    ensures var s := Observe(config, players, f, input); var t := r.players[f.id];
      RunGate(s, f, input) ==>
        && t.stateChanged
        && t.wasRunningPad == s.wasRunningPad
        && t.finalMinStamina == s.finalMinStamina
        && (s.stateChanged ==> t.baseSpeed == s.baseSpeed)
        && (!s.stateChanged ==> t.baseSpeed == f.speed + GetSpeedPlayerBuffs(f.buffSpeeds))
        && (t.isRunning ==> t.baseSpeed <= r.farmer.speed)
        && (!t.isRunning ==> r.farmer == f && t == s.(stateChanged := true, isRunning := false, baseSpeed := t.baseSpeed))
    // gate closed: no boost, no drain; the only speed write is the restore
    ensures var s := Observe(config, players, f, input); var t := r.players[f.id];
      !RunGate(s, f, input) ==>
        && r.farmer.stamina == f.stamina
        && t == s.(stateChanged := t.stateChanged)
        && (RestoreDue(s) ==> r.farmer.speed == s.baseSpeed && !t.stateChanged)
        && (!RestoreDue(s) ==> r.farmer == f && t == s)
    // drain throttle: stamina only drops by exactly staminaLose, and only when the window elapsed
    ensures var s := Observe(config, players, f, input);
      r.farmer.stamina != f.stamina ==>
        && RunGate(s, f, input) && DrainDue(config, s, input.ticks)
        && 0 < config.staminaLose
        && r.farmer.stamina == f.stamina - config.staminaLose as real
    ensures var s := Observe(config, players, f, input); var t := r.players[f.id];
      t.lastTickLose != s.lastTickLose ==>
        RunGate(s, f, input) && DrainDue(config, s, input.ticks) && t.lastTickLose == input.ticks
    // gate open: running iff baseline plus boost is positive, at the truncated boosted speed
    ensures var s := Observe(config, players, f, input); var t := r.players[f.id];
      RunGate(s, f, input) ==>
        && (t.isRunning <==> 0.0 < t.baseSpeed as real + BoostDelta(config.runningSpeedGain))
        && (t.isRunning ==> r.farmer.speed == TruncateToInt(t.baseSpeed as real + BoostDelta(config.runningSpeedGain)))
        && (t.isRunning && DrainDue(config, s, input.ticks) && 0 < config.staminaLose ==>
              r.farmer.stamina == f.stamina - config.staminaLose as real)
    ensures var s := Observe(config, players, f, input); var t := r.players[f.id];
      RunGate(s, f, input) && t.isRunning && DrainDue(config, s, input.ticks) ==>
        && t.lastTickLose == input.ticks
        && (0 < config.staminaLose ==> r.farmer.stamina == f.stamina - config.staminaLose as real)
  {
    var (players1, _) := GetState(config, players, f);
    var s := Observe(config, players, f, input);
    if RunGate(s, f, input) then
      var step := Run(config, s, f, input.isMoving, input.ticks);
      Outcome(players1[f.id := step.state.(stateChanged := true)], step.farmer)
    else if RestoreDue(s) then
      Outcome(players1[f.id := s.(stateChanged := false)], f.(speed := s.baseSpeed))
    else
      Outcome(players1[f.id := s], f)
  }

  /** Some farmer in the list has this id. */
  predicate Listed(farmers: seq<Farmer>, id: int) {
    exists i :: 0 <= i < |farmers| && farmers[i].id == id
  }

  /** Ids of a list of farmers. */
  function FarmerIds(farmers: seq<Farmer>): (ids: set<int>)
    ensures forall i :: 0 <= i < |farmers| ==> farmers[i].id in ids
  {
    if |farmers| == 0 then {}
    else FarmerIds(farmers[..|farmers| - 1]) + {farmers[|farmers| - 1].id}
  }

  /** The converse: every id in `FarmerIds` is the id of some listed farmer,
      so day start adds no key beyond the listed farmers. */
  lemma {:induction false} FarmerIdsAreListed(farmers: seq<Farmer>, id: int)
    requires id in FarmerIds(farmers)
    ensures Listed(farmers, id)
    decreases |farmers|
  {
    var earlier := farmers[..|farmers| - 1];
    if id in FarmerIds(earlier) {
      FarmerIdsAreListed(earlier, id);
      var i :| 0 <= i < |earlier| && earlier[i].id == id;
      assert farmers[i].id == id;
    } else {
      assert farmers[|farmers| - 1].id == id;
    }
  }

  /** No farmer after position `i` in the list has the same id. */
  predicate LastWithId(farmers: seq<Farmer>, i: int)
    requires 0 <= i < |farmers|
  {
    forall k :: i < k < |farmers| ==> farmers[k].id != farmers[i].id
  }

  /** Flags cleared and no drain recorded, as at the start of a day. */
  predicate Reset(s: PlayerRunState) {
    !s.stateChanged && !s.isRunning && !s.wasRunningPad && s.lastTickLose == 0
  }

  /** Day start: every farmer in the list gets a fresh state (thresholds
      recomputed, baseline reset to the current speed, flags and drain tick
      cleared), in list order; farmers not in the list keep theirs. */
  function DayStart(config: ModConfig, players: Players, farmers: seq<Farmer>): (r: Players)
    decreases |farmers|
    ensures r.Keys == players.Keys + FarmerIds(farmers)
    ensures forall id :: id in players && id !in FarmerIds(farmers) ==> r[id] == players[id]
    ensures forall i {:trigger LastWithId(farmers, i)} :: 0 <= i < |farmers| && LastWithId(farmers, i) ==>
      r[farmers[i].id] == FreshState(config, farmers[i])
    ensures forall i :: 0 <= i < |farmers| ==> Reset(r[farmers[i].id])
  {
    if |farmers| == 0 then players
    else
      var n := |farmers| - 1;
      var earlier := farmers[..n];
      var f := farmers[n];
      var r0 := DayStart(config, players, earlier);
      var r := r0[f.id := FreshState(config, f)];
      forall i | 0 <= i < |farmers|
        ensures farmers[i].id in r
        ensures LastWithId(farmers, i) ==> r[farmers[i].id] == FreshState(config, farmers[i])
        ensures Reset(r[farmers[i].id])
      {
        if i < n {
          assert earlier[i] == farmers[i];
          if farmers[i].id != f.id {
            assert Reset(r0[earlier[i].id]);
            if LastWithId(farmers, i) {
              assert LastWithId(earlier, i);
            }
          }
        }
      }
      r
  }

  /** Save load: all tracked state is dropped and only the current farmer is
      seeded, with its baseline taken from its present speed. */
  function SaveLoaded(config: ModConfig, f: Farmer): (r: Players)
    ensures r.Keys == {f.id}
    ensures r[f.id] == FreshState(config, f)
    ensures r[f.id].baseSpeed == f.speed && !r[f.id].stateChanged && !r[f.id].isRunning
  {
    var (players, s) := GetState(config, map[], f);
    players[f.id := s.(baseSpeed := f.speed)]
  }
}
