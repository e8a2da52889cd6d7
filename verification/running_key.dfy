/** The earlier sprint controller: one global state for the local farmer,
    a percentage boost adjusted for weather and terrain, no speed restore.
    Host queries (key, gamepad, tick counter, weather, terrain) are parameters. */
module RunningKey {
  import opened Numeric
  import opened Host

  /** The mod's settings. `hoeReductionPercent` is declared but never read. */
  datatype ModConfig = ModConfig(
    runningSpeedGain: int,      // percent of the baseline added while running
    staminaLose: int,           // stamina lost each time the drain window elapses
    staminaTick: int,           // length of the drain window, in game ticks
    staminaLimit: int,          // percent of max stamina at or below which running is refused
    rainReductionPercent: int,  // boosted speed reduction on a terrain feature in rain
    snowReductionPercent: int,  // boosted speed reduction on a terrain feature in snow
    hoeReductionPercent: int,
    flooredGainPercent: int)    // extra gain on flooring

  const DefaultConfig := ModConfig(50, 1, 30, 20, 20, 30, 10, 10)

  /** The mod's fields. `baseSpeed` is a float in the mod but only ever holds
      an integer speed or zero. */
  datatype ModState = ModState(
    baseSpeed: int,        // zero between day end and day start
    finalAdded: real,      // last computed boost
    baseStamina: int,
    finalMinStamina: int,  // stamina floor: running needs strictly more
    lastTickLose: int,     // tick of the last drain
    isRunning: bool,
    originalSpeed: int,    // written on every run, never read
    wasRunningPad: bool,   // gamepad latch
    runPressed: bool)      // stick button state seen on the last tick

  /** All fields at their defaults, before the first day starts. */
  const InitialState := ModState(0, 0.0, 0, 0, 0, false, 0, false, false)

  /** What the host reports on one tick. */
  datatype TickInput = TickInput(
    keyDown: bool,        // the configured run key is down
    thumbX: real,         // left thumbstick position
    thumbY: real,
    padConnected: bool,
    leftStickDown: bool,  // left stick button is pressed
    ticks: int,           // the host's game tick counter
    raining: bool,
    snowing: bool,
    tile: Tile)           // terrain feature under the farmer

  datatype Outcome = Outcome(state: ModState, farmer: Farmer)

  /** The stick is pushed beyond the dead zone on either axis (strictly). */
  predicate ThumbMoved(x: real, y: real) {
    x > 0.1 || x < -0.1 || y > 0.1 || y < -0.1
  }

  /** The boosted speed before the baseline is taken off: the baseline raised
      by the gain, then on a terrain feature lowered for rain (or else snow)
      and raised on flooring or zeroed on hoed dirt. */
  function BoostedSpeed(config: ModConfig, b: real, raining: bool, snowing: bool, tile: Tile): real {
    var gained := AddPercent(b, config.runningSpeedGain);
    if tile == Bare then gained
    else
      var weathered :=
        if raining then RemovePercent(gained, config.rainReductionPercent)
        else if snowing then RemovePercent(gained, config.snowReductionPercent)
        else gained;
      if tile == Flooring then AddPercent(weathered, config.flooredGainPercent)
      else if tile == HoeDirt then 0.0
      else weathered
  }

  /** Speed gained from running: the boosted speed less the baseline, never
      below zero. */
  function CalculateFinalSpeed(config: ModConfig, baseSpeed: int, raining: bool, snowing: bool, tile: Tile): (added: real)
    ensures 0.0 <= added
    ensures tile == Bare ==>
      added == MaxReal(baseSpeed as real * config.runningSpeedGain as real / 100.0, 0.0)
    ensures tile == HoeDirt && 0 <= baseSpeed ==> added == 0.0
  {
    var b := baseSpeed as real;
    MaxReal(BoostedSpeed(config, b, raining, snowing, tile) - b, 0.0)
  }

  /** The factor weather applies on a terrain feature: rain wins over snow. */
  function WeatherFactor(config: ModConfig, raining: bool, snowing: bool): real {
    if raining then 1.0 - config.rainReductionPercent as real / 100.0
    else if snowing then 1.0 - config.snowReductionPercent as real / 100.0
    else 1.0
  }

  /** The factor the terrain feature applies after weather. */
  function TerrainFactor(config: ModConfig, tile: Tile): real {
    match tile
    case Flooring => 1.0 + config.flooredGainPercent as real / 100.0
    case HoeDirt => 0.0
    case _ => 1.0
  }

  /** The boost as one product: baseline times gain times the weather and
      terrain factors (both 1 off terrain features), less the baseline. */
  function ReferenceBoost(config: ModConfig, baseSpeed: int, raining: bool, snowing: bool, tile: Tile): real {
    var b := baseSpeed as real;
    var w := if tile == Bare then 1.0 else WeatherFactor(config, raining, snowing);
    var t := TerrainFactor(config, tile);
    MaxReal(b * (1.0 + config.runningSpeedGain as real / 100.0) * w * t - b, 0.0)
  }

  lemma AddPercentScales(x: real, p: int)
    ensures AddPercent(x, p) == x * (1.0 + p as real / 100.0)
  {
  }

  lemma RemovePercentScales(x: real, p: int)
    ensures RemovePercent(x, p) == x * (1.0 - p as real / 100.0)
  {
  }

  lemma {:induction false} BoostedSpeedIsProduct(config: ModConfig, b: real, raining: bool, snowing: bool, tile: Tile)
    ensures BoostedSpeed(config, b, raining, snowing, tile)
         == b * (1.0 + config.runningSpeedGain as real / 100.0)
              * (if tile == Bare then 1.0 else WeatherFactor(config, raining, snowing))
              * TerrainFactor(config, tile)
  {
    var g := 1.0 + config.runningSpeedGain as real / 100.0;
    var gained := AddPercent(b, config.runningSpeedGain);
    AddPercentScales(b, config.runningSpeedGain);
    var bg := b * g;
    assert gained == bg;
    if tile != Bare {
      var w := WeatherFactor(config, raining, snowing);
      var weathered :=
        if raining then RemovePercent(gained, config.rainReductionPercent)
        else if snowing then RemovePercent(gained, config.snowReductionPercent)
        else gained;
      if raining {
        RemovePercentScales(gained, config.rainReductionPercent);
      } else if snowing {
        RemovePercentScales(gained, config.snowReductionPercent);
      }
      assert weathered == bg * w;
      if tile == Flooring {
        AddPercentScales(weathered, config.flooredGainPercent);
      }
    }
  }

  /** The step-by-step computation equals the closed product form: the
      weather and terrain adjustments are percentages of the boosted speed,
      weather is skipped off terrain features, and rain excludes snow. */
  lemma CalculateFinalSpeedIsReference(config: ModConfig, baseSpeed: int, raining: bool, snowing: bool, tile: Tile)
    ensures CalculateFinalSpeed(config, baseSpeed, raining, snowing, tile)
         == ReferenceBoost(config, baseSpeed, raining, snowing, tile)
  {
    BoostedSpeedIsProduct(config, baseSpeed as real, raining, snowing, tile);
  }

  /** The state as the tick sees it after reading the stick button and
      updating the gamepad latch. */
  function Observe(s: ModState, input: TickInput): (o: ModState)
    ensures o == s.(runPressed := o.runPressed, wasRunningPad := o.wasRunningPad, isRunning := o.isRunning)
    ensures o.runPressed <==> input.padConnected && input.leftStickDown
    ensures o.wasRunningPad <==> (s.isRunning && ThumbMoved(input.thumbX, input.thumbY)) || o.runPressed
    ensures o.isRunning <==> s.isRunning && o.wasRunningPad
  {
    var pressed := input.padConnected && input.leftStickDown;
    var pad := Latch(s.isRunning, ThumbMoved(input.thumbX, input.thumbY), pressed);
    s.(runPressed := pressed, wasRunningPad := pad.wasRunningPad, isRunning := pad.isRunning)
  }

  /** The run gate: a baseline is set, a key or the latch asks for it, and
      stamina is strictly above the floor. Movement is not checked. */
  predicate RunGate(o: ModState, f: Farmer, input: TickInput) {
    o.baseSpeed > 0 && (o.wasRunningPad || input.keyDown) && f.stamina > o.finalMinStamina as real
  }

  /** The drain window has elapsed. */
  predicate DrainDue(config: ModConfig, s: ModState, ticks: int) {
    s.lastTickLose + config.staminaTick < ticks
  }

  /** One running tick: a positive boost sets the speed to the truncated boost
      plus 5, whatever the current speed, and drains stamina at the throttled
      rate (a negative `staminaLose` raises it). */
  function Run(config: ModConfig, s: ModState, f: Farmer, input: TickInput): (r: Outcome)
    ensures r.farmer == f.(speed := r.farmer.speed, stamina := r.farmer.stamina)
    ensures r.state == s.(originalSpeed := r.state.originalSpeed, finalAdded := r.state.finalAdded,
                          isRunning := r.state.isRunning, lastTickLose := r.state.lastTickLose)
    ensures r.state.originalSpeed == f.speed
    ensures r.state.finalAdded == CalculateFinalSpeed(config, s.baseSpeed, input.raining, input.snowing, input.tile)
    ensures 0.0 < r.state.finalAdded ==> r.farmer.speed == r.state.finalAdded.Floor + 5 && r.state.isRunning
    ensures r.state.finalAdded <= 0.0 ==>
      r.farmer == f && r.state.isRunning == s.isRunning && r.state.lastTickLose == s.lastTickLose
    ensures r.farmer.stamina ==
      if 0.0 < r.state.finalAdded && DrainDue(config, s, input.ticks)
      then f.stamina - config.staminaLose as real else f.stamina
    ensures r.state.lastTickLose ==
      if 0.0 < r.state.finalAdded && DrainDue(config, s, input.ticks) then input.ticks else s.lastTickLose
  {
    var s1 := s.(originalSpeed := f.speed);
    var added := CalculateFinalSpeed(config, s1.baseSpeed, input.raining, input.snowing, input.tile);
    var s2 := s1.(finalAdded := added);
    if added > 0.0 then
      var running := s2.(isRunning := true);
      var boosted := f.(speed := TruncateToInt(added) + 5);
      if DrainDue(config, running, input.ticks) then
        Outcome(running.(lastTickLose := input.ticks),
                boosted.(stamina := f.stamina - config.staminaLose as real))
      else
        Outcome(running, boosted)
    else
      Outcome(s2, f)
  }

  /** The per-tick handler. When the gate is closed only the latch flags and
      the stick state change; speed is never put back. */
  function Tick(config: ModConfig, s: ModState, f: Farmer, input: TickInput): (r: Outcome)
    ensures r.farmer == f.(speed := r.farmer.speed, stamina := r.farmer.stamina)
    ensures r.state.baseSpeed == s.baseSpeed && r.state.baseStamina == s.baseStamina
    ensures r.state.finalMinStamina == s.finalMinStamina
    ensures var o := Observe(s, input); !RunGate(o, f, input) ==> r.farmer == f && r.state == o
    ensures s.baseSpeed <= 0 ==> r.farmer == f
    ensures r.farmer.speed != f.speed ==>
      && RunGate(Observe(s, input), f, input)
      && r.state.isRunning
      && r.farmer.speed == r.state.finalAdded.Floor + 5
    ensures r.farmer.stamina != f.stamina ==>
      && RunGate(Observe(s, input), f, input)
      && DrainDue(config, s, input.ticks)
      && r.farmer.stamina == f.stamina - config.staminaLose as real
      && r.state.lastTickLose == input.ticks
    ensures r.state.lastTickLose != s.lastTickLose ==>
      RunGate(Observe(s, input), f, input) && DrainDue(config, s, input.ticks) && r.state.lastTickLose == input.ticks
    // gate open: the old speed is recorded and a positive boost sets speed and drains
    ensures RunGate(Observe(s, input), f, input) ==>
      && r.state.originalSpeed == f.speed
      && r.state.finalAdded == CalculateFinalSpeed(config, s.baseSpeed, input.raining, input.snowing, input.tile)
      && (0.0 < r.state.finalAdded ==> r.state.isRunning && r.farmer.speed == r.state.finalAdded.Floor + 5)
      && (0.0 < r.state.finalAdded && DrainDue(config, s, input.ticks) ==>
            r.farmer.stamina == f.stamina - config.staminaLose as real)
    // gate open with no boost: only the recorded speed and the boost change
    ensures var o := Observe(s, input);
      RunGate(o, f, input) && r.state.finalAdded <= 0.0 ==>
        r.farmer == f && r.state == o.(originalSpeed := f.speed, finalAdded := r.state.finalAdded)
  {
    var o := Observe(s, input);
    if RunGate(o, f, input) then Run(config, o, f, input)
    else Outcome(o, f)
  }

  /** Day start: the baseline is taken from the current speed and the
      stamina floor is recomputed; nothing else changes. */
  function DayStart(config: ModConfig, s: ModState, f: Farmer): (r: ModState)
    ensures r == s.(baseSpeed := f.speed, baseStamina := f.maxStamina, finalMinStamina := r.finalMinStamina)
    ensures r.finalMinStamina == IntPercent(f.maxStamina, config.staminaLimit)
    ensures 0 <= f.maxStamina * config.staminaLimit ==>
      100 * r.finalMinStamina <= f.maxStamina * config.staminaLimit < 100 * r.finalMinStamina + 100
  {
    s.(baseSpeed := f.speed, baseStamina := f.maxStamina,
       finalMinStamina := IntPercent(f.maxStamina, config.staminaLimit))
  }

  /** Day end: the baseline is cleared, which closes the run gate whatever
      the next tick reports; nothing else changes. */
  function DayEnd(s: ModState): (r: ModState)
    ensures r == s.(baseSpeed := r.baseSpeed)
    ensures forall input: TickInput, f: Farmer :: !RunGate(Observe(r, input), f, input)
  {
    s.(baseSpeed := 0)
  }
}
