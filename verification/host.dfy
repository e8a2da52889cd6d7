/** What the controller sees of the game: the farmer's attributes, the kind of
    terrain under the farmer, and the gamepad latch both versions share. */
module Host {

  /** A farmer as the controller reads and writes it. `speed` and `stamina` are
      the two attributes the controller writes; `buffSpeeds` lists the speed
      effect of every buff currently applied. */
  datatype Farmer = Farmer(
    id: int,
    speed: int,
    stamina: real,
    maxStamina: int,
    buffSpeeds: seq<real>)

  /** The terrain feature on the farmer's tile, if any. */
  datatype Tile = Bare | Flooring | HoeDirt | OtherFeature

  /** The two flags the gamepad latch updates. */
  datatype PadLatch = PadLatch(wasRunningPad: bool, isRunning: bool)

  /** The gamepad latch: it holds while the farmer is already running and the
      stick is still pushed, or when the stick button is pressed; when it does
      not hold, running is switched off as well. */
  function Latch(isRunning: bool, thumbMoved: bool, runPressed: bool): (r: PadLatch)
    ensures r.wasRunningPad <==> (isRunning && thumbMoved) || runPressed
    ensures r.isRunning <==> isRunning && r.wasRunningPad
  {
    if isRunning && thumbMoved then PadLatch(true, isRunning)
    else if runPressed then PadLatch(true, isRunning)
    else PadLatch(false, false)
  }
}
