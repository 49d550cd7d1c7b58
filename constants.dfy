/** The scrubber's user-experience constants (src/lib/constants.ts). */
module Constants {
  import opened Optional

  /** Slow-motion playback speed: default and bounds. */
  const SlowMoSpeedDefault: real := 0.25
  const SlowMoSpeedMin: real := 0.1
  const SlowMoSpeedMax: real := 0.75

  /** The jump amounts offered by the control bar, in seconds. */
  const JumpAmounts: seq<real> := [1.0, 5.0, 10.0]

  /** Hold-to-scrub tick interval in milliseconds: default and bounds. */
  const HoldTickRateMsDefault: real := 70.0
  const HoldTickRateMsMin: real := 40.0
  const HoldTickRateMsMax: real := 150.0

  /** The keyboard map as the key handler reads it. Each field is the `key` string
      of a keyboard event; `None` is an entry the map does not define, which the
      handler then compares against `undefined`. */
  datatype KeyMap = KeyMap(
    playPause: Option<string>,
    pause: Option<string>,
    rewind: Option<string>,
    forward: Option<string>,
    toggleSlowMo: Option<string>,
    jumpBack1: Option<string>,
    jumpForward1: Option<string>,
    stepBack: Option<string>,
    stepForward: Option<string>)

  /** The map as it is shipped: no `toggleSlowMo`, `jumpBack1` or `jumpForward1` entry. */
  const KeyboardMap: KeyMap := KeyMap(
    playPause := Some(" "),
    pause := Some("k"),
    rewind := Some("j"),
    forward := Some("l"),
    toggleSlowMo := None,
    jumpBack1 := None,
    jumpForward1 := None,
    stepBack := Some("ArrowLeft"),
    stepForward := Some("ArrowRight"))
}
