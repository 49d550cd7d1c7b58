/** Keyboard bindings (src/hooks/useKeyboardShortcuts.ts) as a pure decision: a
    key event, the state the handlers read and the key map give at most one
    command, and whether the event's default action is prevented. The listeners
    exist only while the hook is enabled and the controller is ready. */
module KeyboardShortcuts {
  import opened Optional
  import opened Constants

  /** The event's target: not an HTML element (or `null`), or an element with its
      tag name and whether it is content-editable. */
  datatype Target = NotElement | Element(tagName: string, isContentEditable: bool)

  /** A key event: `key`, the three modifier flags the handler reads, and the target. */
  datatype KeyEvent = KeyEvent(key: string, metaKey: bool, ctrlKey: bool, shiftKey: bool, target: Target)

  /** What a handler can ask for: a player command or a scrubber command. */
  datatype KeyCommand =
    | PlayerPlay
    | PlayerPause
    | StartHoldRewind
    | StartHoldForward
    | ToggleSlowMo
    | JumpBack(seconds: real)
    | JumpForward(seconds: real)
    | StopHold

  /** The result of handling one event. */
  datatype Outcome = Outcome(prevented: bool, command: Option<KeyCommand>)

  /** An event the handler lets pass untouched. */
  const Ignored := Outcome(false, None)

  /** What the handlers see besides the event: the hook's `enabled` argument and
      the controller's `ready` when the listeners were installed, the controller's
      `isPlaying`, whether a scrubber and a slow-motion callback were passed, and
      the key map. */
  datatype Bindings = Bindings(
    enabled: bool,
    ready: bool,
    isPlaying: bool,
    hasScrubber: bool,
    hasToggleSlowMo: bool,
    keys: KeyMap)

  /** ASCII lower-casing of one character. */
  function LowerChar(c: char): char {
    if 'A' <= c <= 'Z' then (c as int + 32) as char else c
  }

  /** `toLowerCase()` on ASCII letters. */
  function ToLower(s: string): (r: string)
    ensures |r| == |s|
    ensures forall i :: 0 <= i < |s| ==> r[i] == LowerChar(s[i])
  {
    if s == [] then [] else [LowerChar(s[0])] + ToLower(s[1..])
  }

  /** `a` spells the lower-case word `w` in any mix of cases. */
  ghost predicate SpellsIgnoringCase(a: string, w: string) {
    |a| == |w| && forall i :: 0 <= i < |a| ==> LowerChar(a[i]) == w[i]
  }

  /** Typing happens in `input` and `textarea` elements, whatever the case of their
      tag name, and in content-editable elements; never outside an element. */
  function IsTypingTarget(t: Target): (r: bool)
    ensures r <==> (t.Element? &&
      (t.isContentEditable || SpellsIgnoringCase(t.tagName, "input") || SpellsIgnoringCase(t.tagName, "textarea")))
  {
    match t
    case NotElement => false
    case Element(tagName, isContentEditable) =>
      var tag := ToLower(tagName);
      assert SpellsIgnoringCase(tagName, "input") <==> tag == "input";
      assert SpellsIgnoringCase(tagName, "textarea") <==> tag == "textarea";
      if tag == "input" || tag == "textarea" then true
      else isContentEditable
  }

  /** The key map entry `entry` names `key`; an absent entry names no key. */
  predicate Names(entry: Option<string>, key: string) {
    entry == Some(key)
  }

  /** The arrow jump size: 10 s with Cmd or Ctrl, else 5 s with Shift, else 1 s. */
  function JumpMagnitude(e: KeyEvent): (r: real)
    ensures r in JumpAmounts
    ensures r == 10.0 <==> e.metaKey || e.ctrlKey
    ensures r == 5.0 <==> !(e.metaKey || e.ctrlKey) && e.shiftKey
  {
    if e.metaKey || e.ctrlKey then 10.0
    else if e.shiftKey then 5.0
    else 1.0
  }

  /** A scrubber command, dropped when there is no scrubber (`scrubber?.…`). */
  function ToScrubber(b: Bindings, c: KeyCommand): Option<KeyCommand> {
    if b.hasScrubber then Some(c) else None
  }

  /** The key map entries the key-down handler reads. */
  datatype Entry = PlayPauseEntry | PauseEntry | RewindEntry | ForwardEntry | ToggleSlowMoEntry | JumpBackEntry | JumpForwardEntry
  {
    /** The entry's position in the handler's order of tests. */
    function Position(): nat {
      match this
      case PlayPauseEntry => 0
      case PauseEntry => 1
      case RewindEntry => 2
      case ForwardEntry => 3
      case ToggleSlowMoEntry => 4
      case JumpBackEntry => 5
      case JumpForwardEntry => 6
    }
  }

  /** The entries in the order the key-down handler tests them, each with its value
      in `keys`. */
  function HandlerOrder(keys: KeyMap): (order: seq<(Entry, Option<string>)>)
    ensures |order| == 7
  {
    [ (PlayPauseEntry, keys.playPause), (PauseEntry, keys.pause), (RewindEntry, keys.rewind),
      (ForwardEntry, keys.forward), (ToggleSlowMoEntry, keys.toggleSlowMo),
      (JumpBackEntry, keys.jumpBack1), (JumpForwardEntry, keys.jumpForward1) ]
  }

  /** `entry` is the first entry in handler order that names `key`. */
  predicate FirstNamed(keys: KeyMap, key: string, entry: Entry) {
    var order := HandlerOrder(keys);
    order[entry.Position()] == (entry, order[entry.Position()].1)
    && Names(order[entry.Position()].1, key)
    && forall j :: 0 <= j < entry.Position() ==> !Names(order[j].1, key)
  }

  /** Being first in handler order, spelled out entry by entry. */
  lemma FirstNamedCases(keys: KeyMap, key: string)
    ensures FirstNamed(keys, key, PlayPauseEntry) <==> Names(keys.playPause, key)
    ensures FirstNamed(keys, key, PauseEntry) ==> !Names(keys.playPause, key) && Names(keys.pause, key)
    ensures FirstNamed(keys, key, RewindEntry) ==>
      !Names(keys.playPause, key) && !Names(keys.pause, key) && Names(keys.rewind, key)
    ensures FirstNamed(keys, key, ForwardEntry) ==>
      !Names(keys.playPause, key) && !Names(keys.pause, key) && !Names(keys.rewind, key) && Names(keys.forward, key)
    ensures FirstNamed(keys, key, ToggleSlowMoEntry) ==>
      !Names(keys.playPause, key) && !Names(keys.pause, key) && !Names(keys.rewind, key) && !Names(keys.forward, key)
      && Names(keys.toggleSlowMo, key)
    ensures FirstNamed(keys, key, JumpBackEntry) ==>
      !Names(keys.playPause, key) && !Names(keys.pause, key) && !Names(keys.rewind, key) && !Names(keys.forward, key)
      && !Names(keys.toggleSlowMo, key) && Names(keys.jumpBack1, key)
    ensures FirstNamed(keys, key, JumpForwardEntry) ==>
      !Names(keys.playPause, key) && !Names(keys.pause, key) && !Names(keys.rewind, key) && !Names(keys.forward, key)
      && !Names(keys.toggleSlowMo, key) && !Names(keys.jumpBack1, key) && Names(keys.jumpForward1, key)
  {
    var order := HandlerOrder(keys);
    assert order[0].1 == keys.playPause && order[1].1 == keys.pause && order[2].1 == keys.rewind;
    assert order[3].1 == keys.forward && order[4].1 == keys.toggleSlowMo && order[5].1 == keys.jumpBack1;
    assert order[6].1 == keys.jumpForward1;
  }

  /** The handlers are installed and the event does not come from a text field. */
  predicate Active(b: Bindings, e: KeyEvent) {
    b.enabled && b.ready && !IsTypingTarget(e.target)
  }

  /** The key-down handler. Its branches are tried in a fixed order and the first
      whose map entry names the key decides; a matched key is always prevented. */
  function KeyDown(b: Bindings, e: KeyEvent): (r: Outcome)
    ensures !(b.enabled && b.ready) || IsTypingTarget(e.target) ==> r == Ignored
    ensures r.command.Some? ==> r.prevented
    ensures r.command != Some(StopHold)
    ensures r.command == Some(ToggleSlowMo) ==> Names(b.keys.toggleSlowMo, e.key) && b.hasToggleSlowMo
    ensures r.command.Some? && r.command.value.JumpBack? ==>
      Names(b.keys.jumpBack1, e.key) && b.hasScrubber && r.command.value.seconds == JumpMagnitude(e)
    ensures r.command.Some? && r.command.value.JumpForward? ==>
      Names(b.keys.jumpForward1, e.key) && b.hasScrubber && r.command.value.seconds == JumpMagnitude(e)
    ensures r.prevented <==> (b.enabled && b.ready && !IsTypingTarget(e.target) &&
      (|| Names(b.keys.playPause, e.key) || Names(b.keys.pause, e.key)
       || Names(b.keys.rewind, e.key) || Names(b.keys.forward, e.key)
       || Names(b.keys.toggleSlowMo, e.key)
       || Names(b.keys.jumpBack1, e.key) || Names(b.keys.jumpForward1, e.key)))
    ensures Active(b, e) && FirstNamed(b.keys, e.key, PlayPauseEntry) ==>
      r == Outcome(true, Some(if b.isPlaying then PlayerPause else PlayerPlay))
    ensures Active(b, e) && FirstNamed(b.keys, e.key, PauseEntry) ==> r == Outcome(true, Some(PlayerPause))
    ensures Active(b, e) && FirstNamed(b.keys, e.key, RewindEntry) ==>
      r == Outcome(true, if b.hasScrubber then Some(StartHoldRewind) else None)
    ensures Active(b, e) && FirstNamed(b.keys, e.key, ForwardEntry) ==>
      r == Outcome(true, if b.hasScrubber then Some(StartHoldForward) else None)
    ensures Active(b, e) && FirstNamed(b.keys, e.key, ToggleSlowMoEntry) ==>
      r == Outcome(true, if b.hasToggleSlowMo then Some(ToggleSlowMo) else None)
    ensures Active(b, e) && FirstNamed(b.keys, e.key, JumpBackEntry) ==>
      r == Outcome(true, if b.hasScrubber then Some(JumpBack(JumpMagnitude(e))) else None)
    ensures Active(b, e) && FirstNamed(b.keys, e.key, JumpForwardEntry) ==>
      r == Outcome(true, if b.hasScrubber then Some(JumpForward(JumpMagnitude(e))) else None)
  {
    var keys := b.keys;
    FirstNamedCases(keys, e.key);
    if !(b.enabled && b.ready) || IsTypingTarget(e.target) then Ignored
    else if Names(keys.playPause, e.key) then Outcome(true, Some(if b.isPlaying then PlayerPause else PlayerPlay))
    else if Names(keys.pause, e.key) then Outcome(true, Some(PlayerPause))
    else if Names(keys.rewind, e.key) then Outcome(true, ToScrubber(b, StartHoldRewind))
    else if Names(keys.forward, e.key) then Outcome(true, ToScrubber(b, StartHoldForward))
    else if Names(keys.toggleSlowMo, e.key) then Outcome(true, if b.hasToggleSlowMo then Some(ToggleSlowMo) else None)
    else if Names(keys.jumpBack1, e.key) then Outcome(true, ToScrubber(b, JumpBack(JumpMagnitude(e))))
    else if Names(keys.jumpForward1, e.key) then Outcome(true, ToScrubber(b, JumpForward(JumpMagnitude(e))))
    else Ignored
  }

  /** The key-up handler: releasing either hold key stops the hold; any other key
      passes untouched. */
  function KeyUp(b: Bindings, e: KeyEvent): (r: Outcome)
    ensures r.command.Some? ==> r.command == Some(StopHold) && b.hasScrubber
    ensures r.prevented <==>
      b.enabled && b.ready && !IsTypingTarget(e.target) && (Names(b.keys.rewind, e.key) || Names(b.keys.forward, e.key))
    ensures r.command.Some? <==> r.prevented && b.hasScrubber
  {
    if !(b.enabled && b.ready) || IsTypingTarget(e.target) then Ignored
    else if Names(b.keys.rewind, e.key) || Names(b.keys.forward, e.key) then Outcome(true, ToScrubber(b, StopHold))
    else Ignored
  }

  /** The play/pause key toggles: it pauses a playing player and plays a paused
      one, and wins over every later entry naming the same key. */
  lemma PlayPauseToggles(b: Bindings, e: KeyEvent)
    requires b.enabled && b.ready && !IsTypingTarget(e.target) && Names(b.keys.playPause, e.key)
    ensures KeyDown(b, e) == Outcome(true, Some(if b.isPlaying then PlayerPause else PlayerPlay))
    ensures KeyDown(b.(isPlaying := !b.isPlaying), e).command != KeyDown(b, e).command
  {
  }

  /** Cmd or Ctrl decides the jump size whatever Shift says. */
  lemma ModifierPrecedence(e: KeyEvent)
    requires e.metaKey || e.ctrlKey
    ensures JumpMagnitude(e.(shiftKey := true)) == JumpMagnitude(e.(shiftKey := false)) == 10.0
  {
  }

  /** Holding a key: key-down of a hold key starts the hold in its direction and
      key-up of the same key stops it. */
  lemma HoldKeyPairs(b: Bindings, e: KeyEvent)
    requires b.enabled && b.ready && b.hasScrubber && !IsTypingTarget(e.target)
    requires !Names(b.keys.playPause, e.key) && !Names(b.keys.pause, e.key)
    requires Names(b.keys.rewind, e.key) || Names(b.keys.forward, e.key)
    ensures KeyDown(b, e).command == Some(if Names(b.keys.rewind, e.key) then StartHoldRewind else StartHoldForward)
    ensures KeyUp(b, e).command == Some(StopHold)
  {
  }

  /** With the shipped map: space toggles, `k` pauses, `j` and `l` hold, and their
      key-ups release. */
  lemma ShippedBindings(b: Bindings, target: Target)
    requires b.enabled && b.ready && b.hasScrubber && b.keys == KeyboardMap && !IsTypingTarget(target)
    ensures KeyDown(b, KeyEvent(" ", false, false, false, target)).command == Some(if b.isPlaying then PlayerPause else PlayerPlay)
    ensures KeyDown(b, KeyEvent("k", false, false, false, target)).command == Some(PlayerPause)
    ensures KeyDown(b, KeyEvent("j", false, false, false, target)).command == Some(StartHoldRewind)
    ensures KeyDown(b, KeyEvent("l", false, false, false, target)).command == Some(StartHoldForward)
    ensures KeyUp(b, KeyEvent("j", false, false, false, target)).command == Some(StopHold)
    ensures KeyUp(b, KeyEvent("l", false, false, false, target)).command == Some(StopHold)
    ensures KeyUp(b, KeyEvent("k", false, false, false, target)) == Ignored
  {
  }

  /** As shipped, the map has no `toggleSlowMo`, `jumpBack1` or `jumpForward1`
      entry, so no key-down ever toggles slow motion or jumps, and `s` and the
      arrow keys pass untouched whatever the modifiers. */
  lemma ShippedMapNeverJumps(b: Bindings, e: KeyEvent)
    requires b.keys == KeyboardMap
    ensures KeyDown(b, e).command != Some(ToggleSlowMo)
    ensures !(KeyDown(b, e).command.Some? && KeyDown(b, e).command.value.JumpBack?)
    ensures !(KeyDown(b, e).command.Some? && KeyDown(b, e).command.value.JumpForward?)
    ensures e.key == "ArrowLeft" || e.key == "ArrowRight" || e.key == "s" ==> KeyDown(b, e) == Ignored
  {
  }

  /** The map the slow-motion and arrow-key branches were written for: `S` for
      slow motion and the arrows under the names the handler reads. */
  const IntendedKeyboardMap: KeyMap :=
    KeyboardMap.(toggleSlowMo := Some("s"), jumpBack1 := Some("ArrowLeft"), jumpForward1 := Some("ArrowRight"))

  /** With the intended map the arrows jump by 1, 5 or 10 seconds. */
  lemma IntendedArrowsJump(b: Bindings, e: KeyEvent)
    requires b.enabled && b.ready && b.hasScrubber && b.keys == IntendedKeyboardMap && !IsTypingTarget(e.target)
    ensures e.key == "ArrowLeft" ==> KeyDown(b, e) == Outcome(true, Some(JumpBack(JumpMagnitude(e))))
    ensures e.key == "ArrowRight" ==> KeyDown(b, e) == Outcome(true, Some(JumpForward(JumpMagnitude(e))))
  {
  }

  /** With the intended map the `S` key toggles slow motion. */
  lemma IntendedSlowMoToggles(b: Bindings, e: KeyEvent)
    requires b.enabled && b.ready && b.hasToggleSlowMo && b.keys == IntendedKeyboardMap && !IsTypingTarget(e.target)
    requires e.key == "s"
    ensures KeyDown(b, e) == Outcome(true, Some(ToggleSlowMo))
  {
  }
}
