# Film scrubber core, modelled in Dafny

This project models the frame-by-frame scrubbing core of the film-scrubber web
app and proves properties of the model.

- **Hold-to-scrub engine** (`scrubber_controls.dfy`, over the abstract player in
  `player.dfy`). The engine is a `Scrubber` class whose fields are the hook's refs.
  - `StartHold` tears down any session and snapshots whether the player was playing.
    It pauses, pre-buffers a rewind with two seeks, and schedules the frame callback.
  - `Tick(now)` is one display frame. It issues a seek at most once every 150 ms,
    towards a target computed from the anchor and the elapsed clock.
  - `StopHold` ends the session and resumes playback only if it was playing before.
  - `Jump` pauses and seeks by a signed offset.
  - The player records every accepted command in a log. Commands sent while the
    player is not ready are dropped. All properties are stated over that log.
  - A ghost list of the session's seek clocks carries the throttle invariant.
- **Time arithmetic** (`time.dfy`): `clampTime`, `stepTime` and `jumpTime` over
  real-valued seconds.
- **Keyboard bindings** (`keyboard_shortcuts.dfy`). Typing-target detection plus the
  key-down and key-up dispatch, as a pure function. It takes the event, the
  handler's state and the key map (`constants.dfy`), and returns at most one
  command and whether the default action is prevented.
- **Video-id extraction** (`youtube.dfy`). JavaScript `trim`, then an unanchored
  leftmost search for each of the four link prefixes followed by eleven id
  characters, tried in a fixed order.
- **Deep-link state** (`url_state.dfy`). Parsing the query string into optional
  fields, writing the live state back as an ordered key/value list, and mapping a
  deep link onto settings overrides.
- **Settings** (`settings.dfy`). Field-by-field decoding of the stored JSON value
  with per-field defaults and clamping. Saving is modelled as the JSON value that
  would be written.

Times are exact reals, and the frame clock `now` is a parameter. A JavaScript
number is `Finite(real)` or `NonFinite` where finiteness matters. `Number`,
`String`, `toFixed(3)` and `JSON.parse` are function parameters.

## Model

| member | source | states |
|---|---|---|
| Time.FloorAtZero | src/lib/time.ts:46 | `Math.max(0, x)` is non-negative, is the identity on non-negative times, and is the non-negative time nearest to `x` |
| Time.ClampTime | src/lib/time.ts:29-34 | a non-positive duration gives 0; otherwise the result lies in [0, duration] and is the point of that interval nearest to the input |
| Time.JumpTime | src/lib/time.ts:39-47 | never negative; never above a positive duration; equals clamping of `current + seconds` when a duration is given and flooring at 0 otherwise |
| Time.StepTime | src/lib/time.ts:16-24 | a step is a jump by `direction * stepSize` under the same clamping policy, and is never negative |
| Time.ClampInRange | src/lib/time.ts:29-34 | a time already in [0, duration] is unchanged by clamping |
| Time.ClampIdempotent | src/lib/time.ts:29-34 | clamping twice equals clamping once |
| Time.ClampMonotone | src/lib/time.ts:29-34 | clamping preserves the order of two times |
| Time.JumpZero | src/lib/time.ts:39-47 | a zero jump returns `c` for `c >= 0` with no duration, and for `c` in [0, d] with `d > 0` |
| Time.StepRoundTrip | src/lib/time.ts:16-24 | a forward step followed by a backward step of the same size returns to the start when neither step was clamped |
| Time.JumpCompose | src/lib/time.ts:39-47 | two jumps equal one jump by their sum when the first was not clamped |
| Time.TimeScenarios | src/lib/time.test.ts:4-55 | the clamp, step and jump values of the unit tests |
| Player.Controller.constructor | src/types/player.ts:6-23 | a controller with the given readiness, play state, duration and position, and an empty command log |
| Player.Controller.Play | src/hooks/useYouTubePlayer.ts:44 | `play()` records `Play` when ready and is dropped otherwise |
| Player.Controller.Pause | src/hooks/useYouTubePlayer.ts:45 | `pause()` records `Pause` when ready and is dropped otherwise |
| Player.Controller.SeekTo | src/hooks/useYouTubePlayer.ts:46-48 | `seekTo(s)` records `SeekTo(s)` when ready and is dropped otherwise |
| ScrubberControls.Displacement | src/hooks/useScrubberControls.ts:87-88 | the elapsed seconds times the multiplier; non-negative for a non-negative multiplier and a clock at or after the hold's start |
| ScrubberControls.TickTarget | src/hooks/useScrubberControls.ts:68-91 | a rewind target is never negative; a bounded forward target never exceeds the duration. With a non-negative multiplier and a clock at or after the hold's start, a rewind target is also never above the floored anchor and a bounded forward target never falls below the anchor (or the bound, if smaller) |
| ScrubberControls.TickTargetMonotone | src/hooks/useScrubberControls.ts:87-91 | with a non-negative multiplier and a later clock, rewind targets never increase and forward targets never decrease |
| ScrubberControls.ThrottledAppend | src/hooks/useScrubberControls.ts:86-93 | a seek at least 150 ms after the previous one keeps the session's seek clocks throttled |
| ScrubberControls.ThrottledSpacing | src/hooks/useScrubberControls.ts:85-94 | in a throttled session any two seeks `k` apart are at least `150 * k` ms apart |
| ScrubberControls.Scrubber.constructor | src/hooks/useScrubberControls.ts:23-28 | a fresh hook has no pending frame, no session, `lastSeek` 0, not playing and no direction |
| ScrubberControls.Scrubber.ClearHold | src/hooks/useScrubberControls.ts:30-37 | cancels the pending frame and forgets the session's start and anchor, leaving `lastSeek`, `wasPlaying` and the direction alone |
| ScrubberControls.Scrubber.StopHold | src/hooks/useScrubberControls.ts:39-46 | ends the session, issues `Play` exactly when the hold began on a playing player that is ready now, then clears `wasPlaying` and the direction |
| ScrubberControls.Scrubber.Jump | src/hooks/useScrubberControls.ts:48-57 | no command when not ready; otherwise `Pause` then `SeekTo(max(0, t + s))`, with no upper clamp |
| ScrubberControls.Scrubber.JumpBack | src/hooks/useScrubberControls.ts:109 | a jump by `-s`: `Pause` then `SeekTo(max(0, t - s))` when ready |
| ScrubberControls.Scrubber.JumpForward | src/hooks/useScrubberControls.ts:110 | a jump by `s`: `Pause` then `SeekTo(max(0, t + s))` when ready |
| ScrubberControls.Scrubber.StartHold | src/hooks/useScrubberControls.ts:59-101 | no state change and no command when not ready or without a direction. Otherwise a fresh session: anchor at the position, start at `now`, `lastSeek` 0, `wasPlaying` is the play state, a frame pending, the closure's rewind flag, multiplier and bound (none for duration 0), and log `Pause` plus the two pre-buffer seeks for a rewind |
| ScrubberControls.Scrubber.Prebuffer | src/hooks/useScrubberControls.ts:72-77 | seeks to `max(0, t - 5)` and then back to `t` |
| ScrubberControls.Scrubber.StartHoldRewind | src/hooks/useScrubberControls.ts:103 | `StartHold` in the rewind direction at the slow speed |
| ScrubberControls.Scrubber.StartHoldForward | src/hooks/useScrubberControls.ts:104 | `StartHold` in the forward direction at the slow speed |
| ScrubberControls.Scrubber.StartHoldRewindFast | src/hooks/useScrubberControls.ts:105 | `StartHold` in the fast rewind direction at the fast speed |
| ScrubberControls.Scrubber.StartHoldForwardFast | src/hooks/useScrubberControls.ts:106 | `StartHold` in the fast forward direction at the fast speed |
| ScrubberControls.Scrubber.Tick | src/hooks/useScrubberControls.ts:83-98 | a cancelled frame does nothing. A frame on a player that is not ready stops the loop. Otherwise it seeks to the tick target and records the clock exactly when 150 ms have passed since the last seek, and schedules itself again. The session's seeks stay throttled |
| ScrubberControls.HoldAndRelease | src/hooks/useScrubberControls.ts:39-81 | a hold released before any frame logs `Pause`, the rewind pre-buffer seeks ending back at the anchor, and `Play` exactly when the player was playing; a forward hold seeks nothing |
| ScrubberControls.ReleaseTwice | src/hooks/useScrubberControls.ts:39-46 | a second release issues no command |
| ScrubberControls.Restart | src/hooks/useScrubberControls.ts:30-98 | starting a new hold over a live one replaces the session: the next frame seeks by the new hold's direction, multiplier, anchor and start only, even when the player moved between the two holds |
| ScrubberControls.RunHold | src/hooks/useScrubberControls.ts:83-98 | over any run of frames, tick seeks come at least 150 ms apart (times their distance in the sequence); rewind seeks are never negative and bounded forward seeks never pass the duration |
| KeyboardShortcuts.ToLower | src/hooks/useKeyboardShortcuts.ts:17 | lower-casing keeps the length and lower-cases each character |
| KeyboardShortcuts.IsTypingTarget | src/hooks/useKeyboardShortcuts.ts:15-21 | an element whose tag name spells `input` or `textarea` in any case, or that is content-editable, is a typing target; nothing else is |
| KeyboardShortcuts.JumpMagnitude | src/hooks/useKeyboardShortcuts.ts:68-92 | the jump is one of 1, 5, 10 s; 10 exactly with Cmd or Ctrl; 5 exactly with Shift and neither of them |
| KeyboardShortcuts.KeyDown | src/hooks/useKeyboardShortcuts.ts:30-93 | nothing happens when disabled, not ready or typing. Otherwise the first entry, in handler order, that names the key decides: play/pause toggles, pause pauses, rewind and forward start their hold, the slow-motion key toggles slow motion, and the jump keys jump by the modifier's magnitude, each prevented and each hold, slow-motion or jump command issued only when that handler exists (`ToScrubber`). The default is prevented exactly when some entry names the key. Key-down never stops a hold |
| KeyboardShortcuts.KeyUp | src/hooks/useKeyboardShortcuts.ts:95-101 | key-up of a hold key (outside a typing target, with the handlers installed) is prevented and stops the hold when a scrubber exists; every other key-up passes untouched |
| KeyboardShortcuts.PlayPauseToggles | src/hooks/useKeyboardShortcuts.ts:37-42 | the play/pause key pauses a playing player and plays a paused one |
| KeyboardShortcuts.ModifierPrecedence | src/hooks/useKeyboardShortcuts.ts:71-77 | Cmd or Ctrl decides a 10 s jump whatever Shift says |
| KeyboardShortcuts.HoldKeyPairs | src/hooks/useKeyboardShortcuts.ts:50-101 | key-down of a hold key starts the hold in its direction and key-up of the same key stops it |
| KeyboardShortcuts.ShippedBindings | src/hooks/useKeyboardShortcuts.ts:37-101 | with the shipped map: space toggles, `k` pauses, `j`/`l` start holds, their key-ups stop them, and key-up of `k` passes |
| KeyboardShortcuts.ShippedMapNeverJumps | src/lib/constants.ts:21-28 | with the shipped map no key-down toggles slow motion or jumps, and `s` and the arrow keys pass untouched |
| KeyboardShortcuts.FirstNamedCases | src/hooks/useKeyboardShortcuts.ts:37-92 | the entry that decides a key is the first in handler order that names it: play/pause exactly when it names the key, each later entry only when no earlier one does |
| KeyboardShortcuts.IntendedSlowMoToggles | src/components/HelpPanel.tsx:37 | with `s` bound to the slow-motion entry, `s` toggles slow motion and is prevented |
| KeyboardShortcuts.IntendedArrowsJump | src/components/HelpPanel.tsx:38-43 | with the arrows under the names the handler reads, Left jumps back and Right jumps forward by 1, 5 or 10 s |
| YouTube.TrimStart | src/lib/youtube.ts:11 | removes leading white space: the result is empty or starts with a non-white-space character |
| YouTube.Trim | src/lib/youtube.ts:11 | `TrimEnd` after `TrimStart`: never longer than the input, and empty or starting and ending with a non-white-space character |
| YouTube.TrimStartDropsLeadingWhitespace | src/lib/youtube.ts:11 | trimming the front keeps a suffix of the input and what it removes is all white space |
| YouTube.TrimEndDropsTrailingWhitespace | src/lib/youtube.ts:11 | trimming the end keeps a prefix of the input and what it removes is all white space |
| YouTube.TrimIsSlice | src/lib/youtube.ts:11 | `trim()` returns a contiguous slice of the input with only white space before and after it |
| YouTube.Search | src/lib/youtube.ts:15-34 | returns the leftmost match position at or after `from`, or reports that none exists |
| YouTube.MatchId | src/lib/youtube.ts:15-34 | a pattern yields an id exactly when it matches somewhere; the id is eleven id characters captured by the leftmost match |
| YouTube.ExtractVideoId | src/lib/youtube.ts:9-37 | a result is a valid id; there is one exactly when one of the four shapes occurs in the trimmed input; the watch, short, shorts and embed shapes are tried in that order |
| YouTube.TrimStartSkipsWhitespace | src/lib/youtube.ts:11 | leading white space is removed entirely |
| YouTube.TrimEndSkipsWhitespace | src/lib/youtube.ts:11 | trailing white space is removed entirely |
| YouTube.TrimStartConcat | src/lib/youtube.ts:11 | how trimming the front of a concatenation splits over its parts |
| YouTube.TrimIgnoresSurroundingWhitespace | src/lib/youtube.ts:11 | surrounding white space does not change the trimmed text |
| YouTube.ExtractIgnoresSurroundingWhitespace | src/lib/youtube.test.ts:40-42 | surrounding white space does not change the extracted id |
| YouTube.BlankHasNoId | src/lib/youtube.test.ts:24-29 | null, undefined, empty and blank input yield no id |
| YouTube.WatchLink | src/lib/youtube.test.ts:7-8 | `https://www.youtube.com/watch?v=ID` yields `ID` for every valid id |
| YouTube.BareWatchLink | src/lib/youtube.test.ts:9 | `https://youtube.com/watch?v=ID` yields `ID` for every valid id |
| YouTube.ShortLink | src/lib/youtube.test.ts:12-14 | `https://youtu.be/ID` yields `ID` for every valid id |
| YouTube.ShortsLink | src/lib/youtube.test.ts:16-18 | `https://www.youtube.com/shorts/ID` yields `ID` for every valid id |
| YouTube.EmbedLink | src/lib/youtube.test.ts:20-22 | `https://www.youtube.com/embed/ID` yields `ID` for every valid id |
| YouTube.RejectedLinks | src/lib/youtube.test.ts:31-38 | a foreign link and a watch link with a too short id yield nothing |
| UrlState.Get | src/lib/urlState.ts:10-14 | `get` finds a value exactly when the key is present, and it is the value of the first pair with that key |
| UrlState.ParseUrlState | src/lib/urlState.ts:7-22 | no window gives an empty state; `v` is present exactly when it is non-empty; each numeric field (read through `NumberParam`) is present exactly when its key is, with `Number` of the first value, finite or not |
| UrlState.FiniteValue | src/lib/urlState.ts:45-48 | a value exactly for a present, finite number, and that number |
| UrlState.NonEmpty | src/lib/urlState.ts:44 | a value exactly for a present, non-empty string, and that string |
| UrlState.SetAll | src/lib/urlState.ts:31-36 | every written pair comes from a present entry |
| UrlState.SetAllOrdered | src/lib/urlState.ts:31-36 | keys set in rank order are written in rank order |
| UrlState.SetAllGet | src/lib/urlState.ts:31-36 | after setting keys in rank order, `get` of each key returns exactly its entry's value, absent ones included |
| UrlState.BuildSearchParams | src/lib/urlState.ts:24-38 | keys appear only among `v`, `t`, `speed`, `slowMo`, `scrubSpeed`, at most once each and in that order; each appears exactly when its field is present (non-empty for `v`) and finite, with `t` in three-decimal form and `slowMo` holding `slowMoSpeed` |
| UrlState.ApplyUrlStateToSettings | src/lib/urlState.ts:40-50 | each output field is present exactly when its input field is present (non-empty for `v`) and finite, with the same value, under its settings name |
| UrlState.NoLinkAppliesNothing | src/lib/urlState.ts:40-50 | no window, or an empty query string, overrides no setting |
| UrlState.BuildThenParse | src/lib/urlState.ts:7-50 | writing the live state and reading it back gives back the id, and each finite speed whose own text reads back (`Number(String(x)) == x`, required per value); the position comes back as the number its three-decimal text denotes |
| Settings.Clamp | src/lib/settings.ts:23-28 | `max(lo, min(hi, x))` lies in [lo, hi], is the identity inside it, and is `hi` above it and `lo` below it |
| Settings.DecodeSettings | src/lib/settings.ts:21-29 | `null` gives the defaults; `speed` is the stored number (read through `NumberField`) unclamped, or 1; a stored `slowMoSpeed` is clamped to [0.1, 0.75] and a stored `holdTickRateMs` to [40, 150], so both are always in range; a non-number field takes its own default |
| Settings.LoadSettings | src/lib/settings.ts:16-33 | defaults without a window, when storage throws, for a missing or empty value and for unparsable text; otherwise the decoding of the parsed value; the loaded bounded fields are always in range |
| Settings.SettingsToJson | src/lib/settings.ts:35-38 | saving writes an object with exactly the three settings fields, each holding its setting's value |
| Settings.SaveThenLoad | src/lib/settings.ts:22-38 | decoding what was saved gives back settings whose bounded fields are in range, whatever extra fields the object carries |
| Settings.SaveThenLoadStored | src/lib/settings.ts:16-42 | loading the saved text, when `JSON.parse` reads back what was written, returns the saved settings |
| Settings.LoadIsStable | src/lib/settings.ts:16-42 | whatever is loaded survives another save and load unchanged |
| Settings.FieldsIndependent | src/lib/settings.ts:22-28 | replacing one stored field changes no other decoded field |
| Settings.WrongTypeLoadsDefaults | src/lib/settings.ts:22 | a stored `{"speed": "fast"}` decodes to the defaults |
| Settings.ClampsBoundedFieldsOnly | src/lib/settings.ts:22-28 | out-of-range `slowMoSpeed` and `holdTickRateMs` are pulled to their nearest bound while `speed` is kept as stored |

## Left out

- Player adapters (src/hooks/useYouTubePlayer.ts, src/hooks/useLocalPlayer.ts): script loading, polling, DOM listeners and `destroy` are replaced by the abstract `Controller`. `setPlaybackRate`, `getAvailablePlaybackRates`, `getPlayerState`, volume and `loading` are not used by the modelled core.
- Timing: `requestAnimationFrame` is a `pending` flag plus an externally called `Tick`. `cancelAnimationFrame` clears the flag. `performance.now()` is the `now` parameter. The real frame scheduler and its concurrency are not modelled.
- A `null` controller is folded into a controller that is not ready, since every modelled guard reads `controller?.ready`.
- The scrub closure's own copy of `controller` is not modelled separately from the hook's; a re-rendered hook with a new controller object is out of scope.
- React state: `holdDirection` is a plain field, and re-render timing and hook dependency arrays are not modelled.
- `formatTime` (src/lib/time.ts:6-10): floating-point `%` and `toFixed` are outside the model, and its seconds are not zero-padded, so no padded format is claimed.
- Times are exact reals: floating-point rounding in `current + seconds`, `elapsed * multiplier` and `(now - holdStart) / 1000` is not modelled.
- `jumpAmounts` in the hook's return value is the constant `JumpAmounts`; there is nothing to prove about it.
- KeyboardShortcuts.KeyDown: listener installation and removal are reduced to the `enabled` and `ready` flags read when the handlers are installed. The handlers read the controller captured then.
- KeyboardShortcuts.ToLower: lower-cases ASCII letters only; `toLowerCase` on non-ASCII tag names is not modelled.
- YouTube.ExtractVideoId: a non-string argument (the `typeof` check) is not modelled; `null` and `undefined` are both `None`.
- I/O: `window.location`, `localStorage`, JSON text, URL percent-encoding (`params.toString()`) and the JavaScript number-to-string conversions are parameters or inputs. The page without a window is `None` for the query string and a `hasWindow` flag for settings.
- Settings: JSON numbers are reals, so a stored number that overflows to `Infinity` is not modelled. `saveSettings` writing to storage, and its swallowed errors, are I/O; only the value it serializes is modelled.
- Settings.SettingsToJson: saving is modelled only for a value with the three fields `loadSettings` returns. src/components/ScrubberShell.tsx:43 saves `{speed, slowMoSpeed, scrubSpeedFast}` instead, so in the app `holdTickRateMs` is never written and the saved `scrubSpeedFast` is never read back by `loadSettings`; that component is not part of this model, and the round-trip lemmas hold only for the modelled shape.
- YouTube.Trim: its own contract states only the length and the two ends of the result; that the result is the input with exactly a leading and a trailing white-space run removed is stated by YouTube.TrimIsSlice and the two lemmas it rests on.
- UI components (ControlBar, ScrubberShell, HelpPanel, LocalPlayer, UrlInput, PlayerArea, page) and the pointer handlers they bind are not part of this model. The `setTimeout` URL debounce and `history.replaceState` are not part of it either.
- The code has no pause on release, no rate-based forward hold, no restore of the playback rate and no sub-frame step, so none of these is modelled. The stored settings fields are `speed`, `slowMoSpeed` and `holdTickRateMs`, as settings.ts reads them. The declared type in src/types/player.ts:26-30 names `scrubSpeedMultiplier` instead.

## Findings

| source | as written | input that shows it | evidently intended | confidence | as-written member | corrected member |
|---|---|---|---|---|---|---|
| src/hooks/useKeyboardShortcuts.ts:68-92 with src/lib/constants.ts:21-28 | the handler compares `e.key` with `KEYBOARD_MAP.jumpBack1` and `jumpForward1`, which the map does not define (it has `stepBack`/`stepForward`), so these branches never fire | a key-down of `ArrowLeft` with Shift held on a ready, enabled page: nothing happens and the default is not prevented | the arrows jump back/forward by 1, 5 or 10 s as src/components/HelpPanel.tsx:38-43 documents | not executed | KeyboardShortcuts.ShippedMapNeverJumps | KeyboardShortcuts.IntendedArrowsJump |
| src/hooks/useKeyboardShortcuts.ts:62-66 with src/lib/constants.ts:21-28 | the handler compares `e.key` with `KEYBOARD_MAP.toggleSlowMo`, which the map does not define, so slow motion can never be toggled from the keyboard | a key-down of `s` on a ready, enabled page with a slow-motion handler: nothing happens | `S` toggles slow motion as src/components/HelpPanel.tsx:37 documents | not executed | KeyboardShortcuts.ShippedMapNeverJumps | KeyboardShortcuts.IntendedSlowMoToggles |
