/** The hold-to-scrub engine (src/hooks/useScrubberControls.ts). The hook's refs
    become the fields of `Scrubber`; `requestAnimationFrame` becomes the `pending`
    flag, and the frame loop becomes `Tick`, which the environment calls once per
    display frame while a callback is pending. The clock (`performance.now()`, in
    milliseconds) is the parameter `now`. */
module ScrubberControls {
  import opened Optional
  import opened Time
  import opened Player

  /** Minimum time between two seeks issued by ticks, in milliseconds. */
  const SeekThrottleMs: real := 150.0

  /** How far back a rewind hold pre-buffers, in seconds. */
  const PrebufferSeconds: real := 5.0

  /** The four hold directions; a missing direction (`null`) is `None`. */
  datatype HoldDirection = Rewind | Forward | RewindFast | ForwardFast {
    predicate IsRewind() {
      this == Rewind || this == RewindFast
    }
  }

  /** What the scheduled scrub callback captured when its hold started: whether it
      rewinds, the speed multiplier, and the upper bound `duration || Infinity`
      (`None` is an unbounded forward hold). */
  datatype ScrubParams = ScrubParams(isRewind: bool, multiplier: real, bound: Option<real>)

  /** `Math.min(a, b)`. */
  function Min(a: real, b: real): real {
    if a <= b then a else b
  }

  /** How far the position has moved `now - holdStart` milliseconds into a hold:
      the elapsed seconds times the multiplier. */
  function Displacement(multiplier: real, holdStart: real, now: real): (r: real)
    ensures multiplier >= 0.0 && now >= holdStart ==> r >= 0.0
  {
    (now - holdStart) / 1000.0 * multiplier
  }

  /** The position a permitted tick seeks to: `anchor`, moved by the displacement
      in the hold's direction, floored at zero when rewinding and capped at the
      bound when going forward. */
  function TickTarget(p: ScrubParams, anchor: real, holdStart: real, now: real): (r: real)
    ensures p.isRewind ==> r >= 0.0
    ensures !p.isRewind && p.bound.Some? ==> r <= p.bound.value
    ensures p.multiplier >= 0.0 && now >= holdStart ==>
      (if p.isRewind then r <= FloorAtZero(anchor) else r >= Min(anchor, p.bound.GetOr(anchor)))
  {
    var delta := Displacement(p.multiplier, holdStart, now);
    if p.isRewind then FloorAtZero(anchor - delta)
    else if p.bound.Some? then Min(p.bound.value, anchor + delta)
    else anchor + delta
  }

  /** With a non-negative multiplier and a clock that does not run backwards,
      successive rewind targets never increase and forward targets never decrease. */
  lemma TickTargetMonotone(p: ScrubParams, anchor: real, holdStart: real, now1: real, now2: real)
    requires p.multiplier >= 0.0 && now1 <= now2
    ensures p.isRewind ==> TickTarget(p, anchor, holdStart, now2) <= TickTarget(p, anchor, holdStart, now1)
    ensures !p.isRewind ==> TickTarget(p, anchor, holdStart, now1) <= TickTarget(p, anchor, holdStart, now2)
  {
    DisplacementMonotone(p.multiplier, holdStart, now1, now2);
  }

  /** The displacement grows with the clock. */
  lemma DisplacementMonotone(multiplier: real, holdStart: real, now1: real, now2: real)
    requires multiplier >= 0.0 && now1 <= now2
    ensures Displacement(multiplier, holdStart, now1) <= Displacement(multiplier, holdStart, now2)
  {
    var e1, e2 := (now1 - holdStart) / 1000.0, (now2 - holdStart) / 1000.0;
    var gap := e2 - e1;
    assert gap >= 0.0;
    NonNegativeProduct(gap, multiplier);
    assert e2 * multiplier == e1 * multiplier + gap * multiplier;
  }

  lemma NonNegativeProduct(a: real, b: real)
    requires a >= 0.0 && b >= 0.0
    ensures a * b >= 0.0
  {
  }

  /** Every seek in the sequence comes at least `SeekThrottleMs` after the previous
      one, and the first at least `SeekThrottleMs` after clock 0. */
  ghost predicate Throttled(clocks: seq<real>) {
    forall i :: 0 <= i < |clocks| ==> clocks[i] - PrevSeek(clocks, i) >= SeekThrottleMs
  }

  /** The clock of the seek before the `i`-th one, or 0 (the value a session
      starts `lastSeek` with) before the first. */
  ghost function PrevSeek(clocks: seq<real>, i: nat): real
    requires i <= |clocks|
  {
    if i == 0 then 0.0 else clocks[i - 1]
  }

  /** A seek `SeekThrottleMs` after the last one keeps the sequence throttled. */
  lemma ThrottledAppend(clocks: seq<real>, now: real)
    requires Throttled(clocks)
    requires now - PrevSeek(clocks, |clocks|) >= SeekThrottleMs
    ensures Throttled(clocks + [now])
  {
    var s := clocks + [now];
    forall i | 0 <= i < |s|
      ensures s[i] - PrevSeek(s, i) >= SeekThrottleMs
    {
      if i < |clocks| {
        assert s[i] == clocks[i] && PrevSeek(s, i) == PrevSeek(clocks, i);
      } else {
        assert s[i] == now && PrevSeek(s, i) == PrevSeek(clocks, |clocks|);
      }
    }
  }

  /** Any two throttled seeks are at least `SeekThrottleMs` apart, times the
      number of seeks between them. */
  lemma {:induction false} ThrottledSpacing(clocks: seq<real>, i: nat, j: nat)
    requires Throttled(clocks) && i < j < |clocks|
    ensures clocks[j] - clocks[i] >= (j - i) as real * SeekThrottleMs
    decreases j
  {
    assert clocks[j] - PrevSeek(clocks, j) >= SeekThrottleMs;
    if i < j - 1 {
      ThrottledSpacing(clocks, i, j - 1);
    }
  }

  /** The hook's state. The fields mirror its refs: `pending` is a live
      `rafIdRef`, `holdStart` is `holdStartTimeRef`, `anchor` is
      `videoStartTimeRef`, `lastSeek` is `lastSeekTimeRef`, `wasPlaying` is
      `wasPlayingRef`; `params` is what the scheduled callback captured. */
  class Scrubber {
    const player: Controller
    const scrubSpeedSlow: real
    const scrubSpeedFast: real

    var pending: bool
    var holdStart: Option<real>
    var anchor: Option<real>
    var lastSeek: real
    var wasPlaying: bool
    var holdDirection: Option<HoldDirection>
    var params: ScrubParams
    /** The clocks at which ticks of the current hold session issued seeks. */
    ghost var sessionSeeks: seq<real>

    /** A callback is pending only inside a session; the session's seeks are
        throttled and `lastSeek` is the last of them (0 before the first). */
    ghost predicate Valid()
      reads this
    {
      && (pending ==> holdStart.Some?)
      && (holdStart.Some? <==> anchor.Some?)
      && (holdStart.None? ==> sessionSeeks == [])
      && Throttled(sessionSeeks)
      && (holdStart.Some? ==> lastSeek == PrevSeek(sessionSeeks, |sessionSeeks|))
    }

    constructor (player: Controller, scrubSpeedSlow: real, scrubSpeedFast: real)
      ensures Valid()
      ensures this.player == player && this.scrubSpeedSlow == scrubSpeedSlow && this.scrubSpeedFast == scrubSpeedFast
      ensures !pending && holdStart.None? && anchor.None? && lastSeek == 0.0
      ensures !wasPlaying && holdDirection.None?
    {
      this.player := player;
      this.scrubSpeedSlow := scrubSpeedSlow;
      this.scrubSpeedFast := scrubSpeedFast;
      pending := false;
      holdStart := None;
      anchor := None;
      lastSeek := 0.0;
      wasPlaying := false;
      holdDirection := None;
      params := ScrubParams(false, 0.0, None);
      sessionSeeks := [];
    }

    /** Ends the session: cancels the pending callback and forgets the anchor. It
        is safe to call with no session. `lastSeek`, `wasPlaying` and the
        direction are left as they are. */
    method ClearHold()
      requires Valid()
      modifies this
      ensures Valid()
      ensures !pending && holdStart.None? && anchor.None?
      ensures lastSeek == old(lastSeek) && wasPlaying == old(wasPlaying)
      ensures holdDirection == old(holdDirection) && params == old(params)
    {
      // cancelAnimationFrame on a live request; a request that already fired is gone anyway
      pending := false;
      holdStart := None;
      anchor := None;
      sessionSeeks := [];
    }

    /** Releases a hold: ends the session, resumes playback if it was playing when
        the hold started and the player is ready, then forgets both. */
    method StopHold()
      requires Valid()
      modifies this, player`log
      ensures Valid()
      ensures !pending && holdStart.None? && anchor.None?
      ensures !wasPlaying && holdDirection.None?
      ensures lastSeek == old(lastSeek) && params == old(params)
      ensures player.log == old(player.log) + (if old(wasPlaying) && player.ready then [Command.Play] else [])
    {
      ClearHold();
      if wasPlaying && player.ready {
        player.Play();
      }
      wasPlaying := false;
      holdDirection := None;
    }

    /** Jumps by a signed number of seconds: pauses, then seeks to the current
        position plus `seconds`, floored at 0 and with no upper bound. Does nothing
        when the player is not ready; leaves any hold session alone. */
    method Jump(seconds: real)
      modifies player`log
      ensures player.ready ==>
        player.log == old(player.log) + [Command.Pause, Command.SeekTo(FloorAtZero(player.currentTime + seconds))]
      ensures !player.ready ==> player.log == old(player.log)
    {
      if !player.ready {
        return;
      }
      player.Pause();
      var t := player.GetCurrentTime();
      var next := JumpTime(t, seconds, None);
      player.SeekTo(next);
    }

    method JumpBack(seconds: real)
      modifies player`log
      ensures player.ready ==>
        player.log == old(player.log) + [Command.Pause, Command.SeekTo(FloorAtZero(player.currentTime - seconds))]
      ensures !player.ready ==> player.log == old(player.log)
    {
      Jump(-seconds);
    }

    method JumpForward(seconds: real)
      modifies player`log
      ensures player.ready ==>
        player.log == old(player.log) + [Command.Pause, Command.SeekTo(FloorAtZero(player.currentTime + seconds))]
      ensures !player.ready ==> player.log == old(player.log)
    {
      Jump(seconds);
    }

    /** The whole effect of `StartHold(direction, multiplier, now)`: nothing when
        the player is not ready or there is no direction; otherwise a fresh
        session anchored at the player's position, a `Pause`, and for a rewind the
        two pre-buffering seeks, back by `PrebufferSeconds` and again to the anchor. */
    twostate predicate HoldStarted(direction: Option<HoldDirection>, multiplier: real, now: real)
      reads this, player
    {
      if !old(player.ready) || direction.None? then
        && pending == old(pending) && holdStart == old(holdStart) && anchor == old(anchor)
        && lastSeek == old(lastSeek) && sessionSeeks == old(sessionSeeks) && wasPlaying == old(wasPlaying)
        && holdDirection == old(holdDirection) && params == old(params)
        && player.log == old(player.log)
      else
        var t := old(player.currentTime);
        var isRewind := direction.value.IsRewind();
        && pending && holdStart == Some(now) && anchor == Some(t) && lastSeek == 0.0 && sessionSeeks == []
        && wasPlaying == old(player.isPlaying) && holdDirection == direction
        && params == ScrubParams(isRewind, multiplier, if old(player.duration) == 0.0 then None else Some(old(player.duration)))
        && player.log == old(player.log) + [Command.Pause]
             + (if isRewind then [Command.SeekTo(FloorAtZero(t - PrebufferSeconds)), Command.SeekTo(t)] else [])
    }

    /** Starts a hold: tears down any session first (without resuming playback),
        records whether the player was playing, pauses, and schedules the tick. */
    method StartHold(direction: Option<HoldDirection>, multiplier: real, now: real)
      requires Valid()
      modifies this, player`log
      ensures Valid()
      ensures HoldStarted(direction, multiplier, now)
    {
      if !player.ready || direction.None? {
        return;
      }
      ClearHold();
      wasPlaying := player.isPlaying;
      player.Pause();
      holdDirection := direction;

      var videoStart := player.GetCurrentTime();
      var bound := if player.duration == 0.0 then None else Some(player.duration);
      var isRewind := direction.value.IsRewind();

      if isRewind {
        Prebuffer(videoStart);
      }

      anchor := Some(videoStart);
      holdStart := Some(now);
      lastSeek := 0.0;
      sessionSeeks := [];
      params := ScrubParams(isRewind, multiplier, bound);
      pending := true;
    }

    /** Seeks a little before `t` and back, so that the backend buffers the stretch
        a rewind is about to play. */
    method Prebuffer(t: real)
      requires player.ready
      modifies player`log
      ensures player.log == old(player.log) + [Command.SeekTo(FloorAtZero(t - PrebufferSeconds)), Command.SeekTo(t)]
    {
      player.SeekTo(FloorAtZero(t - PrebufferSeconds));
      player.SeekTo(t);
    }

    method StartHoldRewind(now: real)
      requires Valid()
      modifies this, player`log
      ensures Valid()
      ensures HoldStarted(Some(Rewind), scrubSpeedSlow, now)
    {
      StartHold(Some(Rewind), scrubSpeedSlow, now);
    }

    method StartHoldForward(now: real)
      requires Valid()
      modifies this, player`log
      ensures Valid()
      ensures HoldStarted(Some(Forward), scrubSpeedSlow, now)
    {
      StartHold(Some(Forward), scrubSpeedSlow, now);
    }

    method StartHoldRewindFast(now: real)
      requires Valid()
      modifies this, player`log
      ensures Valid()
      ensures HoldStarted(Some(RewindFast), scrubSpeedFast, now)
    {
      StartHold(Some(RewindFast), scrubSpeedFast, now);
    }

    method StartHoldForwardFast(now: real)
      requires Valid()
      modifies this, player`log
      ensures Valid()
      ensures HoldStarted(Some(ForwardFast), scrubSpeedFast, now)
    {
      StartHold(Some(ForwardFast), scrubSpeedFast, now);
    }

    /** One display frame. With no pending callback nothing runs. A pending
        callback stops (without rescheduling) once the player is not ready;
        otherwise it seeks to the tick target if at least `SeekThrottleMs` have
        passed since the last seek, and schedules itself again. */
    method Tick(now: real)
      requires Valid()
      modifies this, player`log
      ensures Valid()
      ensures holdStart == old(holdStart) && anchor == old(anchor) && params == old(params)
      ensures wasPlaying == old(wasPlaying) && holdDirection == old(holdDirection)
      ensures pending == (old(pending) && player.ready)
      ensures
        if old(pending) && player.ready && now - old(lastSeek) >= SeekThrottleMs then
          && player.log == old(player.log) + [Command.SeekTo(TickTarget(params, anchor.value, holdStart.value, now))]
          && lastSeek == now && sessionSeeks == old(sessionSeeks) + [now]
        else
          player.log == old(player.log) && lastSeek == old(lastSeek) && sessionSeeks == old(sessionSeeks)
    {
      if !pending {
        return;
      }
      if !player.ready || holdStart.None? || anchor.None? {
        pending := false;
        return;
      }
      if now - lastSeek >= SeekThrottleMs {
        var target := TickTarget(params, anchor.value, holdStart.value, now);
        player.SeekTo(target);
        ThrottledAppend(sessionSeeks, now);
        lastSeek := now;
        sessionSeeks := sessionSeeks + [now];
      }
      pending := true;
    }
  }

  /** A hold started and released before any frame: a pause, the rewind
      pre-buffering seeks (which end back at the anchor), and a play exactly when
      the player was playing before. */
  method HoldAndRelease(direction: HoldDirection, wasPlaying: bool, position: real, duration: real, now: real)
    returns (log: seq<Command>)
    ensures log == [Command.Pause]
      + (if direction.IsRewind() then [Command.SeekTo(FloorAtZero(position - PrebufferSeconds)), Command.SeekTo(position)] else [])
      + (if wasPlaying then [Command.Play] else [])
    ensures Command.Play in log <==> wasPlaying
    ensures direction.IsRewind() ==> log[2] == Command.SeekTo(position)
    ensures !direction.IsRewind() ==> forall k :: 0 <= k < |log| ==> !log[k].SeekTo?
  {
    var player := new Controller(true, wasPlaying, duration, position);
    var scrubber := new Scrubber(player, 1.0, 2.0);
    scrubber.StartHold(Some(direction), 1.0, now);
    scrubber.StopHold();
    log := player.log;
  }

  /** Releasing twice issues the resuming `Play` at most once. */
  method ReleaseTwice(direction: HoldDirection, position: real, now: real) returns (first: seq<Command>, second: seq<Command>)
    ensures first == [Command.Pause] + (if direction.IsRewind() then [Command.SeekTo(FloorAtZero(position - PrebufferSeconds)), Command.SeekTo(position)] else []) + [Command.Play]
    ensures second == first
  {
    var player := new Controller(true, true, 0.0, position);
    var scrubber := new Scrubber(player, 1.0, 2.0);
    scrubber.StartHold(Some(direction), 1.0, now);
    scrubber.StopHold();
    first := player.log;
    scrubber.StopHold();
    second := player.log;
  }

  /** Starting a second hold without a release: the next tick seeks by the
      second hold's direction, multiplier, anchor and clock only, even when the
      player has moved between the two holds. */
  method Restart(position: real, position2: real, duration: real, start1: real, start2: real, multiplier: real, frame: real)
    returns (seek: Command)
    requires frame >= SeekThrottleMs
    ensures seek == Command.SeekTo(TickTarget(ScrubParams(false, multiplier, if duration == 0.0 then None else Some(duration)), position2, start2, frame))
  {
    var player := new Controller(true, false, duration, position);
    var scrubber := new Scrubber(player, 1.0, multiplier);
    scrubber.StartHoldRewind(start1);
    player.currentTime := position2;
    scrubber.StartHoldForwardFast(start2);
    var before := |player.log|;
    scrubber.Tick(frame);
    seek := player.log[before];
  }

  /** Drives one hold through a run of display frames, as the runtime's frame loop
      does, and reports the clocks at which seeks were issued. However fast the
      frames come, the seeks are throttled, and every tick's seek stays within
      [0, ∞) for a rewind and within (-∞, duration] for a bounded forward hold. */
  method RunHold(direction: HoldDirection, multiplier: real, position: real, duration: real, start: real, frames: seq<real>)
    returns (seekClocks: seq<real>, log: seq<Command>)
    ensures forall i, j :: 0 <= i < j < |seekClocks| ==> seekClocks[j] - seekClocks[i] >= (j - i) as real * SeekThrottleMs
    ensures var pre := if direction.IsRewind() then 3 else 1;
      && |log| == pre + |seekClocks|
      && forall k :: pre <= k < |log| ==>
           && log[k].SeekTo?
           && (direction.IsRewind() ==> log[k].seconds >= 0.0)
           && (!direction.IsRewind() && duration != 0.0 ==> log[k].seconds <= duration)
  {
    var player := new Controller(true, false, duration, position);
    var scrubber := new Scrubber(player, multiplier, multiplier);
    scrubber.StartHold(Some(direction), multiplier, start);
    var pre := |player.log|;
    seekClocks := [];
    var n := 0;
    while n < |frames|
      invariant 0 <= n <= |frames|
      invariant scrubber.Valid() && scrubber.pending && scrubber.player == player && player.ready
      invariant scrubber.params == ScrubParams(direction.IsRewind(), multiplier, if duration == 0.0 then None else Some(duration))
      invariant scrubber.sessionSeeks == seekClocks
      invariant |player.log| == pre + |seekClocks|
      invariant forall k :: pre <= k < |player.log| ==>
                  && player.log[k].SeekTo?
                  && (direction.IsRewind() ==> player.log[k].seconds >= 0.0)
                  && (!direction.IsRewind() && duration != 0.0 ==> player.log[k].seconds <= duration)
    {
      var before := |player.log|;
      scrubber.Tick(frames[n]);
      if |player.log| > before {
        seekClocks := seekClocks + [frames[n]];
      }
      n := n + 1;
    }
    log := player.log;
    forall i, j | 0 <= i < j < |seekClocks|
      ensures seekClocks[j] - seekClocks[i] >= (j - i) as real * SeekThrottleMs
    {
      ThrottledSpacing(seekClocks, i, j);
    }
  }
}
