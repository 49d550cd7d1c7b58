/** The abstract player controller the scrubber drives (the shape of
    src/types/player.ts:6-23). Commands are fire-and-forget: the backend applies
    them later and reflects the results in the live fields, which the environment
    updates, so a command here only records itself in `log`. Commands issued while
    the player is not ready are dropped, as the adapters drop them when there is
    no player object yet. */
module Player {

  /** A command sent to the backend. */
  datatype Command = Play | Pause | SeekTo(seconds: real)

  class Controller {
    /** The backend has loaded enough to accept commands. */
    var ready: bool
    /** The backend reports that it is playing. */
    var isPlaying: bool
    /** Total duration in seconds; 0 while unknown. */
    var duration: real
    /** The backend's current position in seconds. */
    var currentTime: real
    /** Every command the backend has accepted, oldest first. */
    var log: seq<Command>

    constructor (ready: bool, isPlaying: bool, duration: real, currentTime: real)
      ensures this.ready == ready && this.isPlaying == isPlaying
      ensures this.duration == duration && this.currentTime == currentTime
      ensures log == []
    {
      this.ready := ready;
      this.isPlaying := isPlaying;
      this.duration := duration;
      this.currentTime := currentTime;
      log := [];
    }

    /** `getCurrentTime()`: a snapshot of the position. */
    function GetCurrentTime(): real
      reads this
    {
      currentTime
    }

    method Play()
      modifies this`log
      ensures log == old(log) + (if ready then [Command.Play] else [])
    {
      if ready { log := log + [Command.Play]; }
    }

    method Pause()
      modifies this`log
      ensures log == old(log) + (if ready then [Command.Pause] else [])
    {
      if ready { log := log + [Command.Pause]; }
    }

    method SeekTo(seconds: real)
      modifies this`log
      ensures log == old(log) + (if ready then [Command.SeekTo(seconds)] else [])
    {
      if ready { log := log + [Command.SeekTo(seconds)]; }
    }
  }
}
