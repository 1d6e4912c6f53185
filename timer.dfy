/**
 * The span's `Timer` collaborator. Its clock reads are not part of this
 * model: the object only records which calls the span made on it, and the
 * duration it measures is handed to `Span.Stop` as a parameter.
 */
module Timing {
  import opened Values

  /** A call made on a timer: its construction with an optional start time, `start()`, `stop()`. */
  datatype TimerCall = Created(start: Option<real>) | Started | Stopped

  class Timer {
    /** The calls made on this timer so far, oldest first. */
    var calls: seq<TimerCall>

    /** `new Timer($start)`. */
    constructor (start: Option<real>)
      ensures calls == [Created(start)]
    {
      calls := [Created(start)];
    }

    /** `$timer->start()`. */
    method Start()
      modifies this
      ensures calls == old(calls) + [Started]
    {
      calls := calls + [Started];
    }

    /** `$timer->stop()`. */
    method Stop()
      modifies this
      ensures calls == old(calls) + [Stopped]
    {
      calls := calls + [Stopped];
    }
  }
}
