/**
  What the four stream adapters share: the wrapped Node stream, reduced to the
  flags and calls the adapters use, and the record of what a session reported
  to its caller.

  Only what an adapter does to the stream is modelled: `destroy()`, `end()`,
  `pause()`, `write(chunk)` and the queries `destroyed`, `writable`,
  `writableEnded`, `readable`, `isPaused()`. Delivery of bytes, buffering and
  the moment the stream raises an event belong to Node and are left out: the
  adapters receive events (and the boolean that `write` returns) as inputs.
*/
module StreamCommon {

  import opened Wrappers

  /** A chunk handed to `write` or delivered through `data`. */
  type Chunk = seq<bv8>

  /**
    The stream's observable state. `written` lists, in order, every value passed
    to `stream.write` (None stands for JavaScript's `null`); `writesAfterEnd`
    counts the calls to `stream.write` made after `stream.end()`.
  */
  datatype Resource = Resource(
    readable: bool,
    writable: bool,
    writableEnded: bool,
    destroyed: bool,
    paused: bool,
    written: seq<Option<Chunk>>,
    writesAfterEnd: nat)

  /** A fresh stream with the given capabilities and nothing written. */
  function Fresh(readable: bool, writable: bool): (r: Resource)
    ensures r.readable == readable && r.writable == writable
    ensures !r.destroyed && !r.writableEnded && !r.paused
    ensures r.written == [] && r.writesAfterEnd == 0
  {
    Resource(readable, writable, false, false, false, [], 0)
  }

  /** `stream.destroy()`: the stream is destroyed and no longer writable. */
  function Destroy(r: Resource): Resource
  {
    r.(destroyed := true, writable := false)
  }

  /** `stream.end()`: the writable side is ending, so `writable` turns false. */
  function End(r: Resource): Resource
  {
    r.(writableEnded := true, writable := false)
  }

  /** `stream.pause()`. */
  function Pause(r: Resource): Resource
  {
    r.(paused := true)
  }

  /** `stream.write(chunk)`: records the value and whether the stream had already ended. */
  function Write(r: Resource, chunk: Option<Chunk>): Resource
  {
    r.(written := r.written + [chunk],
       writesAfterEnd := if r.writableEnded then r.writesAfterEnd + 1 else r.writesAfterEnd)
  }

  /** The value handed to `onError`: the adapters' own "close error", or the stream's error. */
  datatype Failure = CloseError | StreamError(message: string)

  /** A call of one of the two terminal callbacks. */
  datatype Report = EndReport | ErrorReport(failure: Failure)

  /**
    Which terminal event ended the session; `Running` while it is active. This
    is bookkeeping of the model, not a field of the source's `state` record.
  */
  datatype Outcome = Running | Ended | Closed | Failed(error: string) | Aborted

  /**
    The terminal callbacks a session that ended with `outcome` has made, given
    which of `onEnd` and `onError` the caller supplied: nothing while running
    or after an abort, one `onEnd()` after `end`, one `onError` carrying the
    close marker or the stream's error otherwise.
  */
  function Expected(outcome: Outcome, hasOnEnd: bool, hasOnError: bool): (r: seq<Report>)
    ensures |r| <= 1
    ensures EndReport in r <==> outcome == Ended && hasOnEnd
    ensures r != [] ==> outcome != Running && outcome != Aborted
  {
    match outcome
    case Running => []
    case Ended => if hasOnEnd then [EndReport] else []
    case Closed => if hasOnError then [ErrorReport(CloseError)] else []
    case Failed(e) => if hasOnError then [ErrorReport(StreamError(e))] else []
    case Aborted => []
  }
}
