/**
  The duplex adapter (src/wrapStream.mjs).

  The adapter binds `error`, `end`, `drain` and `close` on a stream that is
  both readable and writable, and `abort` on a signal that is mandatory here,
  and returns a `write` function. Unlike the other adapters it has no grace
  window: the first terminal event goes through `setClose`, which asserts the
  session is active, ends it and unbinds all five listeners at once, `error`
  included. `drain` calls the caller's `resume`, and a write for which
  `stream.write` returns false (the chunk is still queued, but the buffer has
  passed its high-water mark) calls the caller's `pause`.

  The pure part (State, the step functions, Run) is the specification; the
  class Session keeps the source's mutable `state` record and is proved to
  follow it step by step.
*/
module StreamDuplex {
  import opened Wrappers
  import opened StreamCommon

  /** Which of the optional callbacks the caller passed; `signal`, `pause` and `resume` are mandatory. */
  datatype Config = Config(hasOnError: bool, hasOnEnd: bool)

  /**
    The source's `state` record (`active` and the five bind flags), the stream,
    and what the caller has seen: the terminal reports, the calls of its
    `pause` and `resume`, and the errors printed with `console.error`.
  */
  datatype State = State(
    cfg: Config,
    active: bool,
    errorBound: bool,
    endBound: bool,
    drainBound: bool,
    closeBound: bool,
    abortBound: bool,
    stream: Resource,
    outcome: Outcome,
    reports: seq<Report>,
    pauseCalls: nat,
    resumeCalls: nat,
    logged: seq<string>)

  /** What `write` gives back: it throws an AssertionError or returns undefined. */
  datatype WriteReturn = Threw | ReturnedUndefined

  /** All five listeners are bound. */
  predicate AllBound(s: State)
  {
    s.errorBound && s.endBound && s.drainBound && s.closeBound && s.abortBound
  }

  /** No listener is bound. */
  predicate NoneBound(s: State)
  {
    !s.errorBound && !s.endBound && !s.drainBound && !s.closeBound && !s.abortBound
  }

  /**
    The invariant of a session between two events: while active every
    listener is bound, afterwards none is; the session is active exactly until
    its outcome is decided, and the terminal callbacks made are the ones that
    outcome calls for; a session ended by `error` or `abort` has destroyed the
    stream.
  */
  ghost predicate Inv(s: State)
  {
    && (s.active ==> AllBound(s))
    && (!s.active ==> NoneBound(s))
    && (s.active <==> s.outcome == Running)
    && s.reports == Expected(s.outcome, s.cfg.hasOnEnd, s.cfg.hasOnError)
    && (s.cfg.hasOnError ==> s.logged == [])
    && (s.outcome.Failed? || s.outcome == Aborted ==> s.stream.destroyed)
  }

  /**
    Construction (lines 12-30, 103): the stream must be readable and writable,
    the signal not yet aborted, and `pause` and `resume` functions, else an
    assertion throws (None). The session starts active with all five
    listeners bound.
  */
  function Open(cfg: Config, readable: bool, writable: bool, signalAborted: bool,
                hasPause: bool, hasResume: bool): (r: Option<State>)
    ensures r.Some? <==> readable && writable && !signalAborted && hasPause && hasResume
    ensures r.Some? ==> Inv(r.value) && r.value.active && AllBound(r.value) && r.value.reports == []
  {
    if !readable || !writable || signalAborted || !hasPause || !hasResume then None
    else Some(State(cfg, true, true, true, true, true, true,
                    Fresh(readable, writable), Running, [], 0, 0, []))
  }

  /** `clearEvents` (lines 32-53): unbinds all five listeners. */
  function WithEventsCleared(s: State): (r: State)
    ensures r == s.(abortBound := false, drainBound := false, endBound := false,
                    closeBound := false, errorBound := false)
  {
    var s1 := if s.abortBound then s.(abortBound := false) else s;
    var s2 := if s1.drainBound then s1.(drainBound := false) else s1;
    var s3 := if s2.endBound then s2.(endBound := false) else s2;
    var s4 := if s3.closeBound then s3.(closeBound := false) else s3;
    if s4.errorBound then s4.(errorBound := false) else s4
  }

  /**
    `setClose` (lines 55-59) for a session that ends with `outcome`. Its
    `assert(state.isActive)` is the precondition, which every caller proves
    from the invariant.
  */
  function WithSessionClosed(s: State, outcome: Outcome): (r: State)
    requires s.active
    ensures !r.active && NoneBound(r) && r.outcome == outcome
    ensures r.stream == s.stream && r.reports == s.reports
  {
    WithEventsCleared(s.(active := false, outcome := outcome))
  }

  /** `stream.destroy()` unless the stream is destroyed already. */
  function WithStreamDestroyed(s: State): (r: State)
    ensures r.stream.destroyed && (!s.stream.destroyed ==> !r.stream.writable)
    ensures s.stream.destroyed ==> r.stream == s.stream
    ensures r.stream.(destroyed := s.stream.destroyed, writable := s.stream.writable) == s.stream
    ensures r.(stream := s.stream) == s
  {
    if !s.stream.destroyed then s.(stream := Destroy(s.stream)) else s
  }

  /**
    `drain` (lines 61-64): `assert(state.isActive)` holds, and the caller's
    `resume` is called; nothing else changes.
  */
  function DrainStep(s: State): (r: State)
    requires Inv(s) && s.drainBound
    ensures Inv(r) && r.active && r.resumeCalls == s.resumeCalls + 1
    ensures r.(resumeCalls := s.resumeCalls) == s
  {
    assert s.active;
    s.(resumeCalls := s.resumeCalls + 1)
  }

  /** `end` (lines 66-72): the session ends normally, with `onEnd()` (if given) as its one report. */
  function EndStep(s: State): (r: State)
    requires Inv(s) && s.endBound
    ensures Inv(r) && NoneBound(r) && r.outcome == Ended
    ensures r.reports == if s.cfg.hasOnEnd then [EndReport] else []
    ensures r.stream == s.stream
  {
    var s1 := WithSessionClosed(s.(endBound := false), Ended);
    if s.cfg.hasOnEnd then s1.(reports := s1.reports + [EndReport]) else s1
  }

  /** `close` (lines 74-80): the session fails with the close marker, reported to `onError` (if given). */
  function CloseStep(s: State): (r: State)
    requires Inv(s) && s.closeBound
    ensures Inv(r) && NoneBound(r) && r.outcome == Closed
    ensures r.reports == if s.cfg.hasOnError then [ErrorReport(CloseError)] else []
    ensures r.stream == s.stream
  {
    var s1 := WithSessionClosed(s.(closeBound := false), Closed);
    if s.cfg.hasOnError then s1.(reports := s1.reports + [ErrorReport(CloseError)]) else s1
  }

  /**
    `error` (lines 82-93): bound only while the session is active, so it
    always ends the session: the stream is destroyed and `onError(error)` is
    the one report, or the error is printed when there is no `onError`.
  */
  function ErrorStep(s: State, error: string): (r: State)
    requires Inv(s) && s.errorBound
    ensures Inv(r) && NoneBound(r) && r.outcome == Failed(error) && r.stream.destroyed
    ensures r.reports == if s.cfg.hasOnError then [ErrorReport(StreamError(error))] else []
    ensures r.logged == if s.cfg.hasOnError then s.logged else s.logged + [error]
  {
    var s1 := WithStreamDestroyed(WithSessionClosed(s.(errorBound := false), Failed(error)));
    if s.cfg.hasOnError then s1.(reports := s1.reports + [ErrorReport(StreamError(error))])
    else s1.(logged := s1.logged + [error])
  }

  /** `abort` (lines 95-101): the session ends without a terminal report and the stream is destroyed. */
  function AbortStep(s: State): (r: State)
    requires Inv(s) && s.abortBound
    ensures Inv(r) && NoneBound(r) && r.outcome == Aborted && r.reports == []
    ensures r.stream.destroyed
  {
    WithStreamDestroyed(WithSessionClosed(s.(abortBound := false), Aborted))
  }

  /**
    The returned `write(chunk)` (lines 105-115). It throws, changing nothing,
    unless the session is active and the stream writable and not ended.
    Otherwise `write(null)` ends the stream; then, null or not, the chunk is
    passed to `stream.write`, and the caller's `pause` is called exactly when
    that returns false. So `write(null)` writes `null` to a stream it has just
    ended, as the source does.
  */
  function WriteStep(s: State, chunk: Option<Chunk>, belowHighWaterMark: bool): (r: (State, WriteReturn))
    requires Inv(s)
    ensures Inv(r.0)
    ensures r.1 == Threw <==> !s.active || s.stream.writableEnded || !s.stream.writable
    ensures r.1 == Threw ==> r.0 == s
    ensures r.1 != Threw ==>
      && r.1 == ReturnedUndefined
      && r.0.stream.written == s.stream.written + [chunk]
      && r.0.stream.writableEnded == chunk.None?
      && r.0.stream.writesAfterEnd == s.stream.writesAfterEnd + (if chunk.None? then 1 else 0)
      && r.0.pauseCalls == s.pauseCalls + (if belowHighWaterMark then 0 else 1)
      && r.0.(stream := s.stream, pauseCalls := s.pauseCalls) == s
  {
    if !(s.active && !s.stream.writableEnded) || !s.stream.writable then (s, Threw)
    else
      var stream1 := if chunk.None? then End(s.stream) else s.stream;
      var s1 := s.(stream := Write(stream1, chunk));
      if !belowHighWaterMark then (s1.(pauseCalls := s1.pauseCalls + 1), ReturnedUndefined)
      else (s1, ReturnedUndefined)
  }

  /** Something outside the adapter destroys the stream; Node then raises `close` (and perhaps `error`). */
  function DestroyedElsewhereStep(s: State): (r: State)
    requires Inv(s)
    ensures Inv(r) && r.stream.destroyed && r.(stream := s.stream) == s
  {
    s.(stream := Destroy(s.stream))
  }

  /** An event the session can receive, or a call of `write`. */
  datatype Event =
    | DrainEvent
    | EndEvent
    | CloseEvent
    | ErrorEvent(error: string)
    | AbortSignal
    | WriteCall(chunk: Option<Chunk>, belowHighWaterMark: bool)
    | DestroyedElsewhere

  /** The events that reach a terminal handler, that is, a caller of `setClose`. */
  predicate IsTerminal(e: Event)
  {
    e.EndEvent? || e.CloseEvent? || e.ErrorEvent? || e.AbortSignal?
  }

  /** Node delivers an event only to a bound listener; `write` may be called at any time. */
  predicate Enabled(s: State, e: Event)
  {
    match e
    case DrainEvent => s.drainBound
    case EndEvent => s.endBound
    case CloseEvent => s.closeBound
    case ErrorEvent(_) => s.errorBound
    case AbortSignal => s.abortBound
    case WriteCall(_, _) => true
    case DestroyedElsewhere => true
  }

  /** One event; it keeps the invariant, and an inactive session receives no terminal event. */
  function Step(s: State, e: Event): (r: State)
    requires Inv(s) && Enabled(s, e)
    ensures Inv(r)
    ensures IsTerminal(e) ==> s.active && !r.active
    ensures !IsTerminal(e) ==> r.active == s.active && r.outcome == s.outcome && r.reports == s.reports
  {
    match e
    case DrainEvent => DrainStep(s)
    case EndEvent => EndStep(s)
    case CloseEvent => CloseStep(s)
    case ErrorEvent(error) => ErrorStep(s, error)
    case AbortSignal => AbortStep(s)
    case WriteCall(chunk, belowHighWaterMark) => WriteStep(s, chunk, belowHighWaterMark).0
    case DestroyedElsewhere => DestroyedElsewhereStep(s)
  }

  /** Every event of `es`, in order, reaches a bound listener. */
  ghost predicate Admissible(s: State, es: seq<Event>)
    requires Inv(s)
    decreases |es|
  {
    es == [] || (Enabled(s, es[0]) && Admissible(Step(s, es[0]), es[1..]))
  }

  /** How many events of `es` reach a terminal handler. */
  function TerminalCount(es: seq<Event>): nat
  {
    if es == [] then 0 else (if IsTerminal(es[0]) then 1 else 0) + TerminalCount(es[1..])
  }

  /** The session after the events `es`; the invariant holds after each of them. */
  ghost function Run(s: State, es: seq<Event>): (r: State)
    requires Inv(s) && Admissible(s, es)
    ensures Inv(r) && |r.reports| <= 1
    ensures !s.active ==> !r.active && r.outcome == s.outcome && r.reports == s.reports
    decreases |es|
  {
    if es == [] then s else Run(Step(s, es[0]), es[1..])
  }

  /**
    A trace can be cut anywhere: running `xs` and then `ys` is running
    `xs + ys`. With `Run`'s own contract this makes the outcome of the first
    terminal event final in the middle of any trace, not only at its start.
  */
  lemma {:induction false} RunAppend(s: State, xs: seq<Event>, ys: seq<Event>)
    requires Inv(s) && Admissible(s, xs + ys)
    ensures Admissible(s, xs) && Admissible(Run(s, xs), ys)
    ensures Run(s, xs + ys) == Run(Run(s, xs), ys)
    decreases |xs|
  {
    if xs == [] {
      assert xs + ys == ys;
    } else {
      assert (xs + ys)[0] == xs[0] && (xs + ys)[1..] == xs[1..] + ys;
      RunAppend(Step(s, xs[0]), xs[1..], ys);
    }
  }

  /**
    Whatever order the events race in, at most one of them reaches a terminal
    handler (`handleEnd`, `handleClose`, `handleError` or
    `handleAbortOnSignal`), and none once the session has ended: `setClose`'s
    assertion never fails.
  */
  lemma {:induction false} TerminalHandlerAtMostOnce(s: State, es: seq<Event>)
    requires Inv(s) && Admissible(s, es)
    ensures TerminalCount(es) <= if s.active then 1 else 0
    decreases |es|
  {
    if es != [] {
      TerminalHandlerAtMostOnce(Step(s, es[0]), es[1..]);
    }
  }

  /**
    The adapter as the source writes it: the `state` record's flags and the
    stream are fields that the handlers change one statement at a time. Each
    handler is proved to move the session exactly as the step function of the
    same event does.
  */
  class Session {
    const cfg: Config
    var isActive: bool
    var isEventErrorBind: bool
    var isEventEndBind: bool
    var isEventDrainBind: bool
    var isEventCloseBind: bool
    var isEventAbortBind: bool
    var stream: Resource
    ghost var outcome: Outcome
    ghost var reports: seq<Report>
    ghost var pauseCalls: nat
    ghost var resumeCalls: nat
    ghost var logged: seq<string>

    ghost function Snapshot(): State
      reads this
    {
      State(cfg, isActive, isEventErrorBind, isEventEndBind, isEventDrainBind,
            isEventCloseBind, isEventAbortBind, stream, outcome, reports,
            pauseCalls, resumeCalls, logged)
    }

    ghost predicate Valid()
      reads this
    {
      Inv(Snapshot())
    }

    /** Lines 12-30 and 103; the constructor's assertions are its precondition. */
    constructor (cfg: Config, readable: bool, writable: bool, signalAborted: bool)
      requires readable && writable && !signalAborted
      ensures Valid() && Snapshot() == Open(cfg, readable, writable, signalAborted, true, true).value
    {
      this.cfg := cfg;
      isActive := true;
      isEventErrorBind := true;
      isEventEndBind := true;
      isEventDrainBind := true;
      isEventCloseBind := true;
      isEventAbortBind := true;
      stream := Fresh(readable, writable);
      outcome := Running;
      reports := [];
      pauseCalls, resumeCalls, logged := 0, 0, [];
    }

    method ClearEvents()
      modifies this
      ensures Snapshot() == WithEventsCleared(old(Snapshot()))
    {
      if isEventAbortBind {
        isEventAbortBind := false;
      }
      if isEventDrainBind {
        isEventDrainBind := false;
      }
      if isEventEndBind {
        isEventEndBind := false;
      }
      if isEventCloseBind {
        isEventCloseBind := false;
      }
      if isEventErrorBind {
        isEventErrorBind := false;
      }
    }

    /** `setClose`; `terminal` is the outcome the calling handler stands for. */
    method SetClose(ghost terminal: Outcome)
      requires isActive
      modifies this
      ensures Snapshot() == WithSessionClosed(old(Snapshot()), terminal)
    {
      isActive := false;
      outcome := terminal;
      ClearEvents();
    }

    method HandleDrain()
      requires Valid() && isEventDrainBind
      modifies this
      ensures Valid() && Snapshot() == DrainStep(old(Snapshot()))
    {
      assert isActive;
      resumeCalls := resumeCalls + 1;
    }

    method HandleEnd()
      requires Valid() && isEventEndBind
      modifies this
      ensures Valid() && Snapshot() == EndStep(old(Snapshot()))
    {
      isEventEndBind := false;
      SetClose(Ended);
      if cfg.hasOnEnd {
        reports := reports + [EndReport];
      }
    }

    method HandleClose()
      requires Valid() && isEventCloseBind
      modifies this
      ensures Valid() && Snapshot() == CloseStep(old(Snapshot()))
    {
      isEventCloseBind := false;
      SetClose(Closed);
      if cfg.hasOnError {
        reports := reports + [ErrorReport(CloseError)];
      }
    }

    method HandleError(error: string)
      requires Valid() && isEventErrorBind
      modifies this
      ensures Valid() && Snapshot() == ErrorStep(old(Snapshot()), error)
    {
      isEventErrorBind := false;
      SetClose(Failed(error));
      if !stream.destroyed {
        stream := Destroy(stream);
      }
      if cfg.hasOnError {
        reports := reports + [ErrorReport(StreamError(error))];
      } else {
        logged := logged + [error];
      }
    }

    method HandleAbortOnSignal()
      requires Valid() && isEventAbortBind
      modifies this
      ensures Valid() && Snapshot() == AbortStep(old(Snapshot()))
    {
      isEventAbortBind := false;
      SetClose(Aborted);
      if !stream.destroyed {
        stream := Destroy(stream);
      }
    }

    /** The returned `write(chunk)`; `belowHighWaterMark` is what `stream.write` returns. */
    method Write(chunk: Option<Chunk>, belowHighWaterMark: bool) returns (ret: WriteReturn)
      requires Valid()
      modifies this
      ensures Valid() && (Snapshot(), ret) == WriteStep(old(Snapshot()), chunk, belowHighWaterMark)
    {
      if !(isActive && !stream.writableEnded) || !stream.writable {
        return Threw;
      }
      if chunk.None? {
        stream := End(stream);
      }
      stream := StreamCommon.Write(stream, chunk);
      if !belowHighWaterMark {
        pauseCalls := pauseCalls + 1;
      }
      ret := ReturnedUndefined;
    }
  }
}
