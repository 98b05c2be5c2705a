/**
  The exported read adapter (src/wrapStreamRead.mjs).

  The adapter binds `error`, `close`, `end` and `data` on a readable stream
  (and `abort` on the signal, when one is given). Every chunk goes to
  `onData`; when `onData` returns exactly `false` the adapter pauses the
  stream and calls `onPause`, and leaves resuming to the caller. The first of
  `end`, `close`, `error` and `abort` ends the session. Every handler checks
  `isActive` before calling back; the `error` listener outlives the session by
  one 100 ms timer (the grace window).

  The pure part (State, the step functions, Run) is the specification; the
  class Session keeps the source's mutable `state` record and is proved to
  follow it step by step. The older adapter in src/wrapperStreamRead.mjs
  (module StreamReadLegacy) shares this State and invariant.
*/
module StreamRead {
  import opened Wrappers
  import opened StreamCommon

  /** Which of the optional arguments the caller passed; `onData` and `onEnd` are mandatory. */
  datatype Config = Config(hasSignal: bool, hasOnError: bool, hasOnPause: bool)

  /** What `onData(chunk)` returned; only `false` itself asks for a pause (`ret === false`). */
  datatype Reply = ReplyFalse | ReplyTrue | ReplyUndefined | ReplyOther

  /**
    The source's `state` record (`active` and the five bind flags), the pending
    100 ms timer that unbinds `error` and how many such timers were started,
    the stream, and what the caller has seen: the terminal reports, the chunks
    passed to `onData`, the calls of `onPause`, and the errors printed with
    `console.error`.
  */
  datatype State = State(
    cfg: Config,
    active: bool,
    errorBound: bool,
    dataBound: bool,
    endBound: bool,
    closeBound: bool,
    abortBound: bool,
    errorUnbindScheduled: bool,
    timersStarted: nat,
    stream: Resource,
    outcome: Outcome,
    reports: seq<Report>,
    delivered: seq<Chunk>,
    pauseCalls: nat,
    logged: seq<string>)

  /** Every listener, including the deferred `error` one, is gone. */
  predicate NoListeners(s: State)
  {
    !s.errorBound && !s.dataBound && !s.endBound && !s.closeBound && !s.abortBound
  }

  /**
    The invariant of a session between two events:
    - an inactive session has unbound `data`, `end`, `close` and `abort`, so
      the `isActive` guards of `handleData`, `handleEnd` and `handleClose`
      always pass; `error` stays bound only while the timer that unbinds it is
      pending, and at most one such timer is ever started, after the end;
    - the session is active exactly until its outcome is decided, and the
      terminal callbacks made are the ones that outcome calls for;
    - a session ended by `error` or `abort` has destroyed the stream.
  */
  ghost predicate Inv(s: State)
  {
    && (!s.active ==> !s.dataBound && !s.endBound && !s.closeBound && !s.abortBound)
    && (s.errorUnbindScheduled ==> !s.active)
    && (!s.active && s.errorBound ==> s.errorUnbindScheduled)
    && (s.active ==> s.timersStarted == 0) && s.timersStarted <= 1
    && (s.errorUnbindScheduled ==> s.timersStarted == 1)
    && (s.abortBound ==> s.cfg.hasSignal)
    && (s.active <==> s.outcome == Running)
    && s.reports == Expected(s.outcome, true, s.cfg.hasOnError)
    && (s.cfg.hasOnError ==> s.logged == [])
    && (s.outcome.Failed? || s.outcome == Aborted ==> s.stream.destroyed)
  }

  /**
    Construction (lines 12-30, 126-128): the stream must be readable, `onData`
    and `onEnd` functions, and a given signal not yet aborted, else an
    assertion throws (None). The session starts active with `error`, `close`,
    `end` and `data` bound, and `abort` bound exactly when a signal was given.
  */
  function Open(cfg: Config, readable: bool, hasOnData: bool, hasOnEnd: bool, signalAborted: bool)
    : (r: Option<State>)
    ensures r.Some? <==> readable && hasOnData && hasOnEnd && !(cfg.hasSignal && signalAborted)
    ensures r.Some? ==> Inv(r.value) && r.value.active && r.value.reports == []
    ensures r.Some? ==> r.value.errorBound && r.value.closeBound && r.value.endBound
    ensures r.Some? ==> r.value.dataBound && (r.value.abortBound <==> cfg.hasSignal)
  {
    if !readable || !hasOnData || !hasOnEnd || (cfg.hasSignal && signalAborted) then None
    else Some(State(cfg, true, true, true, true, true, cfg.hasSignal, false, 0,
                    Fresh(readable, false), Running, [], [], 0, []))
  }

  // The unbinding helpers of lines 44-75, on the pure state.

  /** `unbindEventError`: starts the delayed unbind if `error` is still bound. */
  function WithErrorUnbindScheduled(s: State): (r: State)
    ensures r.errorUnbindScheduled == (s.errorUnbindScheduled || s.errorBound)
    ensures r.timersStarted == s.timersStarted + (if s.errorBound then 1 else 0)
    ensures r.(errorUnbindScheduled := s.errorUnbindScheduled, timersStarted := s.timersStarted) == s
  {
    if s.errorBound then s.(errorUnbindScheduled := true, timersStarted := s.timersStarted + 1) else s
  }

  /** `unbindEventAbort`. */
  function WithAbortUnbound(s: State): (r: State)
    ensures r == s.(abortBound := false)
  {
    if s.abortBound then s.(abortBound := false) else s
  }

  /** `clearEvents`: unbinds `end`, `data` and `close`. */
  function WithEventsCleared(s: State): (r: State)
    ensures r == s.(endBound := false, dataBound := false, closeBound := false)
  {
    var s1 := if s.endBound then s.(endBound := false) else s;
    var s2 := if s1.dataBound then s1.(dataBound := false) else s1;
    if s2.closeBound then s2.(closeBound := false) else s2
  }

  /** `stream.destroy()` unless the stream is destroyed already. */
  function WithStreamDestroyed(s: State): (r: State)
    ensures r.stream.destroyed && (!s.stream.destroyed ==> !r.stream.writable)
    ensures s.stream.destroyed ==> r.stream == s.stream
    ensures r.stream.(destroyed := s.stream.destroyed, writable := s.stream.writable) == s.stream
    ensures r.(stream := s.stream) == s
  {
    if !s.stream.destroyed then s.(stream := Destroy(s.stream)) else s
  }

  /** Lines 106-113 of `handleError`: `onError(error)` while active, `console.error` without `onError`. */
  function WithErrorDelivered(s: State, error: string): (r: State)
    ensures !r.active
    ensures r.outcome == if s.active then Failed(error) else s.outcome
    ensures r.reports == if s.active && s.cfg.hasOnError then s.reports + [ErrorReport(StreamError(error))] else s.reports
    ensures r.logged == if s.cfg.hasOnError then s.logged else s.logged + [error]
    ensures r.(active := s.active, outcome := s.outcome, reports := s.reports, logged := s.logged) == s
  {
    var s1 :=
      if s.cfg.hasOnError then
        (if s.active then s.(reports := s.reports + [ErrorReport(StreamError(error))]) else s)
      else s.(logged := s.logged + [error]);
    s1.(active := false, outcome := if s.active then Failed(error) else s.outcome)
  }

  /**
    `data` (lines 32-42). The `isActive` guard always passes, so every chunk
    reaches `onData`, in order. When `onData` returns exactly `false` and the
    stream is not paused, the stream is paused and `onPause` (if given) called;
    a stream is never resumed by the adapter.
  */
  function DataStep(s: State, chunk: Chunk, reply: Reply): (r: State)
    requires Inv(s) && s.dataBound
    ensures Inv(r) && r.active
    ensures r.delivered == s.delivered + [chunk]
    ensures r.stream.paused == (s.stream.paused || reply == ReplyFalse)
    ensures r.pauseCalls == s.pauseCalls +
      (if reply == ReplyFalse && !s.stream.paused && s.cfg.hasOnPause then 1 else 0)
    ensures r.(delivered := s.delivered, pauseCalls := s.pauseCalls, stream := s.stream) == s
    ensures r.stream.(paused := s.stream.paused) == s.stream
  {
    if s.active then
      var s1 := s.(delivered := s.delivered + [chunk]);
      if reply == ReplyFalse && !s1.stream.paused then
        var s2 := s1.(stream := Pause(s1.stream));
        if s.cfg.hasOnPause then s2.(pauseCalls := s2.pauseCalls + 1) else s2
      else s1
    else s
  }

  /**
    `end` (lines 77-86): the session ends normally and `onEnd()` is its one
    report; `data`, `end`, `close` and `abort` are unbound and the delayed
    unbind of `error` is started.
  */
  function EndStep(s: State): (r: State)
    requires Inv(s) && s.endBound
    ensures Inv(r) && !r.active && r.outcome == Ended && r.reports == [EndReport]
    ensures r.errorBound == s.errorBound && r.errorUnbindScheduled == s.errorBound
    ensures r.stream == s.stream && r.delivered == s.delivered
  {
    var s1 := s.(endBound := false);
    var s2 := WithAbortUnbound(WithErrorUnbindScheduled(WithEventsCleared(s1)));
    var s3 := if s.active then s2.(reports := s2.reports + [EndReport]) else s2;
    s3.(active := false, outcome := if s.active then Ended else s.outcome)
  }

  /**
    `close` (lines 88-97): a stream closed while the session is active is an
    error; `onError`, if given, receives the close marker, and `onEnd` is
    never called.
  */
  function CloseStep(s: State): (r: State)
    requires Inv(s) && s.closeBound
    ensures Inv(r) && !r.active && r.outcome == Closed
    ensures r.reports == if s.cfg.hasOnError then [ErrorReport(CloseError)] else []
    ensures r.errorBound == s.errorBound && r.errorUnbindScheduled == s.errorBound
    ensures r.stream == s.stream && r.delivered == s.delivered
  {
    var s1 := s.(closeBound := false);
    var s2 := WithErrorUnbindScheduled(WithAbortUnbound(WithEventsCleared(s1)));
    var s3 :=
      if s.active && s.cfg.hasOnError then s2.(reports := s2.reports + [ErrorReport(CloseError)])
      else s2;
    s3.(active := false, outcome := if s.active then Closed else s.outcome)
  }

  /**
    `error` (lines 99-114), which may arrive at any time while its listener is
    bound, also after the session ended. The stream ends up destroyed, every
    listener is unbound, and:
    - while active, the session fails and `onError(error)` is its one report;
    - afterwards (inside the grace window) the error is absorbed: outcome and
      reports stay as they were;
    - without `onError`, the error is printed either way.
  */
  function ErrorStep(s: State, error: string): (r: State)
    requires Inv(s) && s.errorBound
    ensures Inv(r) && !r.active && r.stream.destroyed
    ensures !r.errorBound && !r.dataBound && !r.endBound && !r.closeBound && !r.abortBound
    ensures s.active ==> r.outcome == Failed(error)
    ensures s.active && s.cfg.hasOnError ==> r.reports == [ErrorReport(StreamError(error))]
    ensures !s.active ==> r.outcome == s.outcome && r.reports == s.reports
    ensures r.logged == if s.cfg.hasOnError then s.logged else s.logged + [error]
    ensures r.errorUnbindScheduled == s.errorUnbindScheduled && r.delivered == s.delivered
  {
    var s1 := s.(errorBound := false);
    WithErrorDelivered(WithStreamDestroyed(WithAbortUnbound(WithEventsCleared(s1))), error)
  }

  /**
    `abort` on the signal (lines 116-124): the session ends without any
    terminal report, the stream is destroyed, and every listener but `error`
    (left to the timer) is gone.
  */
  function AbortStep(s: State): (r: State)
    requires Inv(s) && s.abortBound
    ensures Inv(r) && !r.active && r.outcome == Aborted && r.reports == []
    ensures r.stream.destroyed && r.delivered == s.delivered
    ensures r.errorBound == s.errorBound && r.errorUnbindScheduled == s.errorBound
  {
    var s1 := s.(abortBound := false);
    var s2 := WithStreamDestroyed(WithErrorUnbindScheduled(WithEventsCleared(s1)));
    s2.(active := false, outcome := if s.active then Aborted else s.outcome)
  }

  /**
    The 100 ms timer of `unbindEventError` (lines 46-51) fires: it unbinds
    `error` if still bound, after which the session holds no listener at all.
  */
  function TimerStep(s: State): (r: State)
    requires Inv(s) && s.errorUnbindScheduled
    ensures Inv(r) && NoListeners(r) && !r.errorUnbindScheduled
    ensures r.(errorBound := s.errorBound, errorUnbindScheduled := true) == s
  {
    var s1 := s.(errorUnbindScheduled := false);
    if s1.errorBound then s1.(errorBound := false) else s1
  }

  /** The caller resumes the stream it asked the adapter to pause. */
  function ResumedElsewhereStep(s: State): (r: State)
    requires Inv(s)
    ensures Inv(r) && !r.stream.paused && r.(stream := s.stream) == s
  {
    s.(stream := s.stream.(paused := false))
  }

  /** Something outside the adapter destroys the stream; Node then raises `close` (and perhaps `error`). */
  function DestroyedElsewhereStep(s: State): (r: State)
    requires Inv(s)
    ensures Inv(r) && r.stream.destroyed && r.(stream := s.stream) == s
  {
    s.(stream := Destroy(s.stream))
  }

  /** An event the session can receive. */
  datatype Event =
    | DataEvent(chunk: Chunk, reply: Reply)
    | EndEvent
    | CloseEvent
    | ErrorEvent(error: string)
    | AbortSignal
    | ErrorUnbindTimer
    | ResumedElsewhere
    | DestroyedElsewhere

  /** Node delivers an event only to a bound listener. */
  predicate Enabled(s: State, e: Event)
  {
    match e
    case DataEvent(_, _) => s.dataBound
    case EndEvent => s.endBound
    case CloseEvent => s.closeBound
    case ErrorEvent(_) => s.errorBound
    case AbortSignal => s.abortBound
    case ErrorUnbindTimer => s.errorUnbindScheduled
    case ResumedElsewhere => true
    case DestroyedElsewhere => true
  }

  /** One event; it keeps the invariant. */
  function Step(s: State, e: Event): (r: State)
    requires Inv(s) && Enabled(s, e)
    ensures Inv(r)
  {
    match e
    case DataEvent(chunk, reply) => DataStep(s, chunk, reply)
    case EndEvent => EndStep(s)
    case CloseEvent => CloseStep(s)
    case ErrorEvent(error) => ErrorStep(s, error)
    case AbortSignal => AbortStep(s)
    case ErrorUnbindTimer => TimerStep(s)
    case ResumedElsewhere => ResumedElsewhereStep(s)
    case DestroyedElsewhere => DestroyedElsewhereStep(s)
  }

  /**
    Chunks already passed to `onData` stay passed, and once the session has
    ended no event changes its outcome or reports anything more.
  */
  lemma StepKeepsHistory(s: State, e: Event)
    requires Inv(s) && Enabled(s, e)
    ensures Step(s, e).delivered == s.delivered + DataChunks([e])
    ensures !s.active ==>
      var r := Step(s, e);
      (!r.active && r.outcome == s.outcome && r.reports == s.reports && r.delivered == s.delivered)
  {
  }

  /** The chunks the `data` events of `es` carry, in order. */
  function DataChunks(es: seq<Event>): seq<Chunk>
  {
    if es == [] then []
    else (if es[0].DataEvent? then [es[0].chunk] else []) + DataChunks(es[1..])
  }

  /** Every event of `es`, in order, reaches a bound listener. */
  ghost predicate Admissible(s: State, es: seq<Event>)
    requires Inv(s)
    decreases |es|
  {
    es == [] || (Enabled(s, es[0]) && Admissible(Step(s, es[0]), es[1..]))
  }

  /**
    The session after the events `es`. Whatever order the events race in, the
    invariant holds after each of them, so `onEnd` and `onError` are called at
    most once between them; chunks reach `onData` in arrival order; and after
    the first terminal event nothing more is delivered or reported.
  */
  ghost function Run(s: State, es: seq<Event>): (r: State)
    requires Inv(s) && Admissible(s, es)
    ensures Inv(r) && |r.reports| <= 1
    ensures r.delivered == s.delivered + DataChunks(es)
    ensures !s.active ==>
      (!r.active && r.outcome == s.outcome && r.reports == s.reports && r.delivered == s.delivered)
    decreases |es|
  {
    if es == [] then s
    else
      StepKeepsHistory(s, es[0]);
      assert DataChunks(es) == DataChunks([es[0]]) + DataChunks(es[1..]);
      Run(Step(s, es[0]), es[1..])
  }

  /**
    A trace can be cut anywhere: running `xs` and then `ys` is running
    `xs + ys`. With `Run`'s own contract this makes the outcome of the first
    terminal event final in the middle of any trace, not only at its start.
  */
  lemma {:induction false} RunAppend(s: State, xs: seq<Event>, ys: seq<Event>)
    requires Inv(s) && Admissible(s, xs + ys)
    ensures Admissible(s, xs) && Admissible(Run(s, xs), ys)
    ensures Run(s, xs + ys) == Run(Run(s, xs), ys)
    decreases |xs|
  {
    if xs == [] {
      assert xs + ys == ys;
    } else {
      assert (xs + ys)[0] == xs[0] && (xs + ys)[1..] == xs[1..] + ys;
      RunAppend(Step(s, xs[0]), xs[1..], ys);
    }
  }

  /**
    The adapter as the source writes it: the `state` record's flags, the
    pending timer and the stream are fields that the handlers change one
    statement at a time. Each handler is proved to move the session exactly as
    the step function of the same event does.
  */
  class Session {
    const cfg: Config
    var isActive: bool
    var isEventErrorBind: bool
    var isEventDataBind: bool
    var isEventEndBind: bool
    var isEventCloseBind: bool
    var isEventAbortBind: bool
    var errorUnbindTimer: bool
    var stream: Resource
    ghost var timersStarted: nat
    ghost var outcome: Outcome
    ghost var reports: seq<Report>
    ghost var delivered: seq<Chunk>
    ghost var pauseCalls: nat
    ghost var logged: seq<string>

    ghost function Snapshot(): State
      reads this
    {
      State(cfg, isActive, isEventErrorBind, isEventDataBind, isEventEndBind,
            isEventCloseBind, isEventAbortBind, errorUnbindTimer, timersStarted, stream,
            outcome, reports, delivered, pauseCalls, logged)
    }

    ghost predicate Valid()
      reads this
    {
      Inv(Snapshot())
    }

    /** Lines 12-30 and 126-128; the constructor's assertions are its precondition. */
    constructor (cfg: Config, readable: bool, signalAborted: bool)
      requires readable && !(cfg.hasSignal && signalAborted)
      ensures Valid() && Snapshot() == Open(cfg, readable, true, true, signalAborted).value
    {
      this.cfg := cfg;
      isActive := true;
      isEventErrorBind := true;
      isEventDataBind := true;
      isEventEndBind := true;
      isEventCloseBind := true;
      isEventAbortBind := cfg.hasSignal;
      errorUnbindTimer := false;
      stream := Fresh(readable, false);
      timersStarted := 0;
      outcome := Running;
      reports, delivered, pauseCalls, logged := [], [], 0, [];
    }

    method UnbindEventError()
      modifies this
      ensures Snapshot() == WithErrorUnbindScheduled(old(Snapshot()))
    {
      if isEventErrorBind {
        errorUnbindTimer := true;
        timersStarted := timersStarted + 1;
      }
    }

    method UnbindEventAbort()
      modifies this
      ensures Snapshot() == WithAbortUnbound(old(Snapshot()))
    {
      if isEventAbortBind {
        isEventAbortBind := false;
      }
    }

    method ClearEvents()
      modifies this
      ensures Snapshot() == WithEventsCleared(old(Snapshot()))
    {
      if isEventEndBind {
        isEventEndBind := false;
      }
      if isEventDataBind {
        isEventDataBind := false;
      }
      if isEventCloseBind {
        isEventCloseBind := false;
      }
    }

    /** `onData` returned `reply` for `chunk`. */
    method HandleData(chunk: Chunk, reply: Reply)
      requires Valid() && isEventDataBind
      modifies this
      ensures Valid() && Snapshot() == DataStep(old(Snapshot()), chunk, reply)
    {
      if isActive {
        delivered := delivered + [chunk];
        if reply == ReplyFalse && !stream.paused {
          stream := Pause(stream);
          if cfg.hasOnPause {
            pauseCalls := pauseCalls + 1;
          }
        }
      }
    }

    method HandleEnd()
      requires Valid() && isEventEndBind
      modifies this
      ensures Valid() && Snapshot() == EndStep(old(Snapshot()))
    {
      isEventEndBind := false;
      ClearEvents();
      UnbindEventError();
      UnbindEventAbort();
      if isActive {
        reports := reports + [EndReport];
        outcome := Ended;
      }
      isActive := false;
    }

    method HandleClose()
      requires Valid() && isEventCloseBind
      modifies this
      ensures Valid() && Snapshot() == CloseStep(old(Snapshot()))
    {
      isEventCloseBind := false;
      ClearEvents();
      UnbindEventAbort();
      UnbindEventError();
      if isActive && cfg.hasOnError {
        reports := reports + [ErrorReport(CloseError)];
      }
      if isActive {
        outcome := Closed;
      }
      isActive := false;
    }

    method HandleError(error: string)
      requires Valid() && isEventErrorBind
      modifies this
      ensures Valid() && Snapshot() == ErrorStep(old(Snapshot()), error)
    {
      isEventErrorBind := false;
      ClearEvents();
      UnbindEventAbort();
      if !stream.destroyed {
        stream := Destroy(stream);
      }
      DeliverError(error);
    }

    /** Lines 106-113 of `handleError`. */
    method DeliverError(error: string)
      modifies this
      ensures Snapshot() == WithErrorDelivered(old(Snapshot()), error)
    {
      if cfg.hasOnError {
        if isActive {
          reports := reports + [ErrorReport(StreamError(error))];
        }
      } else {
        logged := logged + [error];
      }
      if isActive {
        outcome := Failed(error);
      }
      isActive := false;
    }

    method HandleAbortOnSignal()
      requires Valid() && isEventAbortBind
      modifies this
      ensures Valid() && Snapshot() == AbortStep(old(Snapshot()))
    {
      isEventAbortBind := false;
      ClearEvents();
      UnbindEventError();
      if !stream.destroyed {
        stream := Destroy(stream);
      }
      if isActive {
        outcome := Aborted;
      }
      isActive := false;
    }

    /** The callback of the 100 ms timer started by `unbindEventError`. */
    method FireDeferredErrorUnbind()
      requires Valid() && errorUnbindTimer
      modifies this
      ensures Valid() && Snapshot() == TimerStep(old(Snapshot()))
    {
      errorUnbindTimer := false;
      if isEventErrorBind {
        isEventErrorBind := false;
      }
    }
  }
}
