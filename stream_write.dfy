/**
  The exported write adapter (src/wrapStreamWrite.mjs).

  The adapter binds `error`, `close` and `drain` on a duplex stream (and
  `abort` on the signal, when one is given) and returns a `write` function.
  `write(null)` swaps the `drain` listener for an `end` listener and ends the
  stream. The first of `end`, `close`, `error` and `abort` ends the session;
  the `error` listener outlives it by one timer tick (the grace window), so
  that an error the stream raises while being destroyed is absorbed.

  The pure part (State, the step functions, Run) is the specification; the
  class Session keeps the source's mutable `state` record and is proved to
  follow it step by step.
*/
module StreamWrite {
  import opened Wrappers
  import opened StreamCommon

  /** Which of the optional arguments the caller passed. */
  datatype Config = Config(
    hasSignal: bool,
    hasOnPause: bool,
    hasOnDrain: bool,
    hasOnError: bool,
    hasOnEnd: bool)

  /**
    The source's `state` record (`active` and the five bind flags), the pending
    100 ms timer that unbinds `error` and how many such timers were started,
    the stream, and what the caller has seen:
    the terminal reports, the calls of `onPause` and `onDrain`, and the errors
    printed with `console.error`.
  */
  datatype State = State(
    cfg: Config,
    active: bool,
    errorBound: bool,
    endBound: bool,
    drainBound: bool,
    closeBound: bool,
    abortBound: bool,
    errorUnbindScheduled: bool,
    timersStarted: nat,
    stream: Resource,
    outcome: Outcome,
    reports: seq<Report>,
    pauseCalls: nat,
    drainCalls: nat,
    logged: seq<string>)

  /** What `write` gives back: it throws an AssertionError, returns null, or returns `stream.write`'s result. */
  datatype WriteReturn = Threw | ReturnedNull | Returned(belowHighWaterMark: bool)

  /** Every listener, including the deferred `error` one, is gone. */
  predicate NoListeners(s: State)
  {
    !s.errorBound && !s.endBound && !s.drainBound && !s.closeBound && !s.abortBound
  }

  /**
    The invariant of a session between two events:
    - an inactive session has unbound everything but `error`, and `error` is
      bound only while the timer that unbinds it is pending; at most one such
      timer is ever started, and only once the session has ended;
    - `end` is bound only after `write(null)`, which ended the stream and
      unbound `drain`;
    - the session is active exactly until its outcome is decided, and the
      terminal callbacks made are the ones that outcome calls for;
    - a session ended by `error` or `abort` has destroyed the stream;
    - nothing was written after `end()`, and `null` was never written.
  */
  ghost predicate Inv(s: State)
  {
    && (!s.active ==> !s.drainBound && !s.endBound && !s.closeBound && !s.abortBound)
    && (s.errorUnbindScheduled ==> !s.active)
    && (s.active ==> s.timersStarted == 0) && s.timersStarted <= 1
    && (s.errorUnbindScheduled ==> s.timersStarted == 1)
    && (!s.active && s.errorBound ==> s.errorUnbindScheduled)
    && (s.abortBound ==> s.cfg.hasSignal)
    && (s.endBound ==> !s.drainBound && s.stream.writableEnded)
    && (s.active && s.stream.writableEnded ==> s.endBound)
    && (s.active <==> s.outcome == Running)
    && s.reports == Expected(s.outcome, s.cfg.hasOnEnd, s.cfg.hasOnError)
    && (s.cfg.hasOnError ==> s.logged == [])
    && (s.outcome.Failed? || s.outcome == Aborted ==> s.stream.destroyed)
    && (s.stream.writable <==> !s.stream.destroyed && !s.stream.writableEnded)
    && s.stream.writesAfterEnd == 0
    && None !in s.stream.written
  }

  /**
    Construction (lines 12-29): the stream must be readable and writable and a
    given signal not yet aborted, else an assertion throws (None). The session
    starts active with `error`, `close` and `drain` bound, `end` unbound, and
    `abort` bound exactly when a signal was given.
  */
  function Open(cfg: Config, readable: bool, writable: bool, signalAborted: bool): (r: Option<State>)
    ensures r.Some? <==> readable && writable && !(cfg.hasSignal && signalAborted)
    ensures r.Some? ==> Inv(r.value) && r.value.active && r.value.reports == []
    ensures r.Some? ==> r.value.errorBound && r.value.closeBound && r.value.drainBound
    ensures r.Some? ==> !r.value.endBound && (r.value.abortBound <==> cfg.hasSignal)
  {
    if !readable || !writable || (cfg.hasSignal && signalAborted) then None
    else Some(State(cfg, true, true, false, true, true, cfg.hasSignal, false, 0,
                    Fresh(readable, writable), Running, [], 0, 0, []))
  }

  // The four unbinding helpers of lines 31-65, on the pure state.

  /** `unbindEventError`: schedules the delayed unbind if `error` is still bound. */
  function WithErrorUnbindScheduled(s: State): (r: State)
    ensures r.errorUnbindScheduled == (s.errorUnbindScheduled || s.errorBound)
    ensures r.timersStarted == s.timersStarted + (if s.errorBound then 1 else 0)
    ensures r.(errorUnbindScheduled := s.errorUnbindScheduled, timersStarted := s.timersStarted) == s
  {
    if s.errorBound then s.(errorUnbindScheduled := true, timersStarted := s.timersStarted + 1) else s
  }

  /** `unbindEventClose`. */
  function WithCloseUnbound(s: State): (r: State)
    ensures r == s.(closeBound := false)
  {
    if s.closeBound then s.(closeBound := false) else s
  }

  /** `unbindEventAbort`. */
  function WithAbortUnbound(s: State): (r: State)
    ensures r == s.(abortBound := false)
  {
    if s.abortBound then s.(abortBound := false) else s
  }

  /** `clearEvents`: unbinds `drain` and `end`. */
  function WithEventsCleared(s: State): (r: State)
    ensures r == s.(drainBound := false, endBound := false)
  {
    var s1 := if s.drainBound then s.(drainBound := false) else s;
    if s1.endBound then s1.(endBound := false) else s1
  }

  /** `stream.destroy()` unless the stream is destroyed already. */
  function WithStreamDestroyed(s: State): (r: State)
    ensures r.stream.destroyed && (!s.stream.destroyed ==> !r.stream.writable)
    ensures s.stream.destroyed ==> r.stream == s.stream
    ensures r.stream.(destroyed := s.stream.destroyed, writable := s.stream.writable) == s.stream
    ensures r.(stream := s.stream) == s
  {
    if !s.stream.destroyed then s.(stream := Destroy(s.stream)) else s
  }

  /**
    `drain` (lines 67-72). The source's `assert(state.isActive)` is proved, not
    assumed: `drain` is bound only while the session is active. `onDrain` is
    called when supplied; nothing else changes.
  */
  function DrainStep(s: State): (r: State)
    requires Inv(s) && s.drainBound
    ensures Inv(r) && r.active
    ensures r.drainCalls == s.drainCalls + (if s.cfg.hasOnDrain then 1 else 0)
    ensures r.(drainCalls := s.drainCalls) == s
  {
    assert s.active;
    if s.cfg.hasOnDrain then s.(drainCalls := s.drainCalls + 1) else s
  }

  /**
    `end` (lines 74-84), bound only after `write(null)`: the session ends
    normally, every listener but `error` is gone, the delayed unbind of
    `error` is scheduled, and `onEnd()` is the one terminal report.
  */
  function EndStep(s: State): (r: State)
    requires Inv(s) && s.endBound
    ensures Inv(r) && !r.active && r.outcome == Ended
    ensures r.reports == if s.cfg.hasOnEnd then [EndReport] else []
    ensures r.errorBound == s.errorBound && r.errorUnbindScheduled == s.errorBound
    ensures r.stream == s.stream
  {
    assert s.active;
    var s1 := s.(endBound := false, active := false, outcome := Ended);
    var s2 := WithAbortUnbound(WithErrorUnbindScheduled(WithCloseUnbound(s1)));
    if s.cfg.hasOnEnd then s2.(reports := s2.reports + [EndReport]) else s2
  }

  /**
    `close` (lines 86-96): a stream closed while the session is active is an
    error; `onError` receives the close marker, `onEnd` is never called.
  */
  function CloseStep(s: State): (r: State)
    requires Inv(s) && s.closeBound
    ensures Inv(r) && !r.active && r.outcome == Closed
    ensures r.reports == if s.cfg.hasOnError then [ErrorReport(CloseError)] else []
    ensures r.errorBound == s.errorBound && r.errorUnbindScheduled == s.errorBound
    ensures r.stream == s.stream
  {
    assert s.active;
    var s1 := s.(active := false, closeBound := false, outcome := Closed);
    var s2 := WithErrorUnbindScheduled(WithAbortUnbound(WithEventsCleared(s1)));
    if s.cfg.hasOnError then s2.(reports := s2.reports + [ErrorReport(CloseError)]) else s2
  }

  /**
    `error` (lines 98-116), which may arrive at any time while its listener is
    bound, also after the session ended. The stream ends up destroyed, only
    the `error` listener's own flag and the pending timer remain, and:
    - while active, the session fails and `onError(error)` is its one report;
    - afterwards (inside the grace window) the error is absorbed: outcome and
      reports stay as they were;
    - without `onError`, the error is printed either way.
  */
  function ErrorStep(s: State, error: string): (r: State)
    requires Inv(s) && s.errorBound
    ensures Inv(r) && !r.active && r.stream.destroyed
    ensures !r.errorBound && !r.drainBound && !r.endBound && !r.closeBound && !r.abortBound
    ensures s.active ==> r.outcome == Failed(error)
    ensures s.active && s.cfg.hasOnError ==> r.reports == [ErrorReport(StreamError(error))]
    ensures !s.active ==> r.outcome == s.outcome && r.reports == s.reports
    ensures r.logged == if s.cfg.hasOnError then s.logged else s.logged + [error]
    ensures r.errorUnbindScheduled == s.errorUnbindScheduled
    ensures r.stream.written == s.stream.written
  {
    var s1 := s.(errorBound := false);
    WithErrorDelivered(WithStreamDestroyed(WithAbortUnbound(WithEventsCleared(WithCloseUnbound(s1)))), error)
  }

  /** Lines 106-115: `onError(error)` while active, `console.error` without `onError`, then inactive. */
  function WithErrorDelivered(s: State, error: string): (r: State)
    ensures !r.active
    ensures r.outcome == if s.active then Failed(error) else s.outcome
    ensures r.reports == if s.active && s.cfg.hasOnError then s.reports + [ErrorReport(StreamError(error))] else s.reports
    ensures r.logged == if s.cfg.hasOnError then s.logged else s.logged + [error]
    ensures r.(active := s.active, outcome := s.outcome, reports := s.reports, logged := s.logged) == s
  {
    var s1 :=
      if s.cfg.hasOnError then
        (if s.active then s.(reports := s.reports + [ErrorReport(StreamError(error))]) else s)
      else s.(logged := s.logged + [error]);
    if s.active then s1.(active := false, outcome := Failed(error)) else s1
  }

  /**
    `abort` on the signal (lines 118-128): the session ends without any
    terminal report, the stream is destroyed, and every listener but `error`
    (left to the timer) is gone.
  */
  function AbortStep(s: State): (r: State)
    requires Inv(s) && s.abortBound
    ensures Inv(r) && !r.active && r.outcome == Aborted && r.reports == []
    ensures r.stream.destroyed && r.stream.written == s.stream.written
    ensures r.errorBound == s.errorBound && r.errorUnbindScheduled == s.errorBound
  {
    assert s.active;
    var s1 := s.(active := false, abortBound := false, outcome := Aborted);
    WithStreamDestroyed(WithErrorUnbindScheduled(WithEventsCleared(WithCloseUnbound(s1))))
  }

  /**
    The 100 ms timer of `unbindEventError` (lines 33-38) fires: it unbinds
    `error` if still bound, after which the session holds no listener at all.
  */
  function TimerStep(s: State): (r: State)
    requires Inv(s) && s.errorUnbindScheduled
    ensures Inv(r) && NoListeners(r) && !r.errorUnbindScheduled
    ensures r.(errorBound := s.errorBound, errorUnbindScheduled := true) == s
  {
    var s1 := s.(errorUnbindScheduled := false);
    if s1.errorBound then s1.(errorBound := false) else s1
  }

  /**
    The returned `write(chunk)` (lines 134-150). It throws, changing nothing,
    unless the session is active, no end is pending and the stream is writable
    and not ended. `write(null)` unbinds `drain`, binds `end`, ends the stream
    and returns null. Any other chunk is written to the stream; its result is
    returned, and `onPause` is called exactly when it is false.
  */
  function WriteStep(s: State, chunk: Option<Chunk>, belowHighWaterMark: bool): (r: (State, WriteReturn))
    requires Inv(s)
    ensures Inv(r.0)
    ensures r.1 == Threw <==>
      s.endBound || !s.active || !s.stream.writable || s.stream.writableEnded
    ensures r.1 == Threw ==> r.0 == s
    ensures r.1 != Threw && chunk.None? ==>
      r.1 == ReturnedNull && r.0.endBound && !r.0.drainBound && r.0.stream.writableEnded
      && r.0.stream.written == s.stream.written && r.0.active
      && r.0 == s.(drainBound := false, endBound := true, stream := End(s.stream))
    ensures r.1 != Threw && chunk.Some? ==>
      r.1 == Returned(belowHighWaterMark) && r.0.stream.written == s.stream.written + [chunk]
      && r.0.pauseCalls == s.pauseCalls + (if s.cfg.hasOnPause && !belowHighWaterMark then 1 else 0)
      && r.0.(pauseCalls := s.pauseCalls, stream := s.stream) == s
  {
    if s.endBound || !s.active || !(s.stream.writable && !s.stream.writableEnded) then
      (s, Threw)
    else if chunk.None? then
      var s1 := WithEventsCleared(s).(endBound := true);
      (s1.(stream := End(s1.stream)), ReturnedNull)
    else
      var s1 := s.(stream := Write(s.stream, chunk));
      if s.cfg.hasOnPause && !belowHighWaterMark then (s1.(pauseCalls := s1.pauseCalls + 1), Returned(belowHighWaterMark))
      else (s1, Returned(belowHighWaterMark))
  }

  /**
    Something outside the adapter destroys the stream. The adapter does not
    react (Node then raises `close`, and perhaps `error`, as separate events).
  */
  function DestroyedElsewhereStep(s: State): (r: State)
    requires Inv(s)
    ensures Inv(r) && r.stream.destroyed && !r.stream.writable
    ensures r.stream.written == s.stream.written && r.(stream := s.stream) == s
  {
    s.(stream := Destroy(s.stream))
  }

  /** An event the session can receive, or a call of `write`. */
  datatype Event =
    | DrainEvent
    | EndEvent
    | CloseEvent
    | ErrorEvent(error: string)
    | AbortSignal
    | ErrorUnbindTimer
    | WriteCall(chunk: Option<Chunk>, belowHighWaterMark: bool)
    | DestroyedElsewhere

  /** Node delivers an event only to a bound listener; `write` may be called at any time. */
  predicate Enabled(s: State, e: Event)
  {
    match e
    case DrainEvent => s.drainBound
    case EndEvent => s.endBound
    case CloseEvent => s.closeBound
    case ErrorEvent(_) => s.errorBound
    case AbortSignal => s.abortBound
    case ErrorUnbindTimer => s.errorUnbindScheduled
    case WriteCall(_, _) => true
    case DestroyedElsewhere => true
  }

  /** One event; it keeps the invariant. */
  function Step(s: State, e: Event): (r: State)
    requires Inv(s) && Enabled(s, e)
    ensures Inv(r)
  {
    match e
    case DrainEvent => DrainStep(s)
    case EndEvent => EndStep(s)
    case CloseEvent => CloseStep(s)
    case ErrorEvent(error) => ErrorStep(s, error)
    case AbortSignal => AbortStep(s)
    case ErrorUnbindTimer => TimerStep(s)
    case WriteCall(chunk, belowHighWaterMark) => WriteStep(s, chunk, belowHighWaterMark).0
    case DestroyedElsewhere => DestroyedElsewhereStep(s)
  }

  /**
    No event takes back what was written, and once the session has ended no
    event changes its outcome or reports anything more.
  */
  lemma StepKeepsHistory(s: State, e: Event)
    requires Inv(s) && Enabled(s, e)
    ensures s.stream.written <= Step(s, e).stream.written
    ensures var w := Step(s, e).stream.written;
      w == s.stream.written || w == s.stream.written + ChunkOf(e)
    ensures !s.active ==>
      var r := Step(s, e); !r.active && r.outcome == s.outcome && r.reports == s.reports
  {
  }

  /** The chunk a `write` call other than `write(null)` passes; nothing for any other event. */
  function ChunkOf(e: Event): (r: seq<Option<Chunk>>)
    ensures |r| <= 1 && None !in r
  {
    if e.WriteCall? && e.chunk.Some? then [e.chunk] else []
  }

  /** The chunks other than `null` that the `write` calls of `es` pass, in order. */
  function WrittenChunks(es: seq<Event>): seq<Option<Chunk>>
  {
    if es == [] then [] else ChunkOf(es[0]) + WrittenChunks(es[1..])
  }

  /** `a` is `b` with some elements left out. */
  predicate IsSubsequence<T(==)>(a: seq<T>, b: seq<T>)
    decreases |b|
  {
    if b == [] then a == []
    else IsSubsequence(a, b[1..]) || (a != [] && a[0] == b[0] && IsSubsequence(a[1..], b[1..]))
  }

  /** Prepending at most one element to `b`, and perhaps the same one to `a`, keeps `a` a subsequence of `b`. */
  lemma SubsequencePrepend<T>(d: seq<T>, ds: seq<T>, a: seq<T>, b: seq<T>)
    requires IsSubsequence(a, b) && |ds| <= 1 && (d == [] || d == ds)
    ensures IsSubsequence(d + a, ds + b)
  {
    if ds != [] {
      assert (ds + b)[1..] == b;
      if d != [] {
        assert (d + a)[0] == (ds + b)[0] && (d + a)[1..] == a;
      } else {
        assert d + a == a;
      }
    } else {
      assert d + a == a && ds + b == b;
    }
  }

  /** Every event of `es`, in order, reaches a bound listener. */
  ghost predicate Admissible(s: State, es: seq<Event>)
    requires Inv(s)
    decreases |es|
  {
    es == [] || (Enabled(s, es[0]) && Admissible(Step(s, es[0]), es[1..]))
  }

  /**
    The session after the events `es`. Whatever order the events race in, the
    invariant holds after each of them, so at most one of `onEnd`/`onError` is
    ever called, and at most once; chunks reach the stream in the order they
    were written; and the first terminal event decides the outcome for good.
  */
  ghost function Run(s: State, es: seq<Event>): (r: State)
    requires Inv(s) && Admissible(s, es)
    ensures Inv(r) && |r.reports| <= 1
    ensures s.stream.written <= r.stream.written
    ensures !s.active ==> !r.active && r.outcome == s.outcome && r.reports == s.reports
    decreases |es|
  {
    if es == [] then s
    else
      StepKeepsHistory(s, es[0]);
      Run(Step(s, es[0]), es[1..])
  }

  /**
    A trace can be cut anywhere: running `xs` and then `ys` is running
    `xs + ys`. With `Run`'s own contract this makes the outcome of the first
    terminal event final in the middle of any trace, not only at its start.
  */
  lemma {:induction false} RunAppend(s: State, xs: seq<Event>, ys: seq<Event>)
    requires Inv(s) && Admissible(s, xs + ys)
    ensures Admissible(s, xs) && Admissible(Run(s, xs), ys)
    ensures Run(s, xs + ys) == Run(Run(s, xs), ys)
    decreases |xs|
  {
    if xs == [] {
      assert xs + ys == ys;
    } else {
      assert (xs + ys)[0] == xs[0] && (xs + ys)[1..] == xs[1..] + ys;
      RunAppend(Step(s, xs[0]), xs[1..], ys);
    }
  }

  /**
    What a trace adds to the stream is made of the chunks its `write` calls
    pass, in the order of the calls: a call that throws writes nothing, and
    nothing reaches the stream any other way.
  */
  lemma {:induction false} RunWritesInOrder(s: State, es: seq<Event>)
    requires Inv(s) && Admissible(s, es)
    ensures IsSubsequence(Run(s, es).stream.written[|s.stream.written|..], WrittenChunks(es))
    decreases |es|
  {
    if es != [] {
      var s1 := Step(s, es[0]);
      StepKeepsHistory(s, es[0]);
      RunWritesInOrder(s1, es[1..]);
      WritesCompose(s.stream.written, s1.stream.written, Run(s1, es[1..]).stream.written,
                    ChunkOf(es[0]), WrittenChunks(es[1..]));
    }
  }

  /** One step that writes `d` or nothing, followed by a run whose writes are a subsequence of `rest`. */
  lemma WritesCompose<T>(w0: seq<T>, w1: seq<T>, w2: seq<T>, d: seq<T>, rest: seq<T>)
    requires w1 <= w2 && (w1 == w0 || w1 == w0 + d) && |d| <= 1
    requires IsSubsequence(w2[|w1|..], rest)
    ensures |w0| <= |w2| && IsSubsequence(w2[|w0|..], d + rest)
  {
    assert w2[|w0|..] == w1[|w0|..] + w2[|w1|..];
    SubsequencePrepend(w1[|w0|..], d, w2[|w1|..], rest);
  }

  /**
    The adapter as the source writes it: the `state` record's flags, the
    pending timer and the stream are fields that the handlers change one
    statement at a time. Each handler is proved to move the session exactly as
    the step function of the same event does.
  */
  class Session {
    const cfg: Config
    var isActive: bool
    var isEventErrorBind: bool
    var isEventEndBind: bool
    var isEventDrainBind: bool
    var isEventCloseBind: bool
    var isEventAbortBind: bool
    var errorUnbindTimer: bool
    var stream: Resource
    ghost var timersStarted: nat
    ghost var outcome: Outcome
    ghost var reports: seq<Report>
    ghost var pauseCalls: nat
    ghost var drainCalls: nat
    ghost var logged: seq<string>

    ghost function Snapshot(): State
      reads this
    {
      State(cfg, isActive, isEventErrorBind, isEventEndBind, isEventDrainBind,
            isEventCloseBind, isEventAbortBind, errorUnbindTimer, timersStarted, stream,
            outcome, reports, pauseCalls, drainCalls, logged)
    }

    ghost predicate Valid()
      reads this
    {
      Inv(Snapshot())
    }

    /** Lines 12-29 and 130-132; the constructor's assertions are its precondition. */
    constructor (cfg: Config, readable: bool, writable: bool, signalAborted: bool)
      requires readable && writable && !(cfg.hasSignal && signalAborted)
      ensures Valid() && Snapshot() == Open(cfg, readable, writable, signalAborted).value
    {
      this.cfg := cfg;
      isActive := true;
      isEventErrorBind := true;
      isEventEndBind := false;
      isEventDrainBind := true;
      isEventCloseBind := true;
      isEventAbortBind := cfg.hasSignal;
      errorUnbindTimer := false;
      stream := Fresh(readable, writable);
      timersStarted := 0;
      outcome := Running;
      reports := [];
      pauseCalls, drainCalls, logged := 0, 0, [];
    }

    method UnbindEventError()
      modifies this
      ensures Snapshot() == WithErrorUnbindScheduled(old(Snapshot()))
    {
      if isEventErrorBind {
        errorUnbindTimer := true;
        timersStarted := timersStarted + 1;
      }
    }

    method UnbindEventClose()
      modifies this
      ensures Snapshot() == WithCloseUnbound(old(Snapshot()))
    {
      if isEventCloseBind {
        isEventCloseBind := false;
      }
    }

    method UnbindEventAbort()
      modifies this
      ensures Snapshot() == WithAbortUnbound(old(Snapshot()))
    {
      if isEventAbortBind {
        isEventAbortBind := false;
      }
    }

    method ClearEvents()
      modifies this
      ensures Snapshot() == WithEventsCleared(old(Snapshot()))
    {
      if isEventDrainBind {
        isEventDrainBind := false;
      }
      if isEventEndBind {
        isEventEndBind := false;
      }
    }

    method HandleDrain()
      requires Valid() && isEventDrainBind
      modifies this
      ensures Valid() && Snapshot() == DrainStep(old(Snapshot()))
    {
      assert isActive;
      if cfg.hasOnDrain {
        drainCalls := drainCalls + 1;
      }
    }

    method HandleEnd()
      requires Valid() && isEventEndBind
      modifies this
      ensures Valid() && Snapshot() == EndStep(old(Snapshot()))
    {
      assert isActive;
      isEventEndBind := false;
      isActive := false;
      outcome := Ended;
      UnbindEventClose();
      UnbindEventError();
      UnbindEventAbort();
      if cfg.hasOnEnd {
        reports := reports + [EndReport];
      }
    }

    method HandleClose()
      requires Valid() && isEventCloseBind
      modifies this
      ensures Valid() && Snapshot() == CloseStep(old(Snapshot()))
    {
      assert isActive;
      isActive := false;
      outcome := Closed;
      isEventCloseBind := false;
      ClearEvents();
      UnbindEventAbort();
      UnbindEventError();
      if cfg.hasOnError {
        reports := reports + [ErrorReport(CloseError)];
      }
    }

    method HandleError(error: string)
      requires Valid() && isEventErrorBind
      modifies this
      ensures Valid() && Snapshot() == ErrorStep(old(Snapshot()), error)
    {
      isEventErrorBind := false;
      UnbindEventClose();
      ClearEvents();
      UnbindEventAbort();
      if !stream.destroyed {
        stream := Destroy(stream);
      }
      DeliverError(error);
    }

    /** Lines 106-115 of `handleError`. */
    method DeliverError(error: string)
      modifies this
      ensures Snapshot() == WithErrorDelivered(old(Snapshot()), error)
    {
      if cfg.hasOnError {
        if isActive {
          reports := reports + [ErrorReport(StreamError(error))];
        }
      } else {
        logged := logged + [error];
      }
      if isActive {
        isActive := false;
        outcome := Failed(error);
      }
    }

    method HandleAbortOnSignal()
      requires Valid() && isEventAbortBind
      modifies this
      ensures Valid() && Snapshot() == AbortStep(old(Snapshot()))
    {
      assert isActive;
      isActive := false;
      outcome := Aborted;
      isEventAbortBind := false;
      UnbindEventClose();
      ClearEvents();
      UnbindEventError();
      if !stream.destroyed {
        stream := Destroy(stream);
      }
    }

    /** The callback of the 100 ms timer started by `unbindEventError`. */
    method FireDeferredErrorUnbind()
      requires Valid() && errorUnbindTimer
      modifies this
      ensures Valid() && Snapshot() == TimerStep(old(Snapshot()))
    {
      errorUnbindTimer := false;
      if isEventErrorBind {
        isEventErrorBind := false;
      }
    }

    /** The returned `write(chunk)`; `belowHighWaterMark` is what `stream.write` returns. */
    method Write(chunk: Option<Chunk>, belowHighWaterMark: bool) returns (ret: WriteReturn)
      requires Valid()
      modifies this
      ensures Valid() && (Snapshot(), ret) == WriteStep(old(Snapshot()), chunk, belowHighWaterMark)
    {
      if isEventEndBind || !isActive || !(stream.writable && !stream.writableEnded) {
        return Threw;
      }
      if chunk.None? {
        ClearEvents();
        isEventEndBind := true;
        stream := End(stream);
        return ReturnedNull;
      }
      stream := StreamCommon.Write(stream, chunk);
      ret := Returned(belowHighWaterMark);
      if cfg.hasOnPause && !belowHighWaterMark {
        pauseCalls := pauseCalls + 1;
      }
    }
  }
}
