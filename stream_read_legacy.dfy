/**
  The older read adapter (src/wrapperStreamRead.mjs).

  It has the same `state` record, the same listeners and the same unbinding
  helpers as the exported read adapter (module StreamRead), but its `data`,
  `end`, `close` and `abort` handlers `assert(state.isActive)` where the
  exported one tests it. The model proves those assertions can never fail
  (each of these listeners is bound only while the session is active) and
  that, on every state the session can reach, each handler does exactly what
  the exported adapter's handler does, so the two adapters are
  interchangeable.
*/
module StreamReadLegacy {
  import opened Wrappers
  import opened StreamCommon
  import opened StreamRead

  /**
    `data` (lines 32-41): `assert(state.isActive)` holds; `onData` receives the
    chunk, and a reply of exactly `false` on an unpaused stream pauses it and
    calls `onPause` (if given).
  */
  function LegacyDataStep(s: State, chunk: Chunk, reply: Reply): (r: State)
    requires Inv(s) && s.dataBound
    ensures r == DataStep(s, chunk, reply)
  {
    assert s.active;
    var s1 := s.(delivered := s.delivered + [chunk]);
    if reply == ReplyFalse && !s1.stream.paused then
      var s2 := s1.(stream := Pause(s1.stream));
      if s.cfg.hasOnPause then s2.(pauseCalls := s2.pauseCalls + 1) else s2
    else s1
  }

  /** `end` (lines 76-84): `assert(state.isActive)` holds; `onEnd()` is called without a guard. */
  function LegacyEndStep(s: State): (r: State)
    requires Inv(s) && s.endBound
    ensures r == EndStep(s)
  {
    assert s.active;
    var s1 := s.(endBound := false, active := false, outcome := Ended);
    var s2 := WithAbortUnbound(WithErrorUnbindScheduled(WithEventsCleared(s1)));
    s2.(reports := s2.reports + [EndReport])
  }

  /** `close` (lines 86-96): `assert(state.isActive)` holds; `onError` (if given) gets the close marker. */
  function LegacyCloseStep(s: State): (r: State)
    requires Inv(s) && s.closeBound
    ensures r == CloseStep(s)
  {
    assert s.active;
    var s1 := s.(active := false, closeBound := false, outcome := Closed);
    var s2 := WithErrorUnbindScheduled(WithAbortUnbound(WithEventsCleared(s1)));
    if s.cfg.hasOnError then s2.(reports := s2.reports + [ErrorReport(CloseError)]) else s2
  }

  /**
    `error` (lines 98-115), the one handler without an assertion: it may run
    after the session ended (inside the grace window), and then only destroys
    the stream and, without `onError`, prints the error.
  */
  function LegacyErrorStep(s: State, error: string): (r: State)
    requires Inv(s) && s.errorBound
    ensures r == ErrorStep(s, error)
  {
    var s1 := WithStreamDestroyed(WithAbortUnbound(WithEventsCleared(s.(errorBound := false))));
    var s2 :=
      if s.cfg.hasOnError then
        (if s1.active then s1.(reports := s1.reports + [ErrorReport(StreamError(error))]) else s1)
      else s1.(logged := s1.logged + [error]);
    if s2.active then s2.(active := false, outcome := Failed(error)) else s2
  }

  /** `abort` (lines 117-126): `assert(state.isActive)` holds; no terminal report, stream destroyed. */
  function LegacyAbortStep(s: State): (r: State)
    requires Inv(s) && s.abortBound
    ensures r == AbortStep(s)
  {
    assert s.active;
    var s1 := s.(active := false, abortBound := false, outcome := Aborted);
    WithStreamDestroyed(WithErrorUnbindScheduled(WithEventsCleared(s1)))
  }

  /**
    One event. The timer (lines 43-52) and the caller's or Node's actions on
    the stream are the same as for the exported adapter.
  */
  function LegacyStep(s: State, e: Event): (r: State)
    requires Inv(s) && Enabled(s, e)
    ensures r == Step(s, e)
  {
    match e
    case DataEvent(chunk, reply) => LegacyDataStep(s, chunk, reply)
    case EndEvent => LegacyEndStep(s)
    case CloseEvent => LegacyCloseStep(s)
    case ErrorEvent(error) => LegacyErrorStep(s, error)
    case AbortSignal => LegacyAbortStep(s)
    case ErrorUnbindTimer => TimerStep(s)
    case ResumedElsewhere => ResumedElsewhereStep(s)
    case DestroyedElsewhere => DestroyedElsewhereStep(s)
  }

  /** Every event of `es`, in order, reaches a bound listener of the older adapter. */
  ghost predicate LegacyAdmissible(s: State, es: seq<Event>)
    requires Inv(s)
    decreases |es|
  {
    es == [] || (Enabled(s, es[0]) && LegacyAdmissible(LegacyStep(s, es[0]), es[1..]))
  }

  /**
    The older adapter after the events `es`: whatever order they race in, the
    same events are admissible for the exported adapter and leave it in the
    same state, so every property proved of `Run` (at most one terminal
    report, arrival order of chunks, nothing after the end) holds here too.
  */
  ghost function LegacyRun(s: State, es: seq<Event>): (r: State)
    requires Inv(s) && LegacyAdmissible(s, es)
    ensures Admissible(s, es) && r == Run(s, es)
    decreases |es|
  {
    if es == [] then s else LegacyRun(LegacyStep(s, es[0]), es[1..])
  }

  /**
    The older adapter as the source writes it, with the same fields as the
    exported one; every handler whose source asserts `state.isActive` proves
    that assertion from the session's invariant.
  */
  class Session {
    const cfg: Config
    var isActive: bool
    var isEventErrorBind: bool
    var isEventDataBind: bool
    var isEventEndBind: bool
    var isEventCloseBind: bool
    var isEventAbortBind: bool
    var errorUnbindTimer: bool
    var stream: Resource
    ghost var timersStarted: nat
    ghost var outcome: Outcome
    ghost var reports: seq<Report>
    ghost var delivered: seq<Chunk>
    ghost var pauseCalls: nat
    ghost var logged: seq<string>

    ghost function Snapshot(): State
      reads this
    {
      State(cfg, isActive, isEventErrorBind, isEventDataBind, isEventEndBind,
            isEventCloseBind, isEventAbortBind, errorUnbindTimer, timersStarted, stream,
            outcome, reports, delivered, pauseCalls, logged)
    }

    ghost predicate Valid()
      reads this
    {
      Inv(Snapshot())
    }

    /** Lines 12-30 and 128-130; the constructor's assertions are its precondition. */
    constructor (cfg: Config, readable: bool, signalAborted: bool)
      requires readable && !(cfg.hasSignal && signalAborted)
      ensures Valid() && Snapshot() == Open(cfg, readable, true, true, signalAborted).value
    {
      this.cfg := cfg;
      isActive := true;
      isEventErrorBind := true;
      isEventDataBind := true;
      isEventEndBind := true;
      isEventCloseBind := true;
      isEventAbortBind := cfg.hasSignal;
      errorUnbindTimer := false;
      stream := Fresh(readable, false);
      timersStarted := 0;
      outcome := Running;
      reports, delivered, pauseCalls, logged := [], [], 0, [];
    }

    method UnbindEventError()
      modifies this
      ensures Snapshot() == WithErrorUnbindScheduled(old(Snapshot()))
    {
      if isEventErrorBind {
        errorUnbindTimer := true;
        timersStarted := timersStarted + 1;
      }
    }

    method UnbindEventAbort()
      modifies this
      ensures Snapshot() == WithAbortUnbound(old(Snapshot()))
    {
      if isEventAbortBind {
        isEventAbortBind := false;
      }
    }

    method ClearEvents()
      modifies this
      ensures Snapshot() == WithEventsCleared(old(Snapshot()))
    {
      if isEventEndBind {
        isEventEndBind := false;
      }
      if isEventDataBind {
        isEventDataBind := false;
      }
      if isEventCloseBind {
        isEventCloseBind := false;
      }
    }

    /** `onData` returned `reply` for `chunk`. */
    method HandleData(chunk: Chunk, reply: Reply)
      requires Valid() && isEventDataBind
      modifies this
      ensures Valid() && Snapshot() == LegacyDataStep(old(Snapshot()), chunk, reply)
    {
      assert isActive;
      delivered := delivered + [chunk];
      if reply == ReplyFalse && !stream.paused {
        stream := Pause(stream);
        if cfg.hasOnPause {
          pauseCalls := pauseCalls + 1;
        }
      }
    }

    method HandleEnd()
      requires Valid() && isEventEndBind
      modifies this
      ensures Valid() && Snapshot() == LegacyEndStep(old(Snapshot()))
    {
      assert isActive;
      isEventEndBind := false;
      isActive := false;
      outcome := Ended;
      ClearEvents();
      UnbindEventError();
      UnbindEventAbort();
      reports := reports + [EndReport];
    }

    method HandleClose()
      requires Valid() && isEventCloseBind
      modifies this
      ensures Valid() && Snapshot() == LegacyCloseStep(old(Snapshot()))
    {
      assert isActive;
      isActive := false;
      outcome := Closed;
      isEventCloseBind := false;
      ClearEvents();
      UnbindEventAbort();
      UnbindEventError();
      if cfg.hasOnError {
        reports := reports + [ErrorReport(CloseError)];
      }
    }

    method HandleError(error: string)
      requires Valid() && isEventErrorBind
      modifies this
      ensures Valid() && Snapshot() == LegacyErrorStep(old(Snapshot()), error)
    {
      isEventErrorBind := false;
      ClearEvents();
      UnbindEventAbort();
      if !stream.destroyed {
        stream := Destroy(stream);
      }
      DeliverError(error);
    }

    /** Lines 105-114 of `handleError`. */
    method DeliverError(error: string)
      modifies this
      ensures Snapshot() == WithErrorDelivered(old(Snapshot()), error)
    {
      if cfg.hasOnError {
        if isActive {
          reports := reports + [ErrorReport(StreamError(error))];
        }
      } else {
        logged := logged + [error];
      }
      if isActive {
        isActive := false;
        outcome := Failed(error);
      }
    }

    method HandleAbortOnSignal()
      requires Valid() && isEventAbortBind
      modifies this
      ensures Valid() && Snapshot() == LegacyAbortStep(old(Snapshot()))
    {
      assert isActive;
      isActive := false;
      outcome := Aborted;
      isEventAbortBind := false;
      ClearEvents();
      UnbindEventError();
      if !stream.destroyed {
        stream := Destroy(stream);
      }
    }

    /** The callback of the 100 ms timer started by `unbindEventError`. */
    method FireDeferredErrorUnbind()
      requires Valid() && errorUnbindTimer
      modifies this
      ensures Valid() && Snapshot() == TimerStep(old(Snapshot()))
    {
      errorUnbindTimer := false;
      if isEventErrorBind {
        isEventErrorBind := false;
      }
    }
  }
}
