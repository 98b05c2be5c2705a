# Stream lifecycle adapters and path resolution, in Dafny

This project models the core of `node-utils`: four adapters that wrap a Node
stream and an optional abort signal and turn the stream's events into a small
callback protocol, and `getPathname`, which resolves a user-supplied location
to a path.

The abort signal is optional in the read and write adapters. The duplex
adapter requires one: it reads `signal.aborted` without a guard.

Each adapter keeps a `state` record with an `isActive` flag and one "listener
is bound" flag per event. The first of `end`, `close`, `error` and `abort`
ends the session and calls at most one terminal callback: `onEnd()`, or
`onError` with a close marker or with the stream's error. The variants are:

- `StreamWrite` models `src/wrapStreamWrite.mjs`. It returns a `write(chunk)` function; `write(null)` swaps `drain` for `end` and ends the stream.
- `StreamRead` models `src/wrapStreamRead.mjs`. It passes every chunk to `onData` and pauses the stream when `onData` returns exactly `false`. Every handler tests `isActive` before it calls back.
- `StreamReadLegacy` models `src/wrapperStreamRead.mjs`. This is the older read adapter, whose handlers `assert(state.isActive)` instead of testing it.
- `StreamDuplex` models `src/wrapStream.mjs`. It has no grace window: `setClose` unbinds all five listeners at once and asserts that the session is active. `drain` calls the caller's `resume`, and a write for which `stream.write` returns false calls its `pause`. Such a chunk is still queued; the stream's buffer has only passed its high-water mark.
- `Pathname` models `src/getPathname.mjs`.

In the read and write adapters, the `error` listener outlives the session by
one 100 ms timer: the grace window. In the model this timer is an explicit
step.

Each adapter module has two parts:

- A pure specification. It consists of a `State` datatype, the invariant
  `Inv`, and one step function per event. Each step function requires that
  the event's listener is bound and ensures what the event does. `Run` folds
  any admissible sequence of racing events.
- A `class Session`. Its fields are the source's flags, plus the stream and
  ghost records of the callbacks made. Each handler method changes these
  fields one statement at a time and is proved to move the session exactly
  as the matching step function does.

The step functions are the specification and the class is the source's own
form of the same adapter, so each pair of a handler and a step function is a
proof obligation, not two definitions of one thing.

The source asserts `isActive` inside its handlers. The model proves those
assertions from the invariant "a listener other than `error` is bound only
while the session is active". The assertions that callers face are different:
those at construction and in `write` become a `None`/`Threw` result of the
pure functions, and preconditions of the class constructors.

The stream is reduced to what the adapters use (`StreamCommon.Resource`):
`destroy()`, `end()`, `pause()`, `write(chunk)` and their flags. Events, and
the boolean that `stream.write` returns, are inputs. The home directory and
the current directory are parameters of `GetPathname`. `path.join` and
`path.parse(...).root` follow Node's POSIX implementation, at the level of
path segments.

The model follows the code where a description of the system differs from it:

- `onData` asks for a pause only with `false` itself (`ret === false`).
  Other falsy replies do not pause.
- In the duplex adapter, `write(null)` ends the stream and then passes `null`
  on to `stream.write` without returning. The model records that call as a
  write after the end (`writesAfterEnd`).
- A session ends at most once. One that never receives a terminal event
  stays active.

## Model

| member | source | states |
|---|---|---|
| StreamCommon.Expected | src/wrapStreamWrite.mjs:74-128 | The terminal callbacks a decided outcome calls for: at most one. `onEnd` only after `end`, and only if supplied. None while running or after an abort. |
| StreamWrite.Open | src/wrapStreamWrite.mjs:12-29 | Construction succeeds iff the stream is readable and writable and a given signal is not aborted. It then starts active, with `error`, `close` and `drain` bound, `end` unbound, `abort` bound iff a signal was given, and the invariant holding. |
| StreamWrite.DrainStep | src/wrapStreamWrite.mjs:67-72 | Its `assert(state.isActive)` holds. `onDrain` is called once when supplied. Nothing else changes. |
| StreamWrite.EndStep | src/wrapStreamWrite.mjs:74-84 | The session ends with outcome Ended and its only report is `onEnd()` (if supplied). The deferred `error` unbind is scheduled iff `error` was bound. The stream is untouched. |
| StreamWrite.CloseStep | src/wrapStreamWrite.mjs:86-96 | The session ends with outcome Closed. The only report is `onError(close error)` (if supplied), never `onEnd`. The deferred unbind is scheduled iff `error` was bound. |
| StreamWrite.ErrorStep | src/wrapStreamWrite.mjs:98-116 | The stream ends up destroyed and every listener is unbound. While active, the session fails and `onError(error)` is its one report. In the grace window, outcome and reports are unchanged. Without `onError`, the error is logged either way. |
| StreamWrite.WithErrorDelivered | src/wrapStreamWrite.mjs:106-115 | The session is inactive afterwards. While it was active it fails with this error, and `onError(error)` is added to the reports iff `onError` was supplied; in the grace window the outcome and reports stay. Without `onError` the error is logged. No other field changes. |
| StreamWrite.AbortStep | src/wrapStreamWrite.mjs:118-128 | The session ends with outcome Aborted and no report at all. The stream is destroyed, nothing written is lost, and the deferred unbind is scheduled iff `error` was bound. |
| StreamWrite.TimerStep | src/wrapStreamWrite.mjs:31-40 | The deferred unbind clears `error` if it is still bound and changes nothing else. Afterwards the session holds no listener. |
| StreamWrite.WriteStep | src/wrapStreamWrite.mjs:134-150 | `write` throws, changing nothing, iff an end is pending, the session is inactive, or the stream is not writable or already ended. `write(null)` binds `end`, unbinds `drain`, ends the stream and returns null. Any other chunk is appended to what was written and its result returned. `onPause` is called iff the result is false and `onPause` was supplied. |
| StreamWrite.Step | src/wrapStreamWrite.mjs:18-150 | Every event delivered to a bound listener, every `write` call, and an outside `destroy()` keep the invariant. Once inactive, only `error` may stay bound, and only while its timer is pending. At most one timer is ever started. `end` bound implies `drain` unbound. Nothing is written after `end()`. |
| StreamWrite.StepKeepsHistory | src/wrapStreamWrite.mjs:74-150 | A step either writes nothing or writes exactly the chunk of its own `write` call; no event takes back a write. After the session has ended, no event changes its outcome or adds a report. |
| StreamWrite.Run | src/wrapStreamWrite.mjs:74-116 | For every admissible interleaving of events: the invariant holds, `onEnd`/`onError` are called at most once in total, written chunks keep their order, and the first terminal event decides the outcome for good. |
| StreamWrite.RunAppend | src/wrapStreamWrite.mjs:31-150 | Running two traces one after the other is running their concatenation, and every prefix of an admissible trace is admissible. So the guarantees of `Run` hold from any point of a trace onwards. |
| StreamWrite.ChunkOf | src/wrapStreamWrite.mjs:134-150 | A single event passes at most one chunk to `stream.write`, and never `null`. |
| StreamWrite.RunWritesInOrder | src/wrapStreamWrite.mjs:134-150 | What any admissible trace adds to the stream is a subsequence of the non-null chunks its `write` calls pass, in call order. Calls that throw write nothing, and nothing else writes. |
| StreamWrite.Session.constructor | src/wrapStreamWrite.mjs:12-29 | The fields start as `Open` describes. |
| StreamWrite.Session.UnbindEventError | src/wrapStreamWrite.mjs:31-40 | Starts the timer iff `error` is bound. |
| StreamWrite.Session.UnbindEventClose | src/wrapStreamWrite.mjs:42-47 | Unbinds `close`. |
| StreamWrite.Session.UnbindEventAbort | src/wrapStreamWrite.mjs:49-54 | Unbinds `abort`. |
| StreamWrite.Session.ClearEvents | src/wrapStreamWrite.mjs:56-65 | Unbinds `drain` and `end`. |
| StreamWrite.Session.HandleDrain | src/wrapStreamWrite.mjs:67-72 | Proves `isActive` and moves the fields as `DrainStep` does. |
| StreamWrite.Session.HandleEnd | src/wrapStreamWrite.mjs:74-84 | Proves `isActive` and moves the fields as `EndStep` does. |
| StreamWrite.Session.HandleClose | src/wrapStreamWrite.mjs:86-96 | Proves `isActive` and moves the fields as `CloseStep` does. |
| StreamWrite.Session.HandleError | src/wrapStreamWrite.mjs:98-116 | Moves the fields as `ErrorStep` does. |
| StreamWrite.Session.DeliverError | src/wrapStreamWrite.mjs:106-115 | Calls `onError` only while active, logs without `onError`, then deactivates. |
| StreamWrite.Session.HandleAbortOnSignal | src/wrapStreamWrite.mjs:118-128 | Proves `isActive` and moves the fields as `AbortStep` does. |
| StreamWrite.Session.FireDeferredErrorUnbind | src/wrapStreamWrite.mjs:33-38 | Moves the fields as `TimerStep` does. |
| StreamWrite.Session.Write | src/wrapStreamWrite.mjs:134-150 | Returns what `WriteStep` returns and moves the fields as it does. |
| StreamRead.Open | src/wrapStreamRead.mjs:12-30 | Construction succeeds iff the stream is readable, `onData` and `onEnd` are functions, and a given signal is not aborted. It then starts active, with `error`, `close`, `end` and `data` bound, `abort` bound iff a signal was given, and the invariant holding. |
| StreamRead.DataStep | src/wrapStreamRead.mjs:32-42 | The `isActive` guard always passes, so the chunk is appended to what `onData` received. The stream ends up paused iff it was paused or the reply is `false`. `onPause` is called iff the reply is `false` on an unpaused stream and `onPause` was supplied. The stream is never resumed. |
| StreamRead.EndStep | src/wrapStreamRead.mjs:77-86 | The session ends with outcome Ended and exactly one `onEnd()`. `data`, `end`, `close` and `abort` are unbound, and the deferred unbind is scheduled iff `error` was bound. |
| StreamRead.CloseStep | src/wrapStreamRead.mjs:88-97 | The session ends with outcome Closed. The only report is `onError(close error)` (if supplied), never `onEnd`. |
| StreamRead.ErrorStep | src/wrapStreamRead.mjs:99-114 | The stream ends up destroyed and every listener is unbound. `onError(error)` is reported only while active. In the grace window, outcome and reports are unchanged. Without `onError`, the error is logged. |
| StreamRead.WithErrorDelivered | src/wrapStreamRead.mjs:106-113 | The session is inactive afterwards. While it was active it fails with this error, and `onError(error)` is added to the reports iff `onError` was supplied; in the grace window the outcome and reports stay. Without `onError` the error is logged. No other field changes. |
| StreamRead.AbortStep | src/wrapStreamRead.mjs:116-124 | The session ends with outcome Aborted and no report. The stream is destroyed, and the deferred unbind is scheduled iff `error` was bound. |
| StreamRead.TimerStep | src/wrapStreamRead.mjs:44-53 | The deferred unbind clears `error` if it is still bound. Afterwards no listener is left. |
| StreamRead.Step | src/wrapStreamRead.mjs:18-124 | Every delivered event keeps the invariant. Once inactive, `data`, `end`, `close` and `abort` are unbound, so every `isActive` guard passes. At most one timer is ever started. Error and abort leave the stream destroyed. |
| StreamRead.StepKeepsHistory | src/wrapStreamRead.mjs:32-124 | A `data` event adds its chunk to what `onData` has received; no other event adds or takes back a delivery. After the end, no event changes the outcome, reports or deliveries. |
| StreamRead.Run | src/wrapStreamRead.mjs:32-114 | For every admissible interleaving: `onEnd`/`onError` are called at most once in total. The chunks `onData` receives are exactly the chunks of the trace's `data` events, in arrival order. Nothing is delivered or reported after the first terminal event. |
| StreamRead.RunAppend | src/wrapStreamRead.mjs:32-124 | Running two traces one after the other is running their concatenation, and every prefix of an admissible trace is admissible. So the guarantees of `Run` hold from any point of a trace onwards. |
| StreamRead.Session.constructor | src/wrapStreamRead.mjs:12-30 | The fields start as `Open` describes. |
| StreamRead.Session.UnbindEventError | src/wrapStreamRead.mjs:44-53 | Starts the timer iff `error` is bound. |
| StreamRead.Session.UnbindEventAbort | src/wrapStreamRead.mjs:55-60 | Unbinds `abort`. |
| StreamRead.Session.ClearEvents | src/wrapStreamRead.mjs:62-75 | Unbinds `end`, `data` and `close`. |
| StreamRead.Session.HandleData | src/wrapStreamRead.mjs:32-42 | Moves the fields as `DataStep` does. |
| StreamRead.Session.HandleEnd | src/wrapStreamRead.mjs:77-86 | Moves the fields as `EndStep` does. |
| StreamRead.Session.HandleClose | src/wrapStreamRead.mjs:88-97 | Moves the fields as `CloseStep` does. |
| StreamRead.Session.HandleError | src/wrapStreamRead.mjs:99-114 | Moves the fields as `ErrorStep` does. |
| StreamRead.Session.DeliverError | src/wrapStreamRead.mjs:106-113 | Calls `onError` only while active, logs without `onError`, then deactivates. |
| StreamRead.Session.HandleAbortOnSignal | src/wrapStreamRead.mjs:116-124 | Moves the fields as `AbortStep` does. |
| StreamRead.Session.FireDeferredErrorUnbind | src/wrapStreamRead.mjs:46-51 | Moves the fields as `TimerStep` does. |
| StreamReadLegacy.LegacyDataStep | src/wrapperStreamRead.mjs:32-41 | Its `assert(state.isActive)` holds on every reachable state. It then agrees with the exported adapter's `data` handler. |
| StreamReadLegacy.LegacyEndStep | src/wrapperStreamRead.mjs:76-84 | Its `assert(state.isActive)` holds. The unguarded `onEnd()` agrees with the exported adapter's guarded one. |
| StreamReadLegacy.LegacyCloseStep | src/wrapperStreamRead.mjs:86-96 | Its `assert(state.isActive)` holds. It agrees with the exported adapter's `close` handler. |
| StreamReadLegacy.LegacyErrorStep | src/wrapperStreamRead.mjs:98-115 | It agrees with the exported adapter's `error` handler, including inside the grace window. |
| StreamReadLegacy.LegacyAbortStep | src/wrapperStreamRead.mjs:117-126 | Its `assert(state.isActive)` holds. It agrees with the exported adapter's `abort` handler. |
| StreamReadLegacy.LegacyStep | src/wrapperStreamRead.mjs:32-126 | Every event agrees with the exported adapter's step. |
| StreamReadLegacy.LegacyRun | src/wrapperStreamRead.mjs:76-126 | Any event sequence the older adapter accepts is admissible for the exported one and ends in the same state. So at most one terminal callback, and every other property of `StreamRead.Run`, carry over. |
| StreamReadLegacy.Session.constructor | src/wrapperStreamRead.mjs:12-30 | The fields start as `StreamRead.Open` describes. |
| StreamReadLegacy.Session.UnbindEventError | src/wrapperStreamRead.mjs:43-52 | Starts the timer iff `error` is bound. |
| StreamReadLegacy.Session.UnbindEventAbort | src/wrapperStreamRead.mjs:54-59 | Unbinds `abort`. |
| StreamReadLegacy.Session.ClearEvents | src/wrapperStreamRead.mjs:61-74 | Unbinds `end`, `data` and `close`. |
| StreamReadLegacy.Session.HandleData | src/wrapperStreamRead.mjs:32-41 | Proves `isActive` and moves the fields as `LegacyDataStep` does. |
| StreamReadLegacy.Session.HandleEnd | src/wrapperStreamRead.mjs:76-84 | Proves `isActive` and moves the fields as `LegacyEndStep` does. |
| StreamReadLegacy.Session.HandleClose | src/wrapperStreamRead.mjs:86-96 | Proves `isActive` and moves the fields as `LegacyCloseStep` does. |
| StreamReadLegacy.Session.HandleError | src/wrapperStreamRead.mjs:98-115 | Moves the fields as `LegacyErrorStep` does. |
| StreamReadLegacy.Session.DeliverError | src/wrapperStreamRead.mjs:105-114 | Calls `onError` only while active, logs without `onError`, then deactivates. |
| StreamReadLegacy.Session.HandleAbortOnSignal | src/wrapperStreamRead.mjs:117-126 | Proves `isActive` and moves the fields as `LegacyAbortStep` does. |
| StreamReadLegacy.Session.FireDeferredErrorUnbind | src/wrapperStreamRead.mjs:45-50 | Moves the fields as `TimerStep` does. |
| StreamDuplex.Open | src/wrapStream.mjs:12-30 | Construction succeeds iff the stream is readable and writable, the signal is not aborted, and `pause` and `resume` are functions. It then starts active with all five listeners bound. |
| StreamDuplex.WithSessionClosed | src/wrapStream.mjs:55-59 | `setClose`, callable only while active (its assertion): the session becomes inactive with no listener bound. |
| StreamDuplex.DrainStep | src/wrapStream.mjs:61-64 | Its `assert(state.isActive)` holds. `resume` is called once and nothing else changes. |
| StreamDuplex.EndStep | src/wrapStream.mjs:66-72 | The session ends with outcome Ended and no listener bound. The only report is `onEnd()` (if supplied). |
| StreamDuplex.CloseStep | src/wrapStream.mjs:74-80 | The session ends with outcome Closed and no listener bound. The only report is `onError(close error)` (if supplied). |
| StreamDuplex.ErrorStep | src/wrapStream.mjs:82-93 | The session fails, the stream is destroyed and no listener stays bound. `onError(error)` is the one report, or the error is logged. |
| StreamDuplex.AbortStep | src/wrapStream.mjs:95-101 | The session ends with outcome Aborted and no report. The stream is destroyed and no listener stays bound. |
| StreamDuplex.WriteStep | src/wrapStream.mjs:105-115 | `write` throws, changing nothing, iff the session is inactive or the stream is ended or not writable. Otherwise the chunk is written and `pause` is called iff the write returned false. `write(null)` first ends the stream, so its `null` is written after the end. |
| StreamDuplex.Step | src/wrapStream.mjs:18-115 | Every event keeps the invariant: while active all five listeners are bound, afterwards none. A terminal event arrives only while active and ends the session. Any other event leaves activity, outcome and reports alone. |
| StreamDuplex.Run | src/wrapStream.mjs:66-101 | For every admissible interleaving: `onEnd`/`onError` are called at most once in total, and the first terminal event decides the outcome for good. |
| StreamDuplex.RunAppend | src/wrapStream.mjs:55-116 | Running two traces one after the other is running their concatenation, and every prefix of an admissible trace is admissible. So the guarantees of `Run` hold from any point of a trace onwards. |
| StreamDuplex.TerminalHandlerAtMostOnce | src/wrapStream.mjs:55-101 | In every admissible interleaving, at most one event reaches a terminal handler, and none after the end. So `setClose`'s assertion never fails. |
| StreamDuplex.Session.constructor | src/wrapStream.mjs:12-30 | The fields start as `Open` describes. |
| StreamDuplex.Session.ClearEvents | src/wrapStream.mjs:32-53 | Unbinds all five listeners. |
| StreamDuplex.Session.SetClose | src/wrapStream.mjs:55-59 | Requires `isActive` and moves the fields as `WithSessionClosed` does. |
| StreamDuplex.Session.HandleDrain | src/wrapStream.mjs:61-64 | Proves `isActive` and moves the fields as `DrainStep` does. |
| StreamDuplex.Session.HandleEnd | src/wrapStream.mjs:66-72 | Discharges `setClose`'s assertion and moves the fields as `EndStep` does. |
| StreamDuplex.Session.HandleClose | src/wrapStream.mjs:74-80 | Discharges `setClose`'s assertion and moves the fields as `CloseStep` does. |
| StreamDuplex.Session.HandleError | src/wrapStream.mjs:82-93 | Discharges `setClose`'s assertion and moves the fields as `ErrorStep` does. |
| StreamDuplex.Session.HandleAbortOnSignal | src/wrapStream.mjs:95-101 | Discharges `setClose`'s assertion and moves the fields as `AbortStep` does. |
| StreamDuplex.Session.Write | src/wrapStream.mjs:105-115 | Returns what `WriteStep` returns and moves the fields as it does. |
| Pathname.JsTrimKeeps | src/getPathname.mjs:13 | `trim` leaves a string alone that neither starts nor ends with ECMAScript white space. |
| Pathname.JsTrimAllSpace | src/getPathname.mjs:13 | `trim` reduces a string of white space to the empty string. |
| Pathname.TrimStart | src/getPathname.mjs:13 | The result is a suffix of the input that starts with no white space, and everything removed was white space. |
| Pathname.TrimEnd | src/getPathname.mjs:13 | The result is a prefix of the input that ends with no white space, and everything removed was white space. |
| Pathname.JsTrim | src/getPathname.mjs:13 | `url.trim()`: `TrimStart` then `TrimEnd`, whose contracts say what each removes. `JsTrimKeeps` and `JsTrimAllSpace` give its value on strings without outer white space and on white space only. |
| Pathname.DropTrailingSlash | src/getPathname.mjs:5 | The module's `trim` removes at most one character, a prefix remains, and it shortens the string exactly when the string ends with `/`. |
| Pathname.Split | src/getPathname.mjs:7 | `split('/')` never returns an empty list, and no piece contains a slash. |
| Pathname.NonEmpty | src/getPathname.mjs:7 | `.filter((s) => s !== '')` keeps only non-empty pieces, each taken from its input. `NonEmptyAppend` and `NonEmptyKeeps` show that it works piece by piece and keeps order. |
| Pathname.JoinSlash | src/getPathname.mjs:7 | Joining names with `/` is undone by `split('/')`, as `SplitOfJoin` and `NameListOfJoin` state. `JoinSlashAppend` shows how it composes. |
| Pathname.SplitAtSlash | src/getPathname.mjs:7 | The pieces of `a/b` are the pieces of `a` followed by those of `b`. |
| Pathname.NameList | src/getPathname.mjs:7 | `generateNameList` returns only non-empty, slash-free names. |
| Pathname.NameListOfJoin | src/getPathname.mjs:7 | Round trip: names joined with `/` give back exactly those names. |
| Pathname.NameListTrailingSlash | src/getPathname.mjs:7 | A trailing slash does not change the name list. |
| Pathname.NameListIgnoresTrailingSlash | src/getPathname.mjs:5 | So the module's `trim` (dropping one trailing `/`) never changes the name list. |
| Pathname.NameListRepeatedSlash | src/getPathname.mjs:7 | `//` gives the same name list as `/`. |
| Pathname.NameListLeadingSlash | src/getPathname.mjs:7 | A leading slash does not change the name list. |
| Pathname.Root | src/getPathname.mjs:33 | `path.parse(cwd).root` is `/` or empty, and it is `/` exactly when the path starts with `/`. |
| Pathname.Resolve | src/getPathname.mjs:19 | Node's POSIX `normalizeString`. `ResolvePlain` states that plain names are appended unchanged, `ResolveAppend` that it composes over concatenated segments, and `ResolveKeepsNames` that it yields names only. |
| Pathname.Normalize | src/getPathname.mjs:19 | `path.normalize` never returns the empty string, and its result is absolute exactly when its input is. |
| Pathname.Join | src/getPathname.mjs:19 | `path.join` never returns the empty string. Its value is given for plain names, `.`, `..` and `n/..` joined onto a normalised absolute base (`JoinPlain`, `JoinDot`, `JoinParent`, `JoinNameThenParent`), and for any name list `generateNameList` produces onto such a base in terms of `Resolve` (`JoinOntoRender`). `JoinAbsolute` gives absoluteness for any absolute base. A base that is not normalised, such as `/h/`, has no value lemma. |
| Pathname.JoinOntoRender | src/getPathname.mjs:19 | `path.join` of any non-empty list of names (non-empty and slash-free, as `generateNameList` produces) onto a normalised absolute base is `/` followed by the names that `normalizeString` keeps when it starts from the base's names without going above the root. |
| Pathname.JoinAbsolute | src/getPathname.mjs:19 | `path.join` onto an absolute base is absolute. |
| Pathname.JoinPlain | src/getPathname.mjs:19 | `path.join` of a normalised absolute base and plain names (no `.` or `..`) appends the names to the base. |
| Pathname.JoinDot | src/getPathname.mjs:31 | Joining `.` onto a normalised absolute path gives the path back. |
| Pathname.JoinParent | src/getPathname.mjs:31 | Joining `..` drops the last name, and the root stays the root. |
| Pathname.JoinNameThenParent | src/getPathname.mjs:31 | Joining a plain name and then `..` gives the base back. |
| Pathname.GetPathname | src/getPathname.mjs:9-12 | The result is null exactly for a non-string and for the empty string. |
| Pathname.AbsoluteResult | src/getPathname.mjs:9-38 | With an absolute home and current directory, every non-null result is an absolute path. |
| Pathname.Locate | src/getPathname.mjs:14-38 | The three branches, chosen by the first character of the trimmed string. `LocateAbsolute`, `LocateTrailingSlash` and the per-branch lemmas below describe its value. |
| Pathname.LocateAbsolute | src/getPathname.mjs:14-38 | With an absolute home and current directory, each of the three branches yields an absolute path. |
| Pathname.GetHome | src/getPathname.mjs:13-20 | A trimmed string that starts with `~` takes the home branch, with everything after the `~`. |
| Pathname.BelowHome | src/getPathname.mjs:14-20 | When no name follows `~`, the result is exactly the home directory, not a joined path. |
| Pathname.BelowCwd | src/getPathname.mjs:21-32 | Its value is given for plain names, `.`, `..` and `n/..` below a normalised absolute current directory (`UnderCwd`, `CurrentDirectory`, `ParentDirectory`, `NameThenParent`), and for `./` followed only by slashes below any current directory (`CurrentDirectoryAsGiven`). In addition, `LocateAbsolute` shows that an absolute current directory gives an absolute result. |
| Pathname.BelowRoot | src/getPathname.mjs:33-38 | Its value is given for `/` followed by plain names with an absolute current directory (`AbsolutePath`), and for `/` alone with any current directory (`RootDirectory`). In addition, `LocateAbsolute` shows that an absolute current directory gives an absolute result. |
| Pathname.WhitespaceOnly | src/getPathname.mjs:13-30 | Input that is white space only falls into the relative branch and gives the current directory as it is. |
| Pathname.HomeDirectory | src/getPathname.mjs:14-18 | `~`, `~/`, `~//` and so on give exactly the home directory. |
| Pathname.CurrentDirectoryAsGiven | src/getPathname.mjs:21-29 | `./` followed only by slashes gives exactly the current directory. |
| Pathname.RootDirectory | src/getPathname.mjs:33-36 | `/`, trimmed, gives exactly the root of the current directory. |
| Pathname.UnderHome | src/getPathname.mjs:14-20 | `~/a/b` with plain names is `a/b` appended to a normalised home directory. |
| Pathname.HomeNames | src/getPathname.mjs:15-20 | Plain names after `~/` land exactly below a normalised home directory, in order. |
| Pathname.UnderCwd | src/getPathname.mjs:21-32 | `a/b` with plain names is `a/b` appended to a normalised current directory. |
| Pathname.AbsolutePath | src/getPathname.mjs:33-38 | `/a/b` with plain names is `/a/b` whenever the current directory is absolute. |
| Pathname.CurrentDirectory | src/getPathname.mjs:21-32 | `.` is the normalised current directory. |
| Pathname.ParentDirectory | src/getPathname.mjs:21-32 | `..` is the parent of the normalised current directory; the root is its own parent. |
| Pathname.NameThenParent | src/getPathname.mjs:21-32 | `n/..` for a plain name `n` is the normalised current directory. |
| Pathname.LocateTrailingSlash | src/getPathname.mjs:14-38 | When the current directory is a normalised absolute path, a trailing slash does not change where a trimmed location points, in each of the three branches. With a current directory such as `/c//` it can: `.` gives `/c` but `./` gives `/c//`. |
| Pathname.TrailingSlash | src/getPathname.mjs:5-38 | `~/a/` is `~/a`, `a/b/` is `a/b`, `/a/` is `/a`, `./` is `.` and `//` is `/`, for any trimmed non-empty input, when the current directory is a normalised absolute path. |

## Left out

- Node's stream machinery is not modelled: byte delivery, `highWaterMark` buffering, and when `drain`, `end`, `close` and `error` fire. Events arrive in any order the bind flags allow. `stream.write`'s boolean result and `onData`'s reply are inputs.
- A `data` event may arrive even while the stream is paused, which Node would not do. Every property is proved for this larger set of event orders.
- The 100 ms `setTimeout` is an explicit timer step with no duration.
- `console.error` is a ghost log of the printed errors. The text of the close error is the `CloseError` marker.
- Adding and removing listeners (`once`, `on`, `off`, `addEventListener`, `removeEventListener`) is modelled through the bind flags only.
- Behaviour some tests expect but the source lacks is not modelled: `onEnd(size)` with a byte count, a zero-byte shortcut, a completion callback passed to `write`, a try/catch around `onData`, and an `onAbort` hook.
- Exceptions thrown by the caller's callbacks are not modelled.
- StreamRead.DataStep, StreamReadLegacy.LegacyDataStep, StreamRead.Session.HandleData, StreamReadLegacy.Session.HandleData, and the other Handle* methods of StreamWrite.Session, StreamRead.Session, StreamReadLegacy.Session and StreamDuplex.Session: each handler runs as one atomic step, so a callback that synchronously emits a stream event, calls `abort()` or `write`, or pauses the stream itself is not modelled. An `onData` that calls `stream.pause()` and then returns `false` gets no `onPause` from the source, because `stream.isPaused()` is then true, but the model calls `onPause`. For example, an `onData` that aborts the signal runs `handleAbortOnSignal` inside `handleData`. The source then still pauses the destroyed stream, and `onPause` fires after the session has ended. Likewise, a duplex `onEnd` or `onError` that calls `write` runs after `setClose` and throws inside the handler on the `isActive` assertion.
- StreamWrite.Session.constructor, StreamRead.Session.constructor, StreamReadLegacy.Session.constructor, StreamDuplex.Session.constructor: these require the construction assertions to hold. The throwing path is modelled only by `Open` returning None.
- StreamDuplex.WriteStep: Node's own checks inside `stream.write` are not modelled. For `write(null)`, Node's `Writable.write` throws `ERR_STREAM_NULL_VALUE`, so the caller gets an exception after the stream has already been ended. The model instead returns `ReturnedUndefined` and records the call as a write after the end. A non-null write after `end()` would also be refused by Node; the adapter's own assertion rules that case out.
- `src/readFileList.mjs` is not part of this model: it is synchronous file-system I/O.
- `src/toDataify.mjs` is not part of this model: it dispatches on JavaScript runtime types and calls `JSON.stringify` and SHA-256.
- `sha256` in `src/index.mjs` is not part of this model: it wraps `crypto`.
- Pathname.GetPathname: a non-string argument is `None`, without JavaScript's type dispatch. `os.homedir()` and `process.cwd()` are parameters.
- `path.join` is modelled on POSIX only, as segment resolution after Node's `normalizeString`. Node's character-by-character scan and Windows paths are not modelled.
- Strings are sequences of characters. UTF-16 surrogate pairs and the exact code-unit behaviour of `trim` on them are not modelled.
