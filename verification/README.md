# Verification of the hot-reload server

A Dafny model of the concurrent and stateful parts of go-hp-server, with proofs of what they
promise. `dafny verify dfyconfig.toml` checks everything.

## What is modelled

**The hot-reload engine** (`internal/reload`) is a labelled transition system
(`ReloadProtocol.dfy`). Any number of callers of `Trigger` and `Stop`, the one `Start` that gets
past its flag check, the context watcher, the signal and file trigger goroutines and the worker
are cut at the points where another goroutine can get in between: the set insert and the channel
send of `enqueue` are two steps, `signalStop` is three, one round of `debounceWait` is up to four.
`select` picks any ready branch, so the worker may take a token although `stopCh` is closed. Time,
edits of the file, the cancel of the context and the timer firing are actions of the surroundings.
The proofs are about every run, and what happened in a run is read off its steps, not off extra
fields of the state.

| part | steps of the model | source |
|---|---|---|
| Register, Start | `StartStep` | internal/reload/reload.go:235-305 |
| Stop, signalStop, context watcher | `StopStep` | internal/reload/reload.go:280-336 |
| Trigger, enqueue, trigger goroutines | `EnqueueStep` | internal/reload/reload.go:343-367, internal/reload/trigger_file.go:30-57 |
| worker, debounceWait | `WaitStep` | internal/reload/reload.go:371-410 |
| doReload | `ReloadStep` | internal/reload/reload.go:414-479 |

`ReloadLifecycle` has the invariant and the lifecycle results, `ReloadStart` Start and the trigger
goroutines, `ReloadWakeup` the delivery of sources and changes from the request on, `ReloadRecord` the recorded configuration, `ReloadDebounce` the quiet window,
`ReloadRest` and `ReloadStop` progress, completion and finality. The sequential code (registration,
snapshot, comparison, dispatch) is the class in `Reloader.dfy`; it and the protocol share
`SortedList` for the snapshot and `Registered` for the subscriber list, and `ReloadLive` proves
that the protocol's load, apply and finish steps refine the object's `DoReload`.

**Readiness** (`internal/health`) is a transition system for one checker's singleflight
(`Readiness.dfy`) plus the loop over all checkers and the verdict (`ReadinessHandler.dfy`);
`ReadinessStay.dfy` proves that the loop's account of a stay in runOne is what the runs do.
**The server** (`internal/server`) is the start-once object (`Server.dfy`) plus a timed transition
system for `Run` and `gracefulShutdown` (`Shutdown.dfy`). **Configuration** (`Config.dfy`) has
`Validate` against a table of rules; `Subscribers.dfy` and `LiveState.dfy` tie validated
configurations to the live values, from main's boot on. `Text.dfy` has the string functions,
`Traces.dfy` the notion of a run, `Wrappers.dfy` the optional value.

## Where code and documentation disagree

- `Trigger` gives `ErrNotStarted` again after a `Start` whose file trigger failed, although
  `reload.go:341` names "before Start" as its only case (`ReloadLifecycle.TriggerAfterFailedStart`;
  the exact answer is `TriggerAnswersFromHistory`).
- "Nothing after Stop" fails if `Stop` returns between the flags and the launch of the `Start` it
  overlaps (`ReloadStop.StopDuringStart`; the exact condition, for every way `Stop` can return, is
  `LateReloadExactly`).
- Once `Run` has taken the cancel branch, an earlier Serve error is not reported
  (`Shutdown.ServeErrorCanBeSwallowed`; the exact condition is `WhenServeErrorsAreReported`).
- `ErrShutdownTimeout` does not imply a forced `Close`: Shutdown may report the end of its context
  at the same instant (`Shutdown.TimeoutWithoutForceClose`). It does unless Shutdown reports the
  deadline (`ForceCloseExactly`), and `UnforcedTimeoutExactly` says where that can still happen.
- `reload.debounce_ms` above 9223372036854 passes `Validate` and wraps
  (`ReloaderObject.DebounceWraps`; the exact condition is `DebounceWindow`).

## Model

| member | source | states |
|---|---|---|
| ReloadLifecycle.WaitGroupCountsLiveGoroutines | internal/reload/reload.go:274-286 | in every run the wait group equals the number of goroutines that are still there, so it never goes negative |
| ReloadLifecycle.FlagsTellTheHistory | internal/reload/reload.go:259-336 | started, stopped and stopCh at any point are what the Start, signalStop and failure steps taken so far say |
| ReloadLifecycle.TriggerAnswersFromHistory | internal/reload/reload.go:343-355 | which of nil, ErrNotStarted, ErrStopped Trigger answers, as an if-and-only-if over what Start and signalStop have done before |
| ReloadLifecycle.TriggerAfterFailedStart | internal/reload/reload.go:293-301 | a reachable stopped Reloader whose Trigger answers ErrNotStarted |
| ReloadLifecycle.AtMostOnce | internal/reload/reload.go:264-336 | one Start passes, one worker is launched and stopCh is closed at most once, in any interleaving |
| ReloadStart.SourcesAreWatched | internal/reload/reload.go:289-305 | after Start there is one trigger goroutine for each configured source, living until the stop (a file one also until its watcher breaks down), ready for events |
| ReloadStart.StartGoesOn | internal/reload/reload.go:274-305 | Start is never stuck between its steps, except waiting for its goroutines when it fails |
| ReloadStart.StartFailsExactly | internal/reload/reload.go:293-301 | Start takes its failure path iff a file trigger could not be set up |
| ReloadLifecycle.StoppedIsMonotone | internal/reload/reload.go:329-336 | a stop is never taken back, and stopCh is closed only with stopped set |
| ReloadLifecycle.SubscribersFrozen | internal/reload/reload.go:235-254 | from the moment a Start passes the list of subscribers (distinct, non-empty names) is never written |
| ReloadLifecycle.CallersNeverWait | internal/reload/reload.go:343-367 | the public calls are possible at any time, and an accepted Trigger goes through without waiting, whatever the channel holds |
| ReloadLifecycle.SelectsAreFree | internal/reload/reload.go:371-410 | worker, debounceWait, context watcher and trigger goroutines take any ready branch, stop among them, and no other |
| ReloadWakeup.WakeupsConserved | internal/reload/reload.go:359-410 | over every run: enqueues = sends in flight + coalesced sends + token + absorbed tokens + cycles under way, reloaded or aborted |
| ReloadWakeup.ReloadsBounded | internal/reload/reload.go:359-410 | between any two points of a run reloads are at most the new enqueues plus the wakeups pending at the first |
| ReloadWakeup.ReloadsNeverExceedEnqueues | internal/reload/reload.go:359-384 | a run has no more reloads than enqueues |
| ReloadWakeup.NoLostWakeup | internal/reload/reload.go:359-384 | worker parked, channel empty, nobody between insert and send: then the source set is empty |
| ReloadWakeup.SnapshotReportsExactly | internal/reload/reload.go:469-479 | each reload reports the strictly sorted list of exactly the sources inserted since the previous snapshot |
| ReloadWakeup.NoSourceLost | internal/reload/reload.go:359-367 | everything ever inserted is reported or still in the set, however many sends were dropped |
| ReloadWakeup.RequestsConserved | internal/reload/reload.go:343-362 | accepted Trigger calls and events are those still before their insert plus the inserts made, whatever the channel holds |
| ReloadWakeup.AcceptedCallInserts | internal/reload/reload.go:343-362 | an accepted Trigger call is about to insert its own source or has inserted it |
| ReloadWakeup.EventInserts | internal/reload/trigger_file.go:30-57 | so does a trigger goroutine that saw an event |
| ReloadWakeup.EveryTriggerIsServed | internal/reload/reload.go:343-418 | between an accepted call or an event and any later resting point lie its insert, a snapshot reporting its source and then a load of a file version no older than at the request |
| ReloadRecord.RecordIsLastDispatch | internal/reload/reload.go:414-450 | the recorded version is the one read by the load of the last dispatch that a subscriber took, or the boot version; failed loads and refused dispatches leave it |
| ReloadRecord.RecordNeverGoesBack | internal/reload/reload.go:447-450 | the recorded configuration is a version the file held and never an older one than before |
| ReloadRecord.TriggeredEditIsRecorded | internal/reload/reload.go:343-450 | with a subscriber and no failing load or apply, at rest the record is at least as new as the file at the accepted request |
| ReloadRecord.AnEditGoesThrough | internal/reload/reload.go:343-466 | for every window there is a run that registers, starts, edits, triggers, debounces, reloads and rests, with the edit recorded |
| ReloadLive.ProtocolRefinesObject | internal/reload/reload.go:414-466 | over every run, outside a dispatch, live values and record are what DoReload gives for the loads met so far; within one, those of the subscribers served; the record is always the file of the protocol's recorded version |
| ReloadLive.TriggeredEditIsLive | internal/reload/reload.go:343-450 | at rest after an accepted request, with no failed load since, live values and record come from one file no older than at the request, whatever foreign subscribers answer |
| ReloadDebounce.TimerHolds | internal/reload/reload.go:392-408 | an armed timer has an empty tick channel and the drain always finds the tick it is meant for |
| ReloadDebounce.ArmedForOneWindow | internal/reload/reload.go:392-405 | an armed timer's deadline is one window after its last creation or reset, and it can fire exactly from then on |
| ReloadDebounce.DebounceWaitsOutTheWindow | internal/reload/reload.go:388-410 | debounceWait ends on a tick only when a full window has passed since the last token it consumed |
| ReloadDebounce.ReloadsStartOnTime | internal/reload/reload.go:371-410 | where computing takes no time, a reload starts exactly one window after the last token, at once without a positive window |
| ReloadDebounce.NoWindowNoTimer | internal/reload/reload.go:389-391 | without a positive window no timer is ever made |
| ReloadDebounce.ReloadsAreSpaced | internal/reload/reload.go:371-410 | with a positive window any two reloads of a run start at least the window apart |
| ReloadRest.EveryScheduleSettles | internal/reload/reload.go:343-410 | under every schedule, with anything else in between, the inserts, sends and worker steps of a started run are bounded by a weight and its requests, and where none is left (and only there) the protocol rests |
| ReloadRest.RestIsReachable | internal/reload/reload.go:371-410 | from every point at which the worker lives, pending inserts and sends, the worker's steps and time alone lead to a resting point |
| ReloadStop.EveryGoroutineCanLeave | internal/reload/trigger_file.go:30-57 | with stopCh closed every live goroutine has a step towards its exit, the watcher without waiting on itself |
| ReloadStop.SignalIsGiven | internal/reload/reload.go:280-336 | once the context of a launched watcher is canceled, a Stop found the Reloader started or a Start failed, a point where nobody has a step left on the way through signalStop has stopCh closed, the flag set and the watcher gone |
| ReloadStop.StopCompletes | internal/reload/reload.go:280-336 | exit-bound steps are bounded by a rank and the detours taken, with anything else in between; once a stop was asked for, where none is left stopCh is closed, every goroutine has exited and every Stop returned |
| ReloadStop.StopsConserved | internal/reload/reload.go:312-324 | every Stop that found the Reloader started is before the Once, in it, waiting, or has returned |
| ReloadStop.NothingAfterStop | internal/reload/reload.go:307-324 | after a Stop that returns with the worker launched no step of any reload follows |
| ReloadStop.LateReloadExactly | internal/reload/reload.go:312-324 | a reload can follow a Stop that waited if and only if Start had not launched its worker and something can still wake it; one that found nothing started, if and only if no Start came before |
| ReloadStop.StopDuringStart | internal/reload/reload.go:268-275 | such a run exists from every fresh Reloader |
| ReloaderObject.Reloader.New | internal/reload/reload.go:177-231 | succeeds iff the path exists, every source is known and the boot file is acceptable; baseline and record are the normalised boot configuration |
| ReloaderObject.Reloader.Register | internal/reload/reload.go:235-254 | appends or refuses without change; the names move as in the protocol |
| ReloaderObject.Reloader.SnapshotSources | internal/reload/reload.go:469-479 | returns the sorted list of the set, whatever order the set is met in, and empties it |
| ReloaderObject.EqualSources | internal/reload/reload.go:549-563 | true iff the lists are equal as multisets |
| ReloaderObject.EqualSourcesAsSets | internal/reload/reload.go:545-548 | on validated lists that is equality as sets |
| ReloaderObject.Reloader.ChangedFields | internal/reload/reload.go:483-524 | computes the list of changed restart-required fields |
| ReloaderObject.WarningIsExact | internal/reload/reload.go:483-524 | that list holds exactly the fields that differ; it is empty iff all ten agree, sources up to order |
| ReloaderObject.SilentChanges | internal/reload/reload.go:483-524 | there is no warning iff nothing changed but log level, the two live timeouts, pool, limiter, breaker and metrics settings, and the order of sources |
| ReloaderObject.Reloader.Dispatch | internal/reload/reload.go:431-444 | every subscriber is offered the same configuration once, in order; names split by answer, a foreign one answering anew each time; live values settle subscriber by subscriber |
| ReloaderObject.Reloader.DoReload | internal/reload/reload.go:414-466 | drains the set always; load or validation failure changes nothing else; otherwise dispatch, and the record changes iff someone succeeded |
| ReloaderObject.AnswersPartition | internal/reload/reload.go:432-444 | succeeded and failed together are the registered names, each as often as registered |
| ReloaderObject.AnsweringMembers | internal/reload/reload.go:432-444 | a name is on a list iff a subscriber of that name answered so |
| ReloaderObject.KnownSources | internal/reload/reload.go:184-188 | the accepted sources are exactly those Start has a trigger for |
| ReloaderObject.Int64Wraps | internal/reload/reload.go:224 | the product wraps at 64 bits |
| ReloaderObject.DebounceWindow | internal/reload/reload.go:224 | the window is debounce_ms milliseconds iff debounce_ms is at most 9223372036854 |
| ReloaderObject.DebounceWraps | internal/reload/reload.go:224 | a configuration that Validate accepts, with one millisecond more, gives a negative window |
| Subscribers.ParseLevelInverse | internal/logger/logger.go:75-87 | parsing is the inverse of naming the four levels, and accepts nothing else |
| Subscribers.GlobalLevel.Apply | internal/logger/level_subscriber.go:39-49 | sets the global level to the one whose word is configured iff it is one of the four, else changes nothing |
| Subscribers.RequestTimeoutConfig.New | internal/middleware/timeout.go:25-32 | a timeout is accepted iff positive |
| Subscribers.RequestTimeoutConfig.Apply | internal/middleware/timeout.go:42-52 | stores a positive request timeout, else keeps the old one |
| Subscribers.ApplyShutdownTimeout | internal/server/server_subscriber.go:35-40 | stores a positive shutdown timeout in the server, else keeps the old one |
| Subscribers.ValidatedIsAccepted | internal/config/config.go:154-227 | whatever Validate accepts and stores is accepted by all three subscribers |
| LiveState.LiveFollowsFile | internal/reload/reload.go:414-450 | after any series of reloads live values and record are those of the last valid content, or untouched without one |
| LiveState.AgreementExactly | internal/reload/reload.go:414-450 | after any reloads live values equal the record iff some dispatch completed or they did before |
| LiveState.Boot | cmd/server/main.go:66-175 | main up to Start succeeds iff both reads are acceptable and path and sources known; then main's three subscribers are registered, live values are the first read's, the record is the second |
| LiveState.Lifetime | cmd/server/main.go:66-175 | from boot through any reloads: timeouts positive, live values equal the record iff some dispatch completed or the two boot reads agreed |
| LiveState.TimeoutsStayPositive | internal/middleware/timeout.go:42-52 | once positive both timeouts stay so, for any subscribers and files, after any reloads and after every single Apply of a further dispatch |
| LiveState.ReloadEach | internal/reload/reload.go:414-450 | the Reloader object keeps step with that account over any series of files |
| Configuration.ValidateReload | internal/config/config.go:233-248 | the map loop accepts exactly the lists without blank or repeated elements and else reports the first offender |
| Configuration.Config.Validate | internal/config/config.go:154-227 | succeeds iff every rule holds, else names the first broken one; writes only normalised log fields, and those only on success or when metrics.path is wrong |
| Configuration.LogWordsInAnySpelling | internal/config/config.go:213-222 | log level and format pass iff they spell one of the words, in any case and with any white space around it, and are stored as that word |
| Configuration.NormalisingKeepsVerdict | internal/config/config.go:213-226 | a second Validate gives the same answer and stores the same thing |
| ServerState.Server.Handle | internal/server/server.go:97-125 | registers in mux and pattern set together or not at all; each refusal exactly when |
| ServerState.Server.BeginRun | internal/server/server.go:152-172 | a second Run is refused, a failed listen leaves the server startable |
| ServerState.Server.UpdateShutdownTimeout | internal/server/server.go:277-283 | stores only positive deadlines |
| ServerState.AnyClient | internal/server/server.go:97-172 | over any sequence of calls: started iff a Run found a listener, exactly one Run served, patterns = what the mux took before it, the address its listener's, the deadline the last positive one set |
| ServerState.FrozenAfterRun | internal/server/server.go:101-103 | after a served Run no call adds a pattern |
| Shutdown.SendersNeverBlock | internal/server/server.go:185-193 | each result channel gets at most one send and finds room for it |
| Shutdown.OneDeadline | internal/server/server.go:219-262 | whatever Shutdown, Close and Serve do, gracefulShutdown returns within the one timeout last set before its entry |
| Shutdown.FullTimeIsGiven | internal/server/server.go:219-253 | neither stage gives up before that whole timeout has passed |
| Shutdown.TimeOrMain | internal/server/server.go:231-253 | until Run returns it has a step of its own or time can pass |
| Shutdown.SelectsAreFree | internal/server/server.go:196-253 | each of Run's three selects takes any ready branch and no other |
| Shutdown.ResultFromHistory | internal/server/server.go:196-261 | Run's result, decided by what Serve and Shutdown returned and by whether stage 1 ended on its timer |
| Shutdown.WhenServeErrorsAreReported | internal/server/server.go:196-204 | without the cancel branch ErrServeFailed iff Serve failed; with it iff Shutdown came back in time and failed for another reason than its deadline |
| Shutdown.ServeErrorCanBeSwallowed | internal/server/server.go:196-204 | a run in which Serve failed and Run returns nil |
| Shutdown.ForceCloseExactly | internal/server/server.go:231-261 | a forced Close means ErrShutdownTimeout; the converse holds unless Shutdown itself reports the deadline |
| Shutdown.UnforcedTimeoutExactly | internal/server/server.go:231-261 | from a point of stage 1 a timeout without Close is reachable iff Shutdown has not come back or its unread report is the deadline |
| Shutdown.TimeoutWithoutForceClose | internal/server/server.go:231-261 | for every positive timeout, a run that returns ErrShutdownTimeout at the deadline without Close, Shutdown reporting no earlier than then |
| Readiness.Singleflight | internal/health/health.go:306-331 | inflight names the one execution not yet cleared, at most one checker call runs, a clear erases only its own entry |
| Readiness.ResultIsWriteOnce | internal/health/health.go:322-324 | after done is closed a result never changes |
| Readiness.Agreement | internal/health/health.go:335-346 | all answers through one execution are its stored result; every other answer has code timeout |
| Readiness.AnswerComesFromChecker | internal/health/health.go:350-378 | an answer through an execution is a pass iff its checker returned nil, code panic iff it panicked, timeout iff it returned a context error, failed iff any other error |
| Readiness.FiveSteps | internal/health/health.go:311-331 | every execution is launched, returns, stores, closes and clears once each |
| Readiness.ExecutionGoesOn | internal/health/health.go:311-331 | the next of these is always enabled, so a checker that returns frees the slot |
| Readiness.ACheckerHangs | internal/health/health.go:335-346 | for every timeout, a run in which a hanging checker's request is answered at its deadline |
| Readiness.ACallIsShared | internal/health/health.go:306-331 | a run in which one checker call answers two requests |
| Readiness.StalenessBound | internal/health/health.go:311-330 | an answer through done comes from the newest execution at the time of the lock, not yet cleared then |
| Readiness.StuckCheckerTimesOut | internal/health/health.go:311-346 | while a checker does not come back no other is started and later requests are answered with timeout |
| Readiness.AnswerInTime | internal/health/health.go:306-346 | each request is answered by the earlier of its parent's deadline and its own check timeout |
| Readiness.ReadyCanStep | internal/health/health.go:335-346 | a request that need not wait has a step of its own |
| Readiness.SelectIsFree | internal/health/health.go:335-346 | a waiting request can be answered through done exactly once that is closed, and by its context exactly once that has ended |
| ReadinessHandler.ReadinessConfig.WithChecker | internal/health/health.go:104-119 | appends a checker iff its name is new and non-empty and its function not nil |
| ReadinessStay.StayIsRunOne | internal/health/health.go:306-346 | in every run, result and return time of a request are what RunOne says of the execution it joined, under the end of its own context |
| ReadinessStay.VisitReports | internal/health/health.go:335-378 | what a request got is the outcome of the checker call it waited for, or a timeout |
| ReadinessStay.RequestIsTheLoop | internal/health/health.go:270-292 | for every request made of such stays the loop keeps the same time: all checkers pass in turn iff none was left out and each stay was answered by a call that returned nil; it ends within the context and n check timeouts |
| ReadinessHandler.TimeBound | internal/health/health.go:270-292 | n stays end within n check timeouts and within the total |
| ReadinessHandler.RunAllCheckers | internal/health/health.go:270-292 | registered names in order, error nil iff passed and else the result's code, and after the total runs out an unlaunched timeout suffix |
| ReadinessHandler.Verdict | internal/health/health.go:230-242 | 200 iff all are OK, else 503 |
| ReadinessHandler.Ready | internal/health/health.go:213-252 | 200 iff every checker passed in its turn; the answer comes within both bounds |

## Left out

- Loading: Viper, YAML, the environment, `os.Stat`, fsnotify and OS signals. A load reads the current file version (or a given content) or fails; events are enqueues that may happen at any time.
- net/http, listeners and `ServeMux` matching. Shutdown, Serve and Close do what they like; the mux accepts a pattern or panics.
- Logging and its durations as floats. The lists that are logged are results here.
- JSON encoding, headers, 405 answers, the liveness handler, `Chain`, `responseWriter`, access log, request ids: one-branch code.
- Option functions, nil arguments and option/default precedence, except where a row names them.
- Worker pool, rate limiter, circuit breaker: the repository has only their configuration.
- Launch (`wg.Add` and `go`) and exit (`return` and `wg.Done`) are one step each; in between nothing but a wait could be affected.
- `sync.Once`, mutexes and channels are taken at their specification; the clock is a discrete count of nanoseconds.
- Subscribers that call `Stop` from `Apply`, and checkers that call `runtime.Goexit`.
- Readiness.AnswerInTime and Shutdown.OneDeadline: time passes only while the requests (or Run) have nothing to do, so scheduling delay is not counted.
- ReadinessHandler.RunAllCheckers: a stay in runOne is given by when its execution closes done; that this is what runs do is ReadinessStay.RequestIsTheLoop.
- LiveState.Boot: the handlers main registers on the server, its flags and its loggers are not in it.
- Text.LowerChar: exact where the lower case is ASCII, which is all that a comparison with the log words can see.
- Integers are unbounded, except the one product that can wrap (`DebounceNanos`).
- On Windows no signal trigger goroutine is started; the model has the Unix one.
