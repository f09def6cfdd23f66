# RevitMonitoring telemetry core in Dafny

This project models the telemetry layer of the RevitMonitoring add-in for
Autodesk Revit and proves properties of that model. The layer listens to
Revit's lifecycle events and turns them into structured Serilog records.

The model covers:

- **Operation timers** (`operation_timer.dfy`, module `OperationTimers`). This
  is `Monitoring.Revit/Logging/Timer.cs` and its textually identical twin
  `EventTimer.cs`. A stopwatch carries an operation name and an ordered
  key/value context. Stop adds "Time Elapsed (seconds)", logs one record, then
  resets the stopwatch and clears the context.
- **The older timer** (`legacy_timer.dfy`, module `LegacyTimer`). This is
  `Monitoring.Revit/Timer.cs`. It shares the caller's dictionary by
  reference, writes "Opening Time" on Stop and never resets.
- **The presence tracker** (`presence.dfy`, module `Presence`). This is
  `IdleTimer.cs`. Each poll tick measures idleness from the OS last-input
  stamp and compares window titles. It closes a "Document Work" session when
  the user leaves.
- **The event handlers** of `Events.cs`:
  - `events.dfy`, module `Events`: the single-shot handlers;
  - `correlator.dfy`, module `EventCorrelator`: the begin/end pairs that pass
    a timer through the dependency-injection container, and the per-view
    DocPrinted loop.
- **Subscription bookkeeping** (`app.dfy`, module `App`). This is `App.cs`.
  Each host event is a .NET multicast invocation list: `+=` appends, and
  `-=` removes the last occurrence.
- **The installer's WPF value converters** (`converters.dfy`, module
  `Converters`).
- **Shared vocabulary** (`common.dfy`, module `Telemetry`): boxed values, the
  insertion-ordered `Dictionary<string, object>` context, log records, and
  the .NET exceptions the code can raise. An exception is modelled as a
  `fault` result, and the state is the one left at the point of the throw.

### How the model is written

The source mutates objects, so each stateful class is a Dafny `class`:

- `OperationTimers.Timer`, `LegacyTimer.Timer` and `LegacyTimer.Dictionary`;
- `Presence.IdleTimer`;
- `EventCorrelator.Correlator`;
- `App.Host`.

Each method is proved against a value-level specification function. Timers
use `Created`, `ArgAdded`, `Started` and `Stopped`. The presence tracker uses
`TickStep` and the other `…Step` functions. The correlator uses `OpenedStep`
and the others. Log output is a ghost `log` sequence that each method extends
by exactly the records the specification function emits.

Inputs stand in for the outside world:

- the clock is a `now` parameter, in DateTime ticks;
- the OS probes are fields of a `Sample`;
- the passage of time for a stopwatch is an explicit `Elapse(ms)`;
- whether `Log.Logger` is set is the flag `loggerSet`.

Serilog's `Log.Logger` starts as a silent logger, and its setter rejects
null. So every `if (Log.Logger == null) return;` guard in Events.cs never
fires in the running program. The handlers keep the flag as a parameter for
fidelity to the code, but their `loggerSet == false` branches cannot happen.

### Behaviour worth knowing

- **Exceptions**: the handlers do not catch. Unity's `Resolve<ITimer>(name)`
  throws ResolutionFailedException for a name that was never registered, so:
  - an opened event with no earlier Project opening throws, and the
    `timer == null` check after Resolve never fires;
  - DocSaved and DocSynchronized throw the same way;
  - DocSynchronized has no container check, so a null container throws
    ArgumentNullException from Unity's Resolve extension.
- **The container is never assigned**: none of the modelled files sets
  `App.UnityContainer` (App.cs:15); OnStartup receives a container but does
  not store it. As the code stands, DocOpening, DocOpened, DocSaving, DocSaved
  and DocSynchronizing return at their container check, and DocSynchronized
  throws ArgumentNullException on every synchronisation. The behaviour of the
  begin/end pairs described here, the stale-timer case included, holds once
  something sets the container.
- **Stale opening timer**: a Project opening whose opened event arrives
  invalid leaves its timer running. The opened event of the next document,
  even one that is not a Project, completes that timer and logs the
  project's path beside its own
  (`EventCorrelator.StaleTimerCompletedByOtherDocument`).
- **Regaining focus**: after the user leaves, the next tick that sees Revit
  in front does not start a new session. It only marks the user active, so
  the next record reports the old start time (`Presence.RegainKeepsSessionStart`).

## Model

| member | source | states |
|---|---|---|
| `Telemetry.Add` | Monitoring.Revit/Logging/Timer.cs:19-25 | Dictionary.Add fails with DuplicateKey exactly when the key is present; otherwise it appends the entry at the end and keeps keys distinct |
| `Telemetry.AddThenLookup` | Monitoring.Revit/Logging/Timer.cs:24 | after a successful Add the new key reads back its value and every other key reads as before |
| `Telemetry.AddTwiceFails` | Monitoring.Revit/Timer.cs:43 | adding the same key a second time always throws DuplicateKey |
| `OperationTimers.Created` | Monitoring.Revit/Logging/Timer.cs:12-17 | a new timer has the given name, an empty context and a stopped stopwatch at zero |
| `OperationTimers.CreatedWith` | Monitoring.Revit/Logging/Events.cs:106 | the handlers' `new Timer(name, args)`, read as a new timer whose context starts as `args`, with an idle stopwatch |
| `OperationTimers.ArgAdded` | Monitoring.Revit/Logging/Timer.cs:19-25 | AddArgs succeeds exactly when the key is new, appending the entry and leaving name and stopwatch alone; otherwise DuplicateKey |
| `OperationTimers.Started` | Monitoring.Revit/Logging/Timer.cs:27-31 | Start (Reset then Start) leaves the stopwatch running from zero and the context untouched |
| `OperationTimers.Advanced` | Monitoring.Revit/Logging/Timer.cs:18 | elapsed time accrues only while the stopwatch runs |
| `OperationTimers.Stopped` | Monitoring.Revit/Logging/Timer.cs:33-41 | Stop logs one record with the context plus the elapsed whole seconds and returns the timer to new; if the elapsed key is already present it throws after halting the stopwatch and logs nothing |
| `OperationTimers.ArgsAddedAppends` | Monitoring.Revit/Logging/Timer.cs:19-25 | adding entries with fresh, pairwise distinct keys never fails and appends them in order |
| `OperationTimers.MeasuredSession` | Monitoring.Revit/Logging/Timer.cs:27-46 | start, add entries, let ms pass, stop: exactly one record holding the entries in insertion order and then ms/1000 seconds, and the timer is new again |
| `OperationTimers.StopWithoutStart` | Monitoring.Revit/Logging/EventTimer.cs:34-42 | Stop has no running check: on a never-started timer it still logs, with zero seconds |
| `OperationTimers.StopTwice` | Monitoring.Revit/Logging/EventTimer.cs:34-42 | two Stops log two records, the second holding only a zero elapsed entry |
| `OperationTimers.StopAfterElapsedKeyFails` | Monitoring.Revit/Logging/Timer.cs:36 | a caller that added the elapsed key itself makes Stop throw DuplicateKey and log nothing |
| `OperationTimers.Timer.constructor` | Monitoring.Revit/Logging/Timer.cs:12-17 | the object's state is `Created(name)` and nothing is logged |
| `OperationTimers.Timer.AddArgs` | Monitoring.Revit/Logging/Timer.cs:19-25 | the new state and fault are those of `ArgAdded`; nothing is logged |
| `OperationTimers.Timer.Start` | Monitoring.Revit/Logging/Timer.cs:27-31 | the new state is `Started(old state)` |
| `OperationTimers.Timer.Elapse` | Monitoring.Revit/Logging/Timer.cs:18 | the new state is `Advanced(old state, ms)` |
| `OperationTimers.Timer.Stop` | Monitoring.Revit/Logging/Timer.cs:33-41 | the new state, the records appended to the log and the fault are exactly those of `Stopped(old state)` |
| `OperationTimers.Timer.LogTime` | Monitoring.Revit/Logging/Timer.cs:43-46 | appends one record with the operation name and the current context |
| `LegacyTimer.Dictionary.Add` | Monitoring.Revit/Timer.cs:31 | the shared dictionary changes exactly as `Telemetry.Add` says, or not at all on DuplicateKey |
| `LegacyTimer.Timer.constructor` | Monitoring.Revit/Timer.cs:20-24 | keeps the caller's dictionary reference itself (possibly null) and an idle stopwatch |
| `LegacyTimer.Timer.AddArgs` | Monitoring.Revit/Timer.cs:26-32 | a null context is replaced by a fresh dictionary holding just the entry; otherwise the shared dictionary is added to |
| `LegacyTimer.Timer.Start` | Monitoring.Revit/Timer.cs:34-38 | the stopwatch runs from zero |
| `LegacyTimer.Timer.Elapse` | Monitoring.Revit/Timer.cs:25 | elapsed time accrues only while the stopwatch runs |
| `LegacyTimer.Timer.Stop` | Monitoring.Revit/Timer.cs:40-45 | halts without reset; a null context throws NullReference; otherwise adds "Opening Time" to the caller's dictionary and logs it, or throws DuplicateKey and logs nothing |
| `LegacyTimer.Timer.LogTime` | Monitoring.Revit/Timer.cs:47-50 | appends one "Revit Timer" record with the dictionary's contents (null when there is none) |
| `LegacyTimer.StopTwiceFails` | Monitoring.Revit/Timer.cs:40-45 | a second Stop on the same timer throws DuplicateKey; the caller's own dictionary ends with exactly one "Opening Time" entry |
| `Presence.Initial` | Monitoring.Revit/Logging/IdleTimer.cs:27-41 | a new tracker is inactive and not polling, with idleness measured from construction time |
| `Presence.ResetStep` | Monitoring.Revit/Logging/IdleTimer.cs:48-52 | Reset restarts the session now on the active document, possibly null |
| `Presence.LogActivityStep` | Monitoring.Revit/Logging/IdleTimer.cs:110-121 | logs one record (document, start, end, work time of the closing session), then Reset |
| `Presence.LeaveStep` | Monitoring.Revit/Logging/IdleTimer.cs:89-103 | a departure logs exactly when the user was active, and always leaves them inactive |
| `Presence.TickStep` | Monitoring.Revit/Logging/IdleTimer.cs:70-108 | the idle measurement grows from the idle start while the input stamp is unchanged and restarts otherwise; past 60 s or with another window in front the user leaves; else they are active and nothing is logged; a record is logged only for an active user and carries the old session's start |
| `Presence.StartStep` | Monitoring.Revit/Logging/IdleTimer.cs:54-62 | enables polling and restarts the session clock; reads the document only when none is known and throws NullReference without one; a disposed poll timer throws ObjectDisposed first |
| `Presence.StopStep` | Monitoring.Revit/Logging/IdleTimer.cs:64-68 | disables polling and always closes the session with one record |
| `Presence.ChangeDocumentStep` | Monitoring.Revit/Logging/IdleTimer.cs:43-46 | always closes the session with one record; the next session starts now on the new document |
| `Presence.DisposeStep` | Monitoring.Revit/Logging/IdleTimer.cs:134-142 | logs once exactly when the session was active, then stops and disposes the poll timer |
| `Presence.IdleRunLogsAtMostOnce` | Monitoring.Revit/Logging/IdleTimer.cs:89-94 | however many ticks stay past the timeout, at most one record is logged, one exactly when the user was active, and the user ends inactive |
| `Presence.RegainKeepsSessionStart` | Monitoring.Revit/Logging/IdleTimer.cs:99-107 | regaining focus does not restart the session, so the next closure reports the earlier start time and document |
| `Presence.FocusLossLogsOnSameTick` | Monitoring.Revit/Logging/IdleTimer.cs:96-103 | an active user's session is closed on the very tick another window is in front |
| `Presence.IdleTimer.constructor` | Monitoring.Revit/Logging/IdleTimer.cs:33-41 | the tracker's state is `Initial(now)` and nothing is logged |
| `Presence.IdleTimer.ChangeDocument` | Monitoring.Revit/Logging/IdleTimer.cs:43-46 | state and log change exactly as `ChangeDocumentStep` says |
| `Presence.IdleTimer.Reset` | Monitoring.Revit/Logging/IdleTimer.cs:48-52 | state changes exactly as `ResetStep` says and nothing is logged |
| `Presence.IdleTimer.StartIdleTimer` | Monitoring.Revit/Logging/IdleTimer.cs:54-62 | state and fault are those of `StartStep` and nothing is logged |
| `Presence.IdleTimer.StopIdleTimer` | Monitoring.Revit/Logging/IdleTimer.cs:64-68 | state and log change exactly as `StopStep` says |
| `Presence.IdleTimer.TimerElapsed` | Monitoring.Revit/Logging/IdleTimer.cs:70-108 | state and log change exactly as `TickStep` says |
| `Presence.IdleTimer.LogActivity` | Monitoring.Revit/Logging/IdleTimer.cs:110-121 | state and log change exactly as `LogActivityStep` says |
| `Presence.IdleTimer.Dispose` | Monitoring.Revit/Logging/IdleTimer.cs:134-142 | state and log change exactly as `DisposeStep` says |
| `Events.DocViewActivated` | Monitoring.Revit/Logging/Events.cs:14-25 | logs exactly when the logger is set and the event is valid, one record with the view name and the document path |
| `Events.OverrideAsWrittenNeverSet` | Monitoring.Revit/Logging/Events.cs:36 | the override flag as written is false for every family id |
| `Events.OverrideFlag` | Monitoring.Revit/Logging/Events.cs:36 | the corrected flag is true exactly when the load replaced an existing family with a valid id |
| `Events.OverrideDiffersOnReload` | Monitoring.Revit/Logging/Events.cs:36 | on a reload over family 42 the corrected flag is true and the flag as written is false |
| `Events.FamilyLoaded` | Monitoring.Revit/Logging/Events.cs:27-39 | logs exactly when the logger is set and the event is valid, one record with name, path and an override flag that is false for every load |
| `Events.FamilyLoadedCorrected` | Monitoring.Revit/Logging/Events.cs:27-39 | the handler with the corrected flag: the record's override is true exactly when the load replaced a family with a valid id |
| `Events.ReloadLogsNoOverride` | Monitoring.Revit/Logging/Events.cs:36 | reloading over family 42, the handler as written logs override = false and the corrected one logs true |
| `Events.FileImported` | Monitoring.Revit/Logging/Events.cs:41-53 | logs exactly when the logger is set and the event is valid, one record with format, path and document |
| `Events.FileExported` | Monitoring.Revit/Logging/Events.cs:55-67 | as FileImported under the export template |
| `Events.Initialized` | Monitoring.Revit/Logging/Events.cs:87-91 | logs exactly one "Revit Application Initialized" record, without properties, exactly when the logger is set |
| `Events.Decimal` | Monitoring.Revit/Logging/Events.cs:191-193 | a count's ToString is a non-empty string of decimal digits with no leading zero |
| `Events.DecimalRoundTrip` | Monitoring.Revit/Logging/Events.cs:191-193 | the decimal string of a count reads back as that count |
| `Events.DocChanged` | Monitoring.Revit/Logging/Events.cs:183-196 | logs exactly when the logger is set and the event is valid, one record with the document and the deleted, modified and added counts in that order |
| `Events.ChangedCountsReadBack` | Monitoring.Revit/Logging/Events.cs:188-195 | every count in a DocChanged record reads back as the count it reports |
| `Events.ReplaceCrLf` | Monitoring.Revit/Logging/Events.cs:205 | replacing "\r\n" by " " never lengthens the text |
| `Events.ReplaceKeepsLeadingChar` | Monitoring.Revit/Logging/Events.cs:205 | a non-empty text stays non-empty, and the replacement never puts a line feed first that was not there |
| `Events.ReplaceLeavesNoCrLf` | Monitoring.Revit/Logging/Events.cs:205 | no "\r\n" remains after the replacement |
| `Events.ReplaceKeepsPlainText` | Monitoring.Revit/Logging/Events.cs:205 | text without "\r\n" is unchanged |
| `Events.ReplaceIdempotent` | Monitoring.Revit/Logging/Events.cs:205 | replacing twice equals replacing once |
| `Events.UiButtonClicked` | Monitoring.Revit/Logging/Events.cs:198-209 | logs exactly when the logger is set and there is an item, one record with the normalised text and the id |
| `Events.ButtonTextNormalised` | Monitoring.Revit/Logging/Events.cs:203-208 | the logged button text never holds "\r\n", and plain text is logged unchanged |
| `EventCorrelator.Resolve` | Monitoring.Revit/Logging/Events.cs:117-118 | resolving a name gives the registered timer, and throws ResolutionFailed when nothing was registered under it |
| `EventCorrelator.StartedTimer` | Monitoring.Revit/Logging/Events.cs:106-107 | a begin handler's timer has the operation name, the event's context and a running stopwatch at zero |
| `EventCorrelator.BeginStep` | Monitoring.Revit/Logging/Events.cs:108 | registering replaces whatever was registered under the name and needs a container |
| `EventCorrelator.OpeningStep` | Monitoring.Revit/Logging/Events.cs:93-109 | only a valid Project document with logger and container registers a started "Opening Document" timer with path and type; every other registration is kept |
| `EventCorrelator.SavingStep` | Monitoring.Revit/Logging/Events.cs:126-141 | every valid event with logger and container registers a started "Saving Document" timer with the path |
| `EventCorrelator.SynchronizingStep` | Monitoring.Revit/Logging/Events.cs:155-171 | every valid event with logger and container registers a started "Synchronizing Document" timer with location and comments |
| `EventCorrelator.EndStep` | Monitoring.Revit/Logging/Events.cs:150-151 | the resolved timer is stopped and stays registered in its post-Stop state; Stop's record is followed by the end handler's record only when Stop did not throw, and a throw logs nothing |
| `EventCorrelator.OpenedStep` | Monitoring.Revit/Logging/Events.cs:111-124 | with logger, container and a valid event: no registered timer throws ResolutionFailed; a stopped one is left alone; a running one gets the document added (DuplicateKey if present) and is stopped, logging the timer record then "Opened" |
| `EventCorrelator.SavedStep` | Monitoring.Revit/Logging/Events.cs:143-152 | no running check: any registered timer is stopped and logged; with none registered Resolve throws ResolutionFailed |
| `EventCorrelator.SynchronizedStep` | Monitoring.Revit/Logging/Events.cs:173-181 | as SavedStep, but with no container check: a null container throws ArgumentNull |
| `EventCorrelator.ElapseStep` | Monitoring.Revit/Logging/Timer.cs:18 | time passes for every registered timer and the registrations stay the same |
| `EventCorrelator.PrintedView` | Monitoring.Revit/Logging/Events.cs:80 | the printed item is the view's name when the id denotes a view, else "Could not be determined" |
| `EventCorrelator.OpenedCompletes` | Monitoring.Revit/Logging/Events.cs:117-123 | a running timer lacking "Document" and the elapsed key is completed: one record with the document and the elapsed seconds appended, then "Opened", and the timer is new |
| `EventCorrelator.OpeningThenOpened` | Monitoring.Revit/Logging/Events.cs:93-124 | opening a Project, ms passing and the opened event log exactly the timer's record (path, type, document, ms/1000) and "Opened" |
| `EventCorrelator.OpenedTwiceLogsOnce` | Monitoring.Revit/Logging/Events.cs:119 | a second opened event after a completed one logs nothing |
| `EventCorrelator.NonProjectOpeningLogsNothing` | Monitoring.Revit/Logging/Events.cs:98 | opening a non-Project document registers nothing, so its opened event logs nothing, provided no earlier opening timer is still running |
| `EventCorrelator.StaleTimerCompletedByOtherDocument` | Monitoring.Revit/Logging/Events.cs:93-124 | a Project opening whose opened event is invalid leaves its timer running; a later non-Project document's opened event logs that timer with the project's path and type beside its own path |
| `EventCorrelator.OpenedStepMatched` | Monitoring.Revit/Logging/Events.cs:111-124 | the corrected opened handler logs only when the running timer's "DocumentPath" is the opened document's path, and then exactly as the code does |
| `EventCorrelator.MatchedCompletesOwnOpening` | Monitoring.Revit/Logging/Events.cs:93-124 | the corrected handler completes a Project's own opening exactly as the code does |
| `EventCorrelator.MatchedIgnoresStaleTimer` | Monitoring.Revit/Logging/Events.cs:93-124 | in the stale-timer case the corrected handler logs nothing and changes nothing |
| `EventCorrelator.SavedTwiceLogsTwice` | Monitoring.Revit/Logging/Events.cs:149-151 | a second saved event stops the already stopped timer and still logs it, with zero seconds, then "Saved" |
| `EventCorrelator.Correlator.constructor` | Monitoring.Revit/App.cs:15 | the handlers start from the given logger flag and container with an empty log |
| `EventCorrelator.Correlator.DocOpening` | Monitoring.Revit/Logging/Events.cs:93-109 | the container changes exactly as `OpeningStep` says and nothing is logged |
| `EventCorrelator.Correlator.DocOpened` | Monitoring.Revit/Logging/Events.cs:111-124 | container, log and fault change exactly as `OpenedStep` says |
| `EventCorrelator.Correlator.DocSaving` | Monitoring.Revit/Logging/Events.cs:126-141 | the container changes exactly as `SavingStep` says |
| `EventCorrelator.Correlator.DocSaved` | Monitoring.Revit/Logging/Events.cs:143-152 | container, log and fault change exactly as `SavedStep` says |
| `EventCorrelator.Correlator.DocSynchronizing` | Monitoring.Revit/Logging/Events.cs:155-171 | the container changes exactly as `SynchronizingStep` says |
| `EventCorrelator.Correlator.DocSynchronized` | Monitoring.Revit/Logging/Events.cs:173-181 | container, log and fault change exactly as `SynchronizedStep` says |
| `EventCorrelator.Correlator.DocPrinted` | Monitoring.Revit/Logging/Events.cs:69-85 | one record per printed view id, in the reported order, each with the view and the document; nothing without logger or a valid event |
| `EventCorrelator.Correlator.Elapse` | Monitoring.Revit/Logging/Timer.cs:18 | the container changes exactly as `ElapseStep` says |
| `App.RemoveLastRemovesOne` | Monitoring.Revit/App.cs:47-61 | `-=` removes exactly one copy of an attached handler and no other, and leaves a list without it unchanged |
| `App.RemoveLastRemovesLastOccurrence` | Monitoring.Revit/App.cs:47-61 | `-=` cuts out the last occurrence of the handler and keeps the other handlers in order |
| `App.RemoveLastUndoesAppend` | Monitoring.Revit/App.cs:24-61 | `-=` undoes the `+=` just before it |
| `App.RemoveAbsentIsNoOp` | Monitoring.Revit/App.cs:47-61 | `-=` of a handler that is not attached changes nothing |
| `App.StartupAppends` | Monitoring.Revit/App.cs:24-39 | OnStartup appends each event's Events handler at the end of that event's list |
| `App.StartupAddsOneEach` | Monitoring.Revit/App.cs:24-39 | each startup adds exactly one more copy of each handler |
| `App.ShutdownDetaches` | Monitoring.Revit/App.cs:47-61 | OnShutdown as written detaches every handler except DocChanged; the corrected shutdown detaches all fourteen |
| `App.ShutdownAfterStartup` | Monitoring.Revit/App.cs:17-65 | startup then shutdown as written restores every list except DocumentChanged's, which keeps one extra DocChanged |
| `App.CycleLeaksDocChanged` | Monitoring.Revit/App.cs:45-65 | one startup/shutdown cycle as written equals the old subscriptions plus one DocChanged on DocumentChanged |
| `App.CyclesAccumulate` | Monitoring.Revit/App.cs:29 | after n cycles as written DocumentChanged's list has gained n copies of DocChanged and every other list is as it was |
| `App.CycledIsShutdownStartup` | Monitoring.Revit/App.cs:17-65 | the per-list cycle that CyclesAccumulate iterates is exactly OnStartup followed by OnShutdown, read on that list |
| `App.SymmetricShutdownRestores` | Monitoring.Revit/App.cs:17-65 | the corrected shutdown exactly undoes a startup |
| `App.Host.constructor` | Monitoring.Revit/App.cs:13-15 | the host starts from the given subscriptions with no logger and an empty log |
| `App.Host.OnStartup` | Monitoring.Revit/App.cs:17-42 | sets the logger, logs "Revit Started", attaches as `Startup` says, returns Succeeded |
| `App.Host.OnShutdown` | Monitoring.Revit/App.cs:45-65 | detaches as `Shutdown` says (thirteen lists, DocumentChanged untouched), flushes, returns Succeeded |
| `Converters.Unbox` | Monitoring.Setup.Wpf/Converters.cs:12 | the cast `(bool)value` succeeds exactly on a boxed bool; null throws NullReference, anything else InvalidCast |
| `Converters.ReverseBool` | Monitoring.Setup.Wpf/Converters.cs:10-18 | Convert and ConvertBack give true exactly for a boxed false, false for null or a boxed true, and InvalidCast for any other object |
| `Converters.ReverseBoolRoundTrip` | Monitoring.Setup.Wpf/Converters.cs:10-18 | for a bool, ConvertBack undoes Convert |
| `Converters.ReverseBoolNullNotRestored` | Monitoring.Setup.Wpf/Converters.cs:12-17 | null converts to false, which converts back to true: null is not restored |
| `Converters.Conjunction` | Monitoring.Setup.Wpf/Converters.cs:38-46 | the scan yields Visible or Collapsed, never Hidden, or the cast's exception |
| `Converters.ConjunctionFirstDeciding` | Monitoring.Setup.Wpf/Converters.cs:40-45 | Visible exactly when every element is a boxed true; otherwise the first other element decides: Collapsed for false, its cast's exception otherwise |
| `Converters.ConjunctionOfBools` | Monitoring.Setup.Wpf/Converters.cs:38-46 | on bools the converter never throws, is Visible exactly when all are true and Collapsed exactly when one is false |
| `Converters.MultiBoolAndConvert` | Monitoring.Setup.Wpf/Converters.cs:38-46 | the early-return foreach loop returns exactly `Conjunction(values)` |
| `Converters.ConvertBackUnsupported` | Monitoring.Setup.Wpf/Converters.cs:48-51 | ConvertBack throws NotImplemented whatever it is given (the same holds for ProgressPercentageConverter.ConvertBack, lines 30-33) |

## Left out

- **Floating point**:
  - `ProgressPercentageConverter.Convert` is left out: double division and
    banker's rounding.
  - The idle measurement is kept in exact DateTime ticks rather than
    `TotalSeconds` doubles.
  - The logged "WorkTime" is an exact TimeSpan rather than `TotalMinutes`.
- **Concurrency**: the lock in TimerElapsed and the poll timer's thread are
  left out. Ticks and host events are sequential method calls. The 10-second
  poll interval only decides when `TimerElapsed` is called.
- **OS calls**: GetLastInputInfo, GetForegroundWindow and GetWindowText (the
  P/Invoke layer in WindowsApi.cs) are not part of this model. Their results
  are the fields of `Presence.Sample`. The 32-bit last-input stamp is only
  compared for equality, so its wrap-around plays no role.
- **Clock**: DateTime.Now is a `now` parameter. LogActivity reads it twice
  (EndTime and WorkTime) and its call to Reset reads it a third time. All
  three are taken as the same instant.
- **Serilog**: the sink and message-template rendering are left out. A record
  is its template and its property values. Logger registration (Logger.cs,
  Configuration.cs) is the flag `loggerSet`. `Log.CloseAndFlush` is the flag
  `flushed`.
- **The Unity container** is reduced to a map from registration name to
  timer:
  - A name never registered gives the ResolutionFailed fault. A null
    container in DocSynchronized gives ArgumentNull.
  - Unity's lifetime managers are not modelled.
  - Registered timers are values, because only the container keeps a
    reference to them.
- OperationTimers.CreatedWith: neither Timer class declares the
  constructor `new Timer(name, args)` that Events.cs calls at lines 106, 137
  and 167 (Logging/Timer.cs:12 takes only a name, Monitoring.Revit/Timer.cs:20
  only a dictionary). The model reads the call as a new timer with that
  name whose context starts as `args`; this is not a constructor body from the
  source.
- **EventCorrelator.ElapseStep and the `Elapse` methods** are not in the
  source. They stand for wall-clock time passing for the stopwatches.
- **Null strings**: strings read from Revit objects (paths, names, titles,
  comments) are never null in the model. A null `Item.Text` would make
  UiButtonClicked throw; that is not modelled. A null `values` array passed to
  the multi-bool converter is not modelled either.
- **The interfaces** ITimer and IEventTimer, the sample command and window,
  the DI scaffolding and the installer (Program.cs, MainWindow.xaml.cs,
  MyProductSetup.cs, App.xaml.cs) are not part of this model.
- **Handler identity**: a subscribed handler is `App.Monitor(event)` for the
  Events method App.cs attaches to that event. Other add-ins' handlers are
  `Foreign`. Delegate removal is modelled only for single-method delegates,
  which is all App.cs uses.

## Findings

| source | as written | input that shows it | evidently intended | confidence | as-written member | corrected member |
|---|---|---|---|---|---|---|
| Monitoring.Revit/Logging/Events.cs:36 | the "override" flag is `OriginalFamilyId == null && OriginalFamilyId == ElementId.InvalidElementId`, which no id satisfies | loading a family that replaces the family with id 42 logs override = false | true when the load overrode an existing family, meaning the original id is present and valid, as `Events.FamilyLoadedCorrected` logs it | medium, not executed | `Events.OverrideAsWrittenNeverSet` | `Events.OverrideFlag` |
| Monitoring.Revit/App.cs:45-65 | OnShutdown detaches thirteen handlers and has no line for `DocumentChanged -= Events.DocChanged`, which OnStartup attaches at line 29 | one OnStartup/OnShutdown cycle from no subscriptions leaves DocChanged attached; if the add-in were started and shut down n times in one process, each document change in the next session would be logged n + 1 times | OnShutdown detaches all fourteen handlers OnStartup attached, as `App.ShutdownSymmetric` does | medium, not executed | `App.CycleLeaksDocChanged` | `App.SymmetricShutdownRestores` |
| Monitoring.Revit/Logging/Events.cs:111-124 | DocOpened completes whatever opening timer is running, without checking which document started it | open a Project whose opened event arrives invalid, then open a family: the family's opened event logs "Opening Document" with the project's path and type and the family's path | an opened event completes only the timer its own document's opening started | low, not executed | `EventCorrelator.StaleTimerCompletedByOtherDocument` | `EventCorrelator.MatchedIgnoresStaleTimer` |
