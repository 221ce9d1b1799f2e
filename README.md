# Process watcher: lifecycle and detection state machine

`ProcessWatcher` (ProcessWatcher.cs) watches for a process with a given name.
It holds an `Initialized` and a `Disposed` flag, an `Interval` property, a
read-only `ProcessName` and a timer. `Init` creates the timer with the current
interval; the timer refuses an interval that is not positive, so `Init` throws
and leaves the watcher uninitialized while `Interval` still has its default 0.
`Start` runs the timer. On every tick the handler asks the operating system
for the processes with that name. If the first one has a main window, it does
three things. It hooks that process's `Exited` event so that the exit restarts
the timer. It raises `OnProcessStart` with the process. It stops the timer.
`Dispose` stops and releases the timer and resets `Initialized`.

The model has three modules:

- `WatcherSpec` (watcher_spec.dfy) describes the watcher's state as a value,
  `WatcherState`. Each operation is a step function: `InitStep`, `StartStep`,
  `DisposeStep`, `SetIntervalStep`, `TickStep` and `ExitStep`. An `Event`
  trace is run by `Run`. Only admissible traces are run: a tick happens only
  while the timer runs, and an exit hook fires only while the current timer
  is live. The `Valid` invariant states that the watcher is initialized
  exactly while it owns a live timer, and that only a live timer runs. Every
  step keeps it.
- `WatcherProperties` (watcher_properties.dfy) holds the lemmas. Some combine
  two operations: idempotence, latching, re-arming. Others hold over every
  trace; these are proved by induction.
- `ProcessWatcher` (watcher.dfy) holds the class `Watcher`. Its fields are
  those of the C# class. Its methods update them in place, and each is proved
  to perform exactly its step function. The exit handlers that are registered
  form the field `exitHooks`. The ghost field `starts` logs the processes
  passed to `OnProcessStart`. `Init` returns `ok == false` where the C#
  method throws. The method `WatchOnce` is a usage example that relies on
  the contracts alone: Init fails before `Interval` is set, one windowed
  process is reported, polling resumes after its exit, and Start has no
  effect after Dispose.

In two places the code does less than a watcher is usually expected to, and
the model follows the code:

- Disposal is not final. In the code, `Dispose` sets `Initialized` to false,
  so a later `Init` (with a positive `Interval`) creates a new timer while
  `Disposed` stays true. After that, `Dispose` does nothing, so the
  new timer can no longer be stopped through `Dispose`. The lemma
  `ReinitAfterDisposeCannotBeDisposed` states this. `DisposedWatcherReportsNothing`
  states what does hold: after an effective `Dispose`, nothing is reported
  until `Init` is called again.
- A failed process query is not caught. The code has no error handling, and
  the model invents none.

## Model

| member | source | states |
|---|---|---|
| `WatcherSpec.Initial` | ProcessWatcher.cs:54-57 | A new watcher has only its name set: not initialized, not disposed, no timer running, no hooks, nothing reported, and `Valid` holds |
| `WatcherSpec.InitStep` | ProcessWatcher.cs:66-78 | After Init the watcher is initialized exactly when it already was or `Interval` is positive. From an uninitialized state with a positive `Interval` it creates a live, stopped timer with that interval. From an initialized state, or when the timer refuses a non-positive `Interval` (the exception path), it changes nothing. Flags, interval, name, reports and hooks are otherwise kept, and `Valid` is preserved |
| `WatcherSpec.StartStep` | ProcessWatcher.cs:83-89 | Start on an uninitialized watcher changes nothing. Otherwise the timer runs afterwards. Only the running flag can change, and `Valid` is preserved |
| `WatcherSpec.DisposeStep` | ProcessWatcher.cs:94-105 | When initialized and not disposed, Dispose leaves the timer stopped and released, `disposed` true and `initialized` false. In every other state it changes nothing. Interval, latched interval, name, reports and hooks are kept, and `Valid` is preserved |
| `WatcherSpec.SetIntervalStep` | ProcessWatcher.cs:39 | Setting `Interval` changes only `interval`; the timer keeps the interval it was created with |
| `WatcherSpec.TickStep` | ProcessWatcher.cs:107-121 | A tick appends the first process to the start log exactly once and registers its exit hook, but only when the first entry exists and has a window. The timer is stopped exactly in that case. Nothing else changes, and `Valid` is preserved |
| `WatcherSpec.ExitStep` | ProcessWatcher.cs:117 | When a hooked process exits, the timer runs afterwards and that hook is consumed; an unhooked exit changes nothing. Nothing else changes, and `Valid` is preserved |
| `WatcherSpec.Run` | ProcessWatcher.cs:66-121 | Every admissible sequence of operations preserves `Valid` |
| `WatcherProperties.InitIdempotent` | ProcessWatcher.cs:68 | Init twice has the same effect as Init once |
| `WatcherProperties.IntervalLatchedAtInit` | ProcessWatcher.cs:68-73 | Changing `Interval` after Init and calling Init again keeps the timer's original interval |
| `WatcherProperties.DisposeIdempotent` | ProcessWatcher.cs:96 | Dispose twice has the same effect as Dispose once. Dispose before Init changes nothing, so `disposed` stays false |
| `WatcherProperties.TickExaminesOnlyFirst` | ProcessWatcher.cs:111-115 | A tick's outcome equals the outcome for the first entry alone |
| `WatcherProperties.LaterWindowedProcessIgnored` | ProcessWatcher.cs:111-113 | A windowed process at index 1 or later is not reported when index 0 has no window |
| `WatcherProperties.ReArmOnExit` | ProcessWatcher.cs:115-120 | After a detection the timer is stopped but still live. The detected process's exit makes it run again without a Start, and the report stays the single one made |
| `WatcherProperties.InitFailsWithDefaultInterval` | ProcessWatcher.cs:39-76 | On a new watcher, whose `Interval` is the default 0, Init throws and changes nothing |
| `WatcherProperties.ReinitAfterDisposeCannotBeDisposed` | ProcessWatcher.cs:96-103 | With a positive `Interval`, Dispose, Init, Start, Dispose on a running watcher ends with `disposed` and `initialized` both true and the timer running |
| `WatcherProperties.RunKeepsProcessName` | ProcessWatcher.cs:44 | No sequence of operations changes the process name |
| `WatcherProperties.ReportsMatchQualifyingTicks` | ProcessWatcher.cs:111-119 | Over any trace, the start log is the old log followed by the first entry's id of each tick whose first entry has a window, in order, and nothing else |
| `WatcherProperties.NoStartNoReport` | ProcessWatcher.cs:83-89 | With the timer stopped and no hooks, a trace without Start reports nothing and leaves the timer stopped and the hooks empty |
| `WatcherProperties.NeverStartedNeverReports` | ProcessWatcher.cs:54-89 | A watcher on which Start is never called never notifies its subscribers |
| `WatcherProperties.StoppedStaysSilent` | ProcessWatcher.cs:117-120 | A stopped timer stays stopped and nothing is reported until Start is called or a hooked process exits |
| `WatcherProperties.DetectionReportedOnce` | ProcessWatcher.cs:115-120 | After a detecting tick, the detected process is the only new report until Start is called or a hooked process exits |
| `WatcherProperties.UninitializedStaysSilent` | ProcessWatcher.cs:85-86 | An uninitialized watcher does nothing until Init. Start, Dispose and `Interval` changes leave it uninitialized, with the timer stopped and no reports |
| `WatcherProperties.DisposedWatcherReportsNothing` | ProcessWatcher.cs:94-105 | After an effective Dispose, no trace without Init reports anything, and the watcher stays disposed |
| `WatcherProperties.DisposedStaysDisposed` | ProcessWatcher.cs:102 | Once set, `disposed` is never cleared |
| `WatcherProperties.IntervalLatched` | ProcessWatcher.cs:68-73 | From an initialized state, a trace without Dispose keeps the watcher initialized and keeps the timer's interval, whatever `Interval` changes and Inits it holds |
| `WatcherProperties.NonPositiveIntervalNeverInitializes` | ProcessWatcher.cs:68-76 | An uninitialized watcher whose `Interval` is never set to a positive value stays uninitialized, with its timer stopped and no reports, whatever Inits and Starts it gets |
| `WatcherProperties.NotepadScenario` | ProcessWatcher.cs:66-121 | A concrete run with interval 100. An empty poll and a windowless poll report nothing. Process 7 is reported and polling pauses. Its exit resumes polling, and of 8 and 9 only 8 is reported |
| `ProcessWatcher.Watcher.constructor` | ProcessWatcher.cs:54-57 | The new object's state is `Initial(name)` |
| `ProcessWatcher.Watcher.Init` | ProcessWatcher.cs:66-78 | Updates the fields exactly as `InitStep` and keeps `Valid`; returns false exactly when the C# Init throws because `Interval` is not positive |
| `ProcessWatcher.Watcher.Start` | ProcessWatcher.cs:83-89 | Updates the fields exactly as `StartStep` and keeps `Valid` |
| `ProcessWatcher.Watcher.Dispose` | ProcessWatcher.cs:94-105 | Updates the fields exactly as `DisposeStep` and keeps `Valid` |
| `ProcessWatcher.Watcher.SetInterval` | ProcessWatcher.cs:39 | Updates the fields exactly as `SetIntervalStep` and keeps `Valid` |
| `ProcessWatcher.Watcher.Tick` | ProcessWatcher.cs:107-121 | Updates the fields exactly as `TickStep` and keeps `Valid` |
| `ProcessWatcher.Watcher.ProcessExited` | ProcessWatcher.cs:117 | Updates the fields exactly as `ExitStep` and keeps `Valid` |

## Left out

- Timing and threading of `System.Timers.Timer`: a tick is an explicit call, allowed only while the timer runs. Real elapsed time, ticks on pool threads, re-entrant ticks and an `Elapsed` raised just after `Stop` are not modelled.
- `Process.GetProcessesByName` and `MainWindowHandle`: the query result is the `procs` parameter of a tick, a sequence of (id, has-window) entries.
- `EnableRaisingEvents` and the operating system's delivery of `Exited`: an exit is an explicit `ProcessExited` call. A registered handler is an id in the hook set, and it is consumed when that process exits, since a process exits only once.
- `ProcessWatcher.Watcher.ProcessExited`, `WatcherSpec.ExitStep` and `WatcherSpec.Enabled` (for `Exited` events): require a live timer. An exit handler that fires after `Dispose` calls `Start` on a disposed .NET timer, whose effect the library defines; traces exclude that case.
- `ProcessTimer.Dispose()` and `GC.SuppressFinalize`: runtime resource management, reduced to clearing the timer's live and running flags.
- Subscribers of `OnProcessStart` and their side effects: a notification is an entry appended to the ghost start log. The order "notify, then stop the timer" becomes one step.
- A subscriber that throws: the exit hook is already registered, the `Stop` after the notification never runs, and the timer swallows the exception, so polling goes on and the same process is reported on every tick. The model treats a tick as one step and does not capture this.
- `Interval` is a `double`, modelled as a `real`. The timer's refusal of a value that is not positive is modelled (Init's exception path). Not modelled: an interval above Int32.MaxValue milliseconds passes Init but makes `Start` throw, and NaN.
- Process ids are natural numbers. The same id reused by a later process is treated as the same process.
