/**
 The process watcher's lifecycle and detection logic, as a state machine over
 values. A `WatcherState` is everything the watcher holds: its two lifecycle
 flags, its timer (absent or live, running or stopped, with the interval it
 was created with), the `Interval` property, the immutable process name, the
 log of start notifications it has sent and the processes whose exit it is
 waiting for. Each operation of the watcher is one step function; a trace of
 operations is run by `Run`. The class in module `ProcessWatcher` is proved
 to follow these functions step by step.
 */
module WatcherSpec {

  /** An operating-system process id. */
  type ProcId = nat

  /** One entry of the operating system's answer to "all processes with this
      name": its id, and whether its main window handle is non-zero. */
  datatype ProcInfo = ProcInfo(id: ProcId, hasWindow: bool)

  datatype WatcherState = WatcherState(
    initialized: bool,
    disposed: bool,
    timerAllocated: bool,   // the timer exists and has not been disposed
    timerRunning: bool,
    timerInterval: real,    // latched from `interval` when the timer was created
    interval: real,
    processName: string,
    starts: seq<ProcId>,    // every process reported to the start subscribers, in order
    hooks: set<ProcId>      // processes whose exit will restart the timer
  )

  /** The operations a caller or the environment can perform. */
  datatype Event =
    | Init
    | Start
    | Dispose
    | SetInterval(value: real)
    | Tick(procs: seq<ProcInfo>)   // the timer elapsed; `procs` is what the process query returned
    | Exited(id: ProcId)           // the operating system reported that process `id` exited

  /** What holds of every reachable state: the watcher is initialized exactly
      while it owns a live timer, and only a live timer runs. */
  predicate Valid(s: WatcherState) {
    s.initialized == s.timerAllocated && (s.timerRunning ==> s.timerAllocated)
  }

  /** A freshly constructed watcher: only the name is set; `Interval` has the
      default value of a double. */
  function Initial(name: string): (s: WatcherState)
    ensures Valid(s) && !s.initialized && !s.disposed && !s.timerRunning
    ensures s.processName == name && s.starts == [] && s.hooks == {}
  {
    WatcherState(false, false, false, false, 0.0, 0.0, name, [], {})
  }

  /** Whether a tick's query result leads to a detection: only the FIRST
      process returned is examined, and it must have a window. */
  predicate Qualifies(procs: seq<ProcInfo>) {
    |procs| >= 1 && procs[0].hasWindow
  }

  /** Whether Init raises an exception: creating the timer sets its interval,
      and a timer refuses an interval that is not positive. The exception
      leaves before the timer is stored and before the watcher is marked
      initialized. */
  predicate InitThrows(s: WatcherState) {
    !s.initialized && s.interval <= 0.0
  }

  /** Init: when not yet initialized, create a stopped timer that takes the
      current `Interval`, and become initialized; otherwise do nothing. When
      `Interval` is not positive the timer cannot be created and nothing
      changes. */
  function InitStep(s: WatcherState): (t: WatcherState)
    ensures Valid(s) ==> Valid(t)
    ensures t.initialized == (s.initialized || s.interval > 0.0)
    ensures !s.initialized && s.interval > 0.0 ==>
              t.timerAllocated && !t.timerRunning && t.timerInterval == s.interval
    ensures s.initialized || InitThrows(s) ==> t == s
    ensures t.disposed == s.disposed && t.interval == s.interval && t.processName == s.processName
    ensures t.starts == s.starts && t.hooks == s.hooks
  {
    if !s.initialized then
      if s.interval <= 0.0 then
        s
      else
        s.(initialized := true, timerAllocated := true, timerRunning := false, timerInterval := s.interval)
    else
      s
  }

  /** Start: run the timer, unless the watcher is not initialized. */
  function StartStep(s: WatcherState): (t: WatcherState)
    ensures Valid(s) ==> Valid(t)
    ensures t.timerRunning == (s.timerRunning || s.initialized)
    ensures !s.initialized ==> t == s
    ensures t == s.(timerRunning := t.timerRunning)
  {
    if !s.initialized then s else s.(timerRunning := true)
  }

  /** Dispose: only an initialized, not yet disposed watcher acts; it stops and
      releases the timer, becomes disposed and stops being initialized. */
  function DisposeStep(s: WatcherState): (t: WatcherState)
    ensures Valid(s) ==> Valid(t)
    ensures s.initialized && !s.disposed ==>
              t.disposed && !t.initialized && !t.timerAllocated && !t.timerRunning
    ensures !(s.initialized && !s.disposed) ==> t == s
    ensures t.interval == s.interval && t.timerInterval == s.timerInterval && t.processName == s.processName
    ensures t.starts == s.starts && t.hooks == s.hooks
  {
    if s.initialized && !s.disposed then
      s.(timerRunning := false, timerAllocated := false, disposed := true, initialized := false)
    else
      s
  }

  /** The `Interval` property setter: it touches nothing but the property. */
  function SetIntervalStep(s: WatcherState, value: real): (t: WatcherState)
    ensures Valid(s) ==> Valid(t)
    ensures t.interval == value && t.timerInterval == s.timerInterval
    ensures t == s.(interval := t.interval)
  {
    s.(interval := value)
  }

  /** The timer elapsed while running. If the first process returned has a
      window, report it once to the subscribers, register an exit hook for it
      and stop the timer; otherwise leave everything as it is. */
  function TickStep(s: WatcherState, procs: seq<ProcInfo>): (t: WatcherState)
    requires s.timerRunning
    ensures Valid(s) ==> Valid(t)
    ensures t.starts == if Qualifies(procs) then s.starts + [procs[0].id] else s.starts
    ensures t.hooks == if Qualifies(procs) then s.hooks + {procs[0].id} else s.hooks
    ensures t.timerRunning == !Qualifies(procs)
    ensures t == s.(starts := t.starts, hooks := t.hooks, timerRunning := t.timerRunning)
  {
    if |procs| < 1 || !procs[0].hasWindow then
      s
    else
      var target := procs[0];
      s.(starts := s.starts + [target.id], hooks := s.hooks + {target.id}, timerRunning := false)
  }

  /** Process `id` exited. If a hook was registered for it, the hook starts
      the current timer again; the process will not exit a second time. */
  function ExitStep(s: WatcherState, id: ProcId): (t: WatcherState)
    requires s.timerAllocated
    ensures Valid(s) ==> Valid(t)
    ensures t.timerRunning == (s.timerRunning || id in s.hooks)
    ensures t.hooks == s.hooks - {id}
    ensures t == s.(timerRunning := t.timerRunning, hooks := t.hooks)
  {
    if id in s.hooks then s.(timerRunning := true, hooks := s.hooks - {id}) else s
  }

  /** Whether an event can happen in a state: the timer only elapses while it
      runs, and an exit hook is only followed while the timer it restarts is
      live. */
  predicate Enabled(s: WatcherState, e: Event) {
    match e
    case Tick(_) => s.timerRunning
    case Exited(_) => s.timerAllocated
    case _ => true
  }

  function Step(s: WatcherState, e: Event): WatcherState
    requires Enabled(s, e)
  {
    match e
    case Init => InitStep(s)
    case Start => StartStep(s)
    case Dispose => DisposeStep(s)
    case SetInterval(v) => SetIntervalStep(s, v)
    case Tick(procs) => TickStep(s, procs)
    case Exited(id) => ExitStep(s, id)
  }

  /** Every event of the trace is enabled in the state it meets. */
  predicate Admissible(s: WatcherState, es: seq<Event>)
    decreases |es|
  {
    es == [] || (Enabled(s, es[0]) && Admissible(Step(s, es[0]), es[1..]))
  }

  /** The state after performing the events of `es` in order. */
  function Run(s: WatcherState, es: seq<Event>): (r: WatcherState)
    requires Admissible(s, es)
    ensures Valid(s) ==> Valid(r)
    decreases |es|
  {
    if es == [] then s else Run(Step(s, es[0]), es[1..])
  }

  /** The ids of the processes that the qualifying ticks of `es` find, in
      order: for each tick whose first entry has a window, that entry's id. */
  function QualifyingIds(es: seq<Event>): seq<ProcId>
    decreases |es|
  {
    if es == [] then []
    else (if es[0].Tick? && Qualifies(es[0].procs) then [es[0].procs[0].id] else []) + QualifyingIds(es[1..])
  }
}
