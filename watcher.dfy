/**
 The process watcher as an object whose methods update its fields in place.
 Each method is proved to perform exactly the step function of module
 `WatcherSpec` for its operation, so every property proved there about steps
 and traces holds of the object.

 The operating system is not modelled: a timer tick receives the result of
 the query for processes with the watcher's name as a parameter, and the exit
 of a process is a call of `ProcessExited`.
 */
module ProcessWatcher {
  import opened WatcherSpec

  class Watcher {
    var initialized: bool
    var disposed: bool
    var timerAllocated: bool   // the timer exists and has not been disposed
    var timerRunning: bool
    var timerInterval: real    // the interval the timer was created with
    var interval: real         // the `Interval` property
    const processName: string
    var exitHooks: set<ProcId> // processes whose exit handler restarts the timer
    ghost var starts: seq<ProcId>  // the processes passed to the start subscribers, in order

    /** The watcher's fields as a value of the specification. */
    ghost function State(): WatcherState
      reads this
    {
      WatcherState(initialized, disposed, timerAllocated, timerRunning, timerInterval,
                   interval, processName, starts, exitHooks)
    }

    ghost predicate Valid()
      reads this
    {
      WatcherSpec.Valid(State())
    }

    /** Only the process name is set; `Interval` keeps its default. */
    constructor (name: string)
      ensures Valid() && State() == Initial(name)
    {
      processName := name;
      initialized, disposed := false, false;
      timerAllocated, timerRunning := false, false;
      timerInterval, interval := 0.0, 0.0;
      exitHooks := {};
      starts := [];
    }

    /** Create a stopped timer with the current `Interval`, once. `ok` is
        false when the timer refuses that interval: the caller then receives
        the exception, and nothing has changed. */
    method Init() returns (ok: bool)
      requires Valid()
      modifies this
      ensures Valid() && State() == InitStep(old(State()))
      ensures ok == !InitThrows(old(State()))
    {
      ok := true;
      if !initialized {
        if interval <= 0.0 {
          ok := false;
          return;
        }
        timerAllocated, timerRunning, timerInterval := true, false, interval;
        initialized := true;
      }
    }

    /** Run the timer, if there is one. */
    method Start()
      requires Valid()
      modifies this
      ensures Valid() && State() == StartStep(old(State()))
    {
      if !initialized {
        return;
      }
      timerRunning := true;
    }

    /** Stop and release the timer, once, and only after Init. */
    method Dispose()
      requires Valid()
      modifies this
      ensures Valid() && State() == DisposeStep(old(State()))
    {
      if initialized && !disposed {
        timerRunning := false;
        timerAllocated := false;
        disposed := true;
        initialized := false;
      }
    }

    /** The `Interval` property setter. */
    method SetInterval(value: real)
      requires Valid()
      modifies this
      ensures Valid() && State() == SetIntervalStep(old(State()), value)
    {
      interval := value;
    }

    /** The timer elapsed; `procs` is what the query for processes named
        `processName` returned. Only the first entry is looked at. */
    method Tick(procs: seq<ProcInfo>)
      requires Valid() && timerRunning
      modifies this
      ensures Valid() && State() == TickStep(old(State()), procs)
    {
      if |procs| < 1 || !procs[0].hasWindow {
        return;
      }
      var target := procs[0];
      exitHooks := exitHooks + {target.id};
      starts := starts + [target.id];
      timerRunning := false;
    }

    /** Process `id` exited: its exit handler, if one was registered, starts
        the current timer again. */
    method ProcessExited(id: ProcId)
      requires Valid() && timerAllocated
      modifies this
      ensures Valid() && State() == ExitStep(old(State()), id)
    {
      if id in exitHooks {
        exitHooks := exitHooks - {id};
        timerRunning := true;
      }
    }
  }

  /** A client that sees only the contracts above: Init fails until
      `Interval` is set; then a windowed process is reported once, polling
      pauses until it exits and resumes when it does, and after Dispose a
      Start no longer runs the timer. */
  method WatchOnce(name: string, id: ProcId)
  {
    var w := new Watcher(name);
    var ok := w.Init();
    assert !ok && !w.initialized;
    w.SetInterval(100.0);
    ok := w.Init();
    assert ok;
    w.Start();
    w.Tick([ProcInfo(id, true)]);
    assert w.starts == [id] && !w.timerRunning;
    w.ProcessExited(id);
    assert w.timerRunning;
    w.Dispose();
    assert !w.timerRunning && !w.initialized && w.disposed;
    w.Start();
    assert !w.timerRunning;
  }
}
