/**
 Properties of the process watcher's state machine: what a single operation
 promises when combined with another, and what holds over any trace of
 operations (a watcher that was never started never reports, a detection is
 reported once and polling pauses until the process exits, disposal silences
 the watcher until it is initialized again, the timer interval is latched).
 */
module WatcherProperties {
  import opened WatcherSpec

  predicate NoStarts(es: seq<Event>) {
    forall i :: 0 <= i < |es| ==> !es[i].Start?
  }

  predicate NoInits(es: seq<Event>) {
    forall i :: 0 <= i < |es| ==> !es[i].Init?
  }

  predicate NoDisposes(es: seq<Event>) {
    forall i :: 0 <= i < |es| ==> !es[i].Dispose?
  }

  /** No event of `es` is the exit of a process in `hs`. */
  predicate NoExitsOf(es: seq<Event>, hs: set<ProcId>) {
    forall i :: 0 <= i < |es| ==> !(es[i].Exited? && es[i].id in hs)
  }

  // ---- Single operations, and two operations in a row ----

  /** Calling Init twice has the effect of calling it once. */
  lemma InitIdempotent(s: WatcherState)
    ensures InitStep(InitStep(s)) == InitStep(s)
  {
  }

  /** Changing `Interval` after Init and calling Init again leaves the timer's
      interval as it was created. */
  lemma IntervalLatchedAtInit(s: WatcherState, v: real)
    requires s.initialized
    ensures InitStep(SetIntervalStep(s, v)).timerInterval == s.timerInterval
    ensures InitStep(SetIntervalStep(s, v)).interval == v
  {
  }

  /** Calling Dispose twice has the effect of calling it once, and Dispose
      before Init changes nothing (in particular `disposed` stays false). */
  lemma DisposeIdempotent(s: WatcherState)
    ensures DisposeStep(DisposeStep(s)) == DisposeStep(s)
    ensures !s.initialized ==> DisposeStep(s) == s && DisposeStep(s).disposed == s.disposed
  {
  }

  /** A tick's outcome depends only on the first process the query returned:
      whatever follows it is ignored. */
  lemma TickExaminesOnlyFirst(s: WatcherState, procs: seq<ProcInfo>)
    requires s.timerRunning && |procs| >= 1
    ensures TickStep(s, procs) == TickStep(s, procs[..1])
  {
  }

  /** A windowed process behind a windowless first entry is never reported. */
  lemma LaterWindowedProcessIgnored(s: WatcherState, procs: seq<ProcInfo>, k: nat)
    requires s.timerRunning && 1 <= k < |procs| && procs[k].hasWindow && !procs[0].hasWindow
    ensures TickStep(s, procs) == s
  {
  }

  /** After a detection the timer is stopped; when the detected process exits,
      its hook runs the timer again without any call to Start. */
  lemma ReArmOnExit(s: WatcherState, procs: seq<ProcInfo>)
    requires Valid(s) && s.timerRunning && Qualifies(procs)
    ensures !TickStep(s, procs).timerRunning
    ensures TickStep(s, procs).timerAllocated
    ensures ExitStep(TickStep(s, procs), procs[0].id).timerRunning
    ensures ExitStep(TickStep(s, procs), procs[0].id).starts == s.starts + [procs[0].id]
  {
  }

  /** Disposal is not final: a disposed watcher can be initialized and started
      again, keeps `disposed == true`, and its next Dispose then does nothing,
      so the new timer is left running. */
  lemma ReinitAfterDisposeCannotBeDisposed(s: WatcherState)
    requires Valid(s) && s.initialized && !s.disposed && s.interval > 0.0
    ensures var u := DisposeStep(StartStep(InitStep(DisposeStep(s))));
            u.disposed && u.initialized && u.timerRunning
  {
  }

  /** A freshly constructed watcher cannot be initialized before its
      `Interval` is set: the default 0 is refused by the timer. */
  lemma InitFailsWithDefaultInterval(name: string)
    ensures InitThrows(Initial(name)) && InitStep(Initial(name)) == Initial(name)
  {
  }

  // ---- Traces ----

  /** The process name is never changed by any operation. */
  lemma {:induction false} RunKeepsProcessName(s: WatcherState, es: seq<Event>)
    requires Admissible(s, es)
    ensures Run(s, es).processName == s.processName
    decreases |es|
  {
    if es != [] {
      RunKeepsProcessName(Step(s, es[0]), es[1..]);
    }
  }

  /** Every qualifying tick reports exactly the process it found, in order,
      and nothing else reports one. */
  lemma {:induction false} ReportsMatchQualifyingTicks(s: WatcherState, es: seq<Event>)
    requires Admissible(s, es)
    ensures Run(s, es).starts == s.starts + QualifyingIds(es)
    decreases |es|
  {
    if es != [] {
      ReportsMatchQualifyingTicks(Step(s, es[0]), es[1..]);
    }
  }

  /** With its timer stopped and no exit hooks, a watcher that is not started
      stays stopped and reports nothing. */
  lemma {:induction false} NoStartNoReport(s: WatcherState, es: seq<Event>)
    requires !s.timerRunning && s.hooks == {}
    requires Admissible(s, es) && NoStarts(es)
    ensures Run(s, es).starts == s.starts && !Run(s, es).timerRunning && Run(s, es).hooks == {}
    decreases |es|
  {
    if es != [] {
      NoStartNoReport(Step(s, es[0]), es[1..]);
    }
  }

  /** A watcher on which Start is never called never notifies its subscribers,
      whatever processes come and go. */
  lemma NeverStartedNeverReports(name: string, es: seq<Event>)
    requires Admissible(Initial(name), es) && NoStarts(es)
    ensures Run(Initial(name), es).starts == []
  {
    NoStartNoReport(Initial(name), es);
  }

  /** A stopped timer stays stopped, and nothing is reported, until Start is
      called or a process whose exit is hooked exits. */
  lemma {:induction false} StoppedStaysSilent(s: WatcherState, es: seq<Event>, hs: set<ProcId>)
    requires !s.timerRunning && s.hooks <= hs
    requires Admissible(s, es) && NoStarts(es) && NoExitsOf(es, hs)
    ensures Run(s, es).starts == s.starts && !Run(s, es).timerRunning
    decreases |es|
  {
    if es != [] {
      StoppedStaysSilent(Step(s, es[0]), es[1..], hs);
    }
  }

  /** A detected process is reported exactly once: after the detecting tick
      no further polling happens until Start is called or a hooked process
      exits. */
  lemma DetectionReportedOnce(s: WatcherState, procs: seq<ProcInfo>, es: seq<Event>)
    requires s.timerRunning && Qualifies(procs)
    requires Admissible(TickStep(s, procs), es) && NoStarts(es)
    requires NoExitsOf(es, TickStep(s, procs).hooks)
    ensures Run(TickStep(s, procs), es).starts == s.starts + [procs[0].id]
  {
    StoppedStaysSilent(TickStep(s, procs), es, TickStep(s, procs).hooks);
  }

  /** An uninitialized watcher reports nothing, and its timer does not run,
      until Init is called; Start, Dispose and `Interval` changes do not help. */
  lemma {:induction false} UninitializedStaysSilent(s: WatcherState, es: seq<Event>)
    requires Valid(s) && !s.initialized
    requires Admissible(s, es) && NoInits(es)
    ensures Run(s, es).starts == s.starts && !Run(s, es).initialized && !Run(s, es).timerRunning
    decreases |es|
  {
    if es != [] {
      UninitializedStaysSilent(Step(s, es[0]), es[1..]);
    }
  }

  /** After an effective Dispose the watcher reports nothing more unless it is
      initialized again. */
  lemma DisposedWatcherReportsNothing(s: WatcherState, es: seq<Event>)
    requires Valid(s) && s.initialized && !s.disposed
    requires Admissible(DisposeStep(s), es) && NoInits(es)
    ensures Run(DisposeStep(s), es).starts == s.starts
    ensures Run(DisposeStep(s), es).disposed
  {
    UninitializedStaysSilent(DisposeStep(s), es);
    DisposedStaysDisposed(DisposeStep(s), es);
  }

  /** Once disposed, a watcher stays disposed whatever happens. */
  lemma {:induction false} DisposedStaysDisposed(s: WatcherState, es: seq<Event>)
    requires s.disposed && Admissible(s, es)
    ensures Run(s, es).disposed
    decreases |es|
  {
    if es != [] {
      DisposedStaysDisposed(Step(s, es[0]), es[1..]);
    }
  }

  /** The timer's interval is the one latched when it was created: while the
      watcher is not disposed, neither `Interval` changes nor further Inits
      (nor anything else) change it. */
  lemma {:induction false} IntervalLatched(s: WatcherState, es: seq<Event>)
    requires s.initialized
    requires Admissible(s, es) && NoDisposes(es)
    ensures Run(s, es).initialized && Run(s, es).timerInterval == s.timerInterval
    decreases |es|
  {
    if es != [] {
      IntervalLatched(Step(s, es[0]), es[1..]);
    }
  }

  /** A watcher that is not initialized and whose `Interval` is never set to
      a positive value never becomes initialized, so it never reports,
      however often Init and Start are called. */
  lemma {:induction false} NonPositiveIntervalNeverInitializes(s: WatcherState, es: seq<Event>)
    requires Valid(s) && !s.initialized && s.interval <= 0.0
    requires Admissible(s, es)
    requires forall i :: 0 <= i < |es| ==> !(es[i].SetInterval? && es[i].value > 0.0)
    ensures !Run(s, es).initialized && !Run(s, es).timerRunning && Run(s, es).starts == s.starts
    decreases |es|
  {
    if es != [] {
      NonPositiveIntervalNeverInitializes(Step(s, es[0]), es[1..]);
    }
  }

  /** A concrete run: "notepad" polled every 100 ms; one empty poll, a poll
      whose only match has no window, then process 7 with a window is
      reported and polling pauses; 7 exits, polling resumes, and of the two
      windowed processes 8 and 9 only the first, 8, is reported. */
  lemma NotepadScenario()
    ensures var es := [SetInterval(100.0), Init, Start,
                       Tick([]), Tick([ProcInfo(7, false)]), Tick([ProcInfo(7, true)]),
                       Exited(7), Tick([ProcInfo(8, true), ProcInfo(9, true)])];
            Admissible(Initial("notepad"), es) &&
            Run(Initial("notepad"), es).starts == [7, 8] &&
            !Run(Initial("notepad"), es).timerRunning &&
            Run(Initial("notepad"), es).timerInterval == 100.0
  {
  }
}
