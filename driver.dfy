/**
 * The capturing driver itself: its mutable fields, the two reset events,
 * the controlling thread's calls (navigation hooks, Dispose) and the capture
 * loop, one atomic step per method call.
 *
 * Every controller and loop-step method is specified by the step of the
 * transition system in `Lifecycle` it performs
 * (`State() == XStep(old(State()))`), and keeps that system's invariant, so
 * the properties proved there hold of the class. A blocking wait is a method
 * of its own that returns without effect while the thing it waits for has
 * not happened. The loop step is the corrected one (`Lifecycle.LoopStep`,
 * with the re-check of the proceed gate after the reset); the original's
 * loop is `Lifecycle.LoopStepAsWritten`.
 */
module Driver {
  import opened Wrappers
  import opened EventArgs
  import opened Decode
  import opened Lifecycle

  /** A manual-reset event: stays set until reset. Waiting on it is a step of its own. */
  class ResetEvent {
    var signaled: bool

    constructor (initialState: bool)
      ensures signaled == initialState
    {
      signaled := initialState;
    }

    method Set()
      modifies this
      ensures signaled
    {
      signaled := true;
    }

    method Reset()
      modifies this
      ensures !signaled
    {
      signaled := false;
    }
  }

  /**
   * What the outside world has seen of the loop: listener invocations made
   * inline, listener invocations handed to tasks, installs of the capture
   * script, and errors written to the trace sink.
   */
  datatype Observed = Observed(raised: seq<Dispatch>, spawned: seq<Dispatch>, installs: nat, traced: seq<Fault>)

  const NothingObserved: Observed := Observed([], [], 0, [])

  /** The effect of one batch on what has been seen, inline or in tasks. */
  function RecordBatch(o: Observed, out: BatchOutcome, asyncEvents: bool): Observed {
    Observed(
      if asyncEvents then o.raised else o.raised + out.dispatches,
      if asyncEvents then o.spawned + out.dispatches else o.spawned,
      if out.install then o.installs + 1 else o.installs,
      o.traced + OptionToSeq(out.fault))
  }

  /** Recording two consecutive parts of a batch records the whole batch. */
  lemma RecordBatchThen(o: Observed, a: BatchOutcome, b: BatchOutcome, asyncEvents: bool)
    requires !a.Stopped()
    ensures RecordBatch(RecordBatch(o, a, asyncEvents), b, asyncEvents)
         == RecordBatch(o, b.(dispatches := a.dispatches + b.dispatches), asyncEvents)
  {
    assert o.raised + a.dispatches + b.dispatches == o.raised + (a.dispatches + b.dispatches);
    assert o.spawned + a.dispatches + b.dispatches == o.spawned + (a.dispatches + b.dispatches);
  }

  class EventCapturingWebDriver {
    const options: Options
    var eventCaptureEnabled: bool
    var suspendWaitHandle: ResetEvent?
    var iterationCompleteWaitHandle: ResetEvent?
    /** The capture task and where it is; `Idle` while `eventCaptureTask` is null. */
    var loop: LoopPc
    /** Where the controlling thread is. */
    var controller: Ctl
    var baseDisposed: bool
    var observed: Observed
    /** Milliseconds the loop has slept between iterations. */
    var sleptMs: nat

    /** The fields as a state of the transition system; a null handle reads as reset. */
    function State(): Engine
      reads this, suspendWaitHandle, iterationCompleteWaitHandle
    {
      Engine(eventCaptureEnabled,
             suspendWaitHandle != null,
             suspendWaitHandle != null && suspendWaitHandle.signaled,
             iterationCompleteWaitHandle != null && iterationCompleteWaitHandle.signaled,
             loop, controller, baseDisposed)
    }

    /** The two handles exist together and are distinct objects. */
    ghost predicate HandlesWellFormed()
      reads this
    {
      && (suspendWaitHandle == null <==> iterationCompleteWaitHandle == null)
      && (suspendWaitHandle != null ==> suspendWaitHandle != iterationCompleteWaitHandle)
    }

    ghost predicate Valid()
      reads this, suspendWaitHandle, iterationCompleteWaitHandle
    {
      HandlesWellFormed() && Inv(State())
    }

    constructor (options: Options)
      ensures Valid() && State() == Init
      ensures this.options == options && observed == NothingObserved && sleptMs == 0
    {
      this.options := options;
      eventCaptureEnabled := false;
      suspendWaitHandle := null;
      iterationCompleteWaitHandle := null;
      loop := Idle;
      controller := Free;
      baseDisposed := false;
      observed := NothingObserved;
      sleptMs := 0;
    }

    /** The constructor without options uses the defaults. */
    constructor WithDefaultOptions()
      ensures Valid() && State() == Init
      ensures options == DefaultOptions && observed == NothingObserved && sleptMs == 0
    {
      options := DefaultOptions;
      eventCaptureEnabled := false;
      suspendWaitHandle := null;
      iterationCompleteWaitHandle := null;
      loop := Idle;
      controller := Free;
      baseDisposed := false;
      observed := NothingObserved;
      sleptMs := 0;
    }

    // -------------------------------------------------------------------------
    // The controlling thread

    /** Signals the loop that it may go on, when the handles exist. */
    method ResumeEventCapture()
      requires HandlesWellFormed()
      modifies suspendWaitHandle
      ensures HandlesWellFormed() && State() == ResumeStep(old(State()))
    {
      if suspendWaitHandle != null {
        suspendWaitHandle.Set();
      }
    }

    method EnableOrResumeEventCapture()
      requires Valid() && controller == Free
      modifies this, suspendWaitHandle
      ensures Valid() && State() == EnableOrResumeStep(old(State()))
      ensures observed == old(observed) && sleptMs == old(sleptMs)
      ensures !old(eventCaptureEnabled) ==> fresh(suspendWaitHandle) && fresh(iterationCompleteWaitHandle)
    {
      StepInv(State(), EnableOrResume);
      if !eventCaptureEnabled {
        eventCaptureEnabled := true;
        suspendWaitHandle := new ResetEvent(true);
        iterationCompleteWaitHandle := new ResetEvent(false);
        // start the long-running capture task
        loop := AtGuard;
      } else {
        ResumeEventCapture();
      }
    }

    /** Clears the flag and opens the gate; the wait for the loop task is `AwaitLoopExit`. */
    method DisableEventCapture()
      requires Valid() && controller == Free
      modifies this, suspendWaitHandle
      ensures Valid() && State() == DisableStep(old(State()))
      ensures observed == old(observed) && sleptMs == old(sleptMs)
    {
      StepInv(State(), Action.Dispose(true));
      if eventCaptureEnabled {
        eventCaptureEnabled := false;
        ResumeEventCapture();
        controller := WaitingLoopExit;
      }
    }

    /** Closes the proceed gate; the wait on the settled gate is `AwaitIterationSettled`. */
    method SuspendEventCapture()
      requires Valid() && controller == Free
      modifies this, suspendWaitHandle
      ensures Valid() && State() == SuspendStep(old(State()))
      ensures observed == old(observed) && sleptMs == old(sleptMs)
      ensures suspendWaitHandle == old(suspendWaitHandle) && iterationCompleteWaitHandle == old(iterationCompleteWaitHandle)
    {
      StepInv(State(), Suspend);
      if suspendWaitHandle != null && iterationCompleteWaitHandle != null {
        suspendWaitHandle.Reset();
        controller := WaitingSettled;
      }
    }

    /** The settled-gate wait inside suspend: returns once the loop is between iterations. */
    method AwaitIterationSettled()
      requires Valid()
      modifies this
      ensures Valid() && State() == AwaitSettledStep(old(State()))
      ensures observed == old(observed) && sleptMs == old(sleptMs)
      ensures suspendWaitHandle == old(suspendWaitHandle) && iterationCompleteWaitHandle == old(iterationCompleteWaitHandle)
    {
      StepInv(State(), AwaitSettled);
      if controller == WaitingSettled && iterationCompleteWaitHandle != null && iterationCompleteWaitHandle.signaled {
        controller := Free;
      }
    }

    /**
     * The wait for the loop task inside disable: once the loop has exited, the loop task and
     * both handles are released, and Dispose goes on to dispose the base.
     */
    method AwaitLoopExit()
      requires Valid()
      modifies this
      ensures Valid() && State() == AwaitLoopExitStep(old(State()))
      ensures observed == old(observed) && sleptMs == old(sleptMs)
    {
      StepInv(State(), Action.AwaitLoopExit);
      if controller == WaitingLoopExit && loop == Exited {
        loop := Idle;
        suspendWaitHandle := null;
        iterationCompleteWaitHandle := null;
        controller := Free;
        baseDisposed := true;
      }
    }

    method Dispose(disposing: bool)
      requires Valid() && controller == Free
      modifies this, suspendWaitHandle
      ensures Valid() && State() == DisposeStep(old(State()), disposing)
      ensures observed == old(observed) && sleptMs == old(sleptMs)
    {
      StepInv(State(), Action.Dispose(disposing));
      if disposing {
        DisableEventCapture();
      }
      if controller == Free {
        baseDisposed := true;
      }
      // otherwise the base is disposed when the wait for the loop ends
    }

    method OnNavigating()
      requires Valid() && controller == Free
      modifies this, suspendWaitHandle
      ensures Valid() && State() == SuspendStep(old(State()))
      ensures observed == old(observed) && sleptMs == old(sleptMs)
      ensures suspendWaitHandle == old(suspendWaitHandle) && iterationCompleteWaitHandle == old(iterationCompleteWaitHandle)
    {
      SuspendEventCapture();
    }

    method OnNavigated()
      requires Valid() && controller == Free
      modifies this, suspendWaitHandle
      ensures Valid() && State() == EnableOrResumeStep(old(State()))
      ensures observed == old(observed) && sleptMs == old(sleptMs)
      ensures !old(eventCaptureEnabled) ==> fresh(suspendWaitHandle) && fresh(iterationCompleteWaitHandle)
    {
      EnableOrResumeEventCapture();
    }

    method OnNavigatingBack()
      requires Valid() && controller == Free
      modifies this, suspendWaitHandle
      ensures Valid() && State() == SuspendStep(old(State()))
      ensures observed == old(observed) && sleptMs == old(sleptMs)
      ensures suspendWaitHandle == old(suspendWaitHandle) && iterationCompleteWaitHandle == old(iterationCompleteWaitHandle)
    {
      SuspendEventCapture();
    }

    method OnNavigatedBack()
      requires Valid() && controller == Free
      modifies this, suspendWaitHandle
      ensures Valid() && State() == EnableOrResumeStep(old(State()))
      ensures observed == old(observed) && sleptMs == old(sleptMs)
      ensures !old(eventCaptureEnabled) ==> fresh(suspendWaitHandle) && fresh(iterationCompleteWaitHandle)
    {
      EnableOrResumeEventCapture();
    }

    method OnNavigatingForward()
      requires Valid() && controller == Free
      modifies this, suspendWaitHandle
      ensures Valid() && State() == SuspendStep(old(State()))
      ensures observed == old(observed) && sleptMs == old(sleptMs)
      ensures suspendWaitHandle == old(suspendWaitHandle) && iterationCompleteWaitHandle == old(iterationCompleteWaitHandle)
    {
      SuspendEventCapture();
    }

    method OnNavigatedForward()
      requires Valid() && controller == Free
      modifies this, suspendWaitHandle
      ensures Valid() && State() == EnableOrResumeStep(old(State()))
      ensures observed == old(observed) && sleptMs == old(sleptMs)
      ensures !old(eventCaptureEnabled) ==> fresh(suspendWaitHandle) && fresh(iterationCompleteWaitHandle)
    {
      EnableOrResumeEventCapture();
    }

    // -------------------------------------------------------------------------
    // The capture loop

    /**
     * The loop's next atomic step. `drained` is what the drain script returns
     * if this step is the iteration body; the other steps ignore it.
     */
    method CaptureEventsStep(drained: DrainResult)
      requires Valid()
      modifies this, suspendWaitHandle, iterationCompleteWaitHandle
      ensures Valid() && State() == LoopStep(old(State()))
      ensures observed ==
                if old(loop) == InBody then RecordBatch(old(observed), ProcessBatch(drained), options.asyncEvents)
                else old(observed)
      ensures sleptMs ==
                if old(loop) == InBody && eventCaptureEnabled then old(sleptMs) + options.eventCaptureIntervalMs
                else old(sleptMs)
      ensures suspendWaitHandle == old(suspendWaitHandle) && iterationCompleteWaitHandle == old(iterationCompleteWaitHandle)
    {
      StepInv(State(), Loop);
      match loop
      case AtGuard =>
        loop := if eventCaptureEnabled then AtReset else Exited;
      case AtReset =>
        iterationCompleteWaitHandle.Reset();
        loop := AtRecheck;
      case AtRecheck =>
        if suspendWaitHandle.signaled {
          loop := InBody;
        } else {
          iterationCompleteWaitHandle.Set();
          loop := AtWait;
        }
      case InBody =>
        RunIteration(drained);
        // finally: signal the iteration complete, then sleep while still enabled
        iterationCompleteWaitHandle.Set();
        if eventCaptureEnabled {
          sleptMs := sleptMs + options.eventCaptureIntervalMs;
        }
        loop := AtWait;
      case AtWait =>
        if suspendWaitHandle.signaled {
          loop := AtGuard;
        }
      case Idle =>
      case Exited =>
    }

    /** The body of one iteration: the foreach over the drained entries. */
    method RunIteration(drained: DrainResult)
      modifies this`observed
      ensures observed == RecordBatch(old(observed), ProcessBatch(drained), options.asyncEvents)
    {
      match drained
      case NotCollection =>
      case ScriptFailed =>
        TraceError(ScriptError);
      case Collection(items) =>
        var i := 0;
        while i < |items|
          invariant 0 <= i <= |items|
          invariant !ProcessItems(items[..i]).Stopped()
          invariant observed == RecordBatch(old(observed), ProcessItems(items[..i]), options.asyncEvents)
        {
          var stop := HandleItem(items[i]);
          ProcessItemsSnoc(items, i);
          RecordBatchThen(old(observed), ProcessItems(items[..i]), ProcessItems([items[i]]), options.asyncEvents);
          i := i + 1;
          if stop {
            StoppedPrefixDecides(items[..i], items[i..]);
            assert items[..i] + items[i..] == items;
            break;
          }
        }
        if i == |items| {
          assert items[..i] == items;
        }
    }

    /**
     * One entry of the foreach: a null entry or a non-record throws, the
     * sentinel installs the capture script and breaks, a record is decoded
     * and raised on its handler; a throw goes to the trace and ends the
     * batch. `stop` says whether the foreach ends here.
     */
    method HandleItem(item: Item) returns (stop: bool)
      modifies this`observed
      ensures stop <==> ProcessItems([item]).Stopped()
      ensures observed == RecordBatch(old(observed), ProcessItems([item]), options.asyncEvents)
    {
      assert [item][1..] == [];
      if !item.Dict? {
        TraceError(if item.NullItem? then NullReference else InvalidRecordCast);
        return true;
      }
      var evn := item.fields;
      if NotRegisteredKey in evn {
        InstallCaptureScript();
        return true;
      }
      match DecodeEvent(evn)
      case Failure(f) =>
        TraceError(f);
        stop := true;
      case Success(routed) =>
        if routed.Some? {
          RaiseEvent(routed.value);
        }
        stop := false;
    }

    /** Invokes a listener inline, or hands it to a task of its own. */
    method RaiseEvent(d: Dispatch)
      modifies this`observed
      ensures observed ==
                if options.asyncEvents then old(observed).(spawned := old(observed).spawned + [d])
                else old(observed).(raised := old(observed).raised + [d])
    {
      if options.asyncEvents {
        observed := observed.(spawned := observed.spawned + [d]);
      } else {
        observed := observed.(raised := observed.raised + [d]);
      }
    }

    /** Runs the install script in the page (the script text is not modelled). */
    method InstallCaptureScript()
      modifies this`observed
      ensures observed == old(observed).(installs := old(observed).installs + 1)
    {
      observed := observed.(installs := observed.installs + 1);
    }

    /** Writes an exception's message to the trace sink. */
    method TraceError(f: Fault)
      modifies this`observed
      ensures observed == old(observed).(traced := old(observed).traced + [f])
    {
      observed := observed.(traced := observed.traced + [f]);
    }
  }

  /**
   * A page is navigated to and one iteration runs on it. The next navigation
   * then suspends capture at the moment the loop has just passed the proceed
   * gate, where the original's suspend returns too early. Whatever the page
   * returns from then on, no further listener is raised.
   */
  method NavigateDuringIteration(first: DrainResult, later: seq<DrainResult>) returns (raised: seq<Dispatch>)
    ensures raised == ProcessBatch(first).dispatches
  {
    var d := new EventCapturingWebDriver.WithDefaultOptions();
    d.OnNavigated();
    d.CaptureEventsStep(first);  // past the enabled check
    assert d.loop == AtReset;
    d.CaptureEventsStep(first);  // settled gate reset
    assert d.loop == AtRecheck;
    d.CaptureEventsStep(first);  // proceed gate still open
    assert d.loop == InBody;
    d.CaptureEventsStep(first);  // the iteration body
    assert d.loop == AtWait && d.observed.raised == ProcessBatch(first).dispatches;
    d.CaptureEventsStep(first);  // through the open proceed gate
    assert d.loop == AtGuard && d.State().settled;
    d.OnNavigating();
    d.AwaitIterationSettled();
    StepWhileSuspended(d, later);
    raised := d.observed.raised;
  }

  /** While capture stays suspended, no loop step raises a listener, whatever the page returns. */
  method StepWhileSuspended(d: EventCapturingWebDriver, later: seq<DrainResult>)
    requires d.Valid() && Suspended(d.State())
    modifies d, d.suspendWaitHandle, d.iterationCompleteWaitHandle
    ensures d.Valid() && Suspended(d.State())
    ensures d.observed == old(d.observed)
  {
    var proceed, settled := d.suspendWaitHandle, d.iterationCompleteWaitHandle;
    var i := 0;
    while i < |later|
      invariant 0 <= i <= |later|
      invariant d.suspendWaitHandle == proceed && d.iterationCompleteWaitHandle == settled
      invariant d.Valid() && Suspended(d.State())
      invariant d.observed == old(d.observed)
    {
      d.CaptureEventsStep(later[i]);
      i := i + 1;
    }
  }
}
