/**
 * The enable / suspend / resume / disable protocol between the controlling
 * thread (navigation hooks and disposal) and the capture loop, as a
 * transition system.
 *
 * The two ManualResetEvents are booleans: `proceedOpen` (the suspend handle,
 * set while the loop may start its next iteration) and `settled` (the
 * iteration-complete handle, set while the loop is not inside an
 * iteration). `handles` says whether they exist. Each thread's position is
 * explicit, and each transition is one atomic step of one thread; a step
 * that would block leaves the state unchanged.
 *
 * `Step` is the protocol the rest of the model uses. It differs from the
 * original in one place: after resetting `settled`, the loop looks at the
 * proceed gate once more and backs off if it has been closed in the
 * meantime. `StepAsWritten` is the original, and `AsWrittenSuspendRace`
 * exhibits the interleaving in which its `suspend` returns while an
 * iteration is about to execute script.
 */
module Lifecycle {

  /** Where the capture loop is. `Idle`: no loop task exists. */
  datatype LoopPc =
    | Idle
    | AtGuard      // `while (eventCaptureEnabled)`
    | AtReset      // `iterationCompleteWaitHandle.Reset()`
    | AtRecheck    // looks at the proceed gate again (not in the original)
    | InBody       // drains the page and dispatches: executes script
    | AtWait       // `suspendWaitHandle.WaitOne()`
    | Exited       // the loop task has run to completion

  /** Where the controlling thread is. */
  datatype Ctl =
    | Free            // not inside a blocking call
    | WaitingSettled    // inside suspend, waiting on the settled gate
    | WaitingLoopExit   // inside Dispose(true), waiting for the loop task

  datatype Engine = Engine(
    enabled: bool,
    handles: bool,
    proceedOpen: bool,
    settled: bool,
    pc: LoopPc,
    ctl: Ctl,
    baseDisposed: bool)

  /** A freshly constructed driver: nothing enabled, no handles, no loop. */
  const Init: Engine := Engine(false, false, false, false, Idle, Free, false)

  /** One atomic step of one of the two threads. */
  datatype Action =
    | EnableOrResume          // every OnNavigated* hook
    | Suspend                 // every OnNavigating* hook: closes the gate
    | AwaitSettled            // ... and returns once the settled gate is set
    | Dispose(disposing: bool)
    | AwaitLoopExit           // the rest of Dispose(true) once the loop task ended
    | Loop                    // the capture loop's next step

  // ---------------------------------------------------------------------------
  // The controlling thread

  /** Sets the proceed gate when the handles exist; otherwise nothing. */
  function ResumeStep(s: Engine): (r: Engine)
    ensures r.proceedOpen <==> s.proceedOpen || s.handles
    ensures r.(proceedOpen := s.proceedOpen) == s
  {
    if s.handles then s.(proceedOpen := true) else s
  }

  /** Starts capture the first time; afterwards only resumes. */
  function EnableOrResumeStep(s: Engine): (r: Engine)
    ensures r.enabled && r.ctl == s.ctl && r.baseDisposed == s.baseDisposed
    ensures !s.enabled ==> r.handles && r.proceedOpen && !r.settled && r.pc == AtGuard
    ensures s.enabled ==> r == s.(proceedOpen := s.proceedOpen || s.handles)
  {
    if !s.enabled then
      s.(enabled := true, handles := true, proceedOpen := true, settled := false, pc := AtGuard)
    else ResumeStep(s)
  }

  /** Closes the proceed gate, then waits on the settled gate; nothing without handles. */
  function SuspendStep(s: Engine): (r: Engine)
    ensures s.handles ==> !r.proceedOpen && r.ctl == WaitingSettled
    ensures r.(proceedOpen := s.proceedOpen, ctl := s.ctl) == s
  {
    if s.handles then s.(proceedOpen := false, ctl := WaitingSettled) else s
  }

  /** The blocking half of suspend: returns once the loop is between iterations. */
  function AwaitSettledStep(s: Engine): (r: Engine)
    ensures r.ctl != s.ctl ==> s.ctl == WaitingSettled && s.settled && r.ctl == Free
    ensures r.(ctl := s.ctl) == s
  {
    if s.ctl == WaitingSettled && s.settled then s.(ctl := Free) else s
  }

  /** Clears the enabled flag and lets a suspended loop run on to its exit. */
  function DisableStep(s: Engine): (r: Engine)
    ensures !r.enabled
    ensures s.enabled ==> r.ctl == WaitingLoopExit && (s.handles ==> r.proceedOpen)
    ensures !s.enabled ==> r == s
    ensures r.pc == s.pc && r.settled == s.settled && r.handles == s.handles && r.baseDisposed == s.baseDisposed
  {
    if s.enabled then ResumeStep(s.(enabled := false)).(ctl := WaitingLoopExit) else s
  }

  /** Disables when disposing, then disposes the wrapped driver (possibly after the wait). */
  function DisposeStep(s: Engine, disposing: bool): (r: Engine)
    ensures disposing ==> !r.enabled
    ensures r.baseDisposed <==> s.baseDisposed || !(disposing && s.enabled)
    ensures r.pc == s.pc && r.settled == s.settled && r.handles == s.handles
  {
    if disposing && s.enabled then DisableStep(s) else s.(baseDisposed := true)
  }

  /** Once the loop task has ended: release the handles, forget the loop task, dispose the base. */
  function AwaitLoopExitStep(s: Engine): (r: Engine)
    ensures r.ctl != s.ctl ==> s.pc == Exited && r.pc == Idle && !r.handles && r.baseDisposed && r.ctl == Free
    ensures r.ctl == s.ctl ==> r == s
    ensures r.enabled == s.enabled
  {
    if s.ctl == WaitingLoopExit && s.pc == Exited then
      s.(handles := false, proceedOpen := false, settled := false, pc := Idle, ctl := Free, baseDisposed := true)
    else s
  }

  // ---------------------------------------------------------------------------
  // The capture loop

  /** The loop's step, with the re-check of the proceed gate after the reset. */
  function LoopStep(s: Engine): (r: Engine)
    ensures r.(pc := s.pc, settled := s.settled) == s
    ensures r.pc == InBody ==> s.pc == InBody || (s.pc == AtRecheck && s.proceedOpen)
    ensures r.pc == AtGuard ==> s.pc == AtGuard || (s.pc == AtWait && s.proceedOpen)
  {
    match s.pc
    case AtGuard => if s.enabled then s.(pc := AtReset) else s.(pc := Exited)
    case AtReset => s.(settled := false, pc := AtRecheck)
    case AtRecheck => if s.proceedOpen then s.(pc := InBody) else s.(settled := true, pc := AtWait)
    case InBody => s.(settled := true, pc := AtWait)
    case AtWait => if s.proceedOpen then s.(pc := AtGuard) else s
    case _ => s
  }

  /** The loop's step as the original has it: the reset leads straight into the body. */
  function LoopStepAsWritten(s: Engine): (r: Engine)
    ensures r.(pc := s.pc, settled := s.settled) == s
    ensures r.pc == InBody ==> s.pc == InBody || s.pc == AtReset
    ensures s.pc == AtReset ==> r.pc == InBody && !r.settled
    ensures r.pc == AtGuard ==> s.pc == AtGuard || (s.pc == AtWait && s.proceedOpen)
  {
    match s.pc
    case AtGuard => if s.enabled then s.(pc := AtReset) else s.(pc := Exited)
    case AtReset => s.(settled := false, pc := InBody)
    case InBody => s.(settled := true, pc := AtWait)
    case AtWait => if s.proceedOpen then s.(pc := AtGuard) else s
    case _ => s
  }

  // ---------------------------------------------------------------------------
  // The transition system

  /** A controller action runs only while the controlling thread is not blocked. */
  function ControllerStep(s: Engine, a: Action): Engine
    requires !a.Loop?
  {
    match a
    case AwaitSettled => AwaitSettledStep(s)
    case AwaitLoopExit => AwaitLoopExitStep(s)
    case _ =>
      if s.ctl != Free then s
      else match a
        case EnableOrResume => EnableOrResumeStep(s)
        case Suspend => SuspendStep(s)
        case Dispose(d) => DisposeStep(s, d)
  }

  function Step(s: Engine, a: Action): Engine {
    if a.Loop? then LoopStep(s) else ControllerStep(s, a)
  }

  function StepAsWritten(s: Engine, a: Action): Engine {
    if a.Loop? then LoopStepAsWritten(s) else ControllerStep(s, a)
  }

  function Run(s: Engine, actions: seq<Action>): Engine
    decreases |actions|
  {
    if actions == [] then s else Run(Step(s, actions[0]), actions[1..])
  }

  function RunAsWritten(s: Engine, actions: seq<Action>): Engine
    decreases |actions|
  {
    if actions == [] then s else RunAsWritten(StepAsWritten(s, actions[0]), actions[1..])
  }

  /** The loop is executing the drain script and the listeners. */
  predicate InIteration(s: Engine) {
    s.pc == InBody
  }

  /** A suspend call has returned and nothing has set the proceed gate since. */
  predicate Suspended(s: Engine) {
    s.handles && !s.proceedOpen && s.ctl == Free
  }

  /** The actions that set the proceed gate (resume is reached only through these). */
  predicate OpensGate(a: Action) {
    a.EnableOrResume? || a == Dispose(true)
  }

  // ---------------------------------------------------------------------------
  // The invariant

  /** What both loops keep: the handles, the flags and the two threads agree. */
  ghost predicate ProtocolInv(s: Engine) {
    // the handles live exactly as long as the loop task
    && (s.handles <==> s.pc != Idle)
    && (!s.handles ==> !s.proceedOpen && !s.settled)
    // while enabled the loop has not exited
    && (s.enabled ==> s.handles && s.pc != Exited)
    // outside an enabled period (and outside Dispose) there is no loop
    && (!s.enabled && s.ctl == Free ==> s.pc == Idle)
    && (s.ctl == WaitingSettled ==> s.enabled && !s.proceedOpen)
    && (s.ctl == WaitingLoopExit ==> !s.enabled && s.proceedOpen && s.handles)
    // the settled gate is down while the loop is inside an iteration
    && (s.pc == AtRecheck || s.pc == InBody ==> !s.settled)
  }

  /** The corrected loop's invariant: on top of the protocol, suspend is exclusive. */
  ghost predicate Inv(s: Engine) {
    && ProtocolInv(s)
    && (Suspended(s) ==> !InIteration(s))
  }

  /** The original loop's invariant: the protocol, and the loop never at the re-check. */
  ghost predicate InvAsWritten(s: Engine) {
    ProtocolInv(s) && s.pc != AtRecheck
  }

  lemma InitInv()
    ensures Inv(Init) && InvAsWritten(Init) && !Init.enabled && !Init.handles && Init.pc == Idle
  {
  }

  /** Every step keeps the invariant. */
  lemma StepInv(s: Engine, a: Action)
    requires Inv(s)
    ensures Inv(Step(s, a))
  {
  }

  /** Every state reachable from a fresh driver satisfies the invariant. */
  lemma {:induction false} RunInv(s: Engine, actions: seq<Action>)
    requires Inv(s)
    ensures Inv(Run(s, actions))
    decreases |actions|
  {
    if actions != [] {
      StepInv(s, actions[0]);
      RunInv(Step(s, actions[0]), actions[1..]);
    }
  }

  /**
   * Suspend is exclusive: in every reachable state in which a suspend call
   * has returned and no resume has followed, the loop is not executing
   * script.
   */
  lemma SuspendIsExclusive(actions: seq<Action>)
    ensures var s := Run(Init, actions); Suspended(s) ==> !InIteration(s)
  {
    InitInv();
    RunInv(Init, actions);
  }

  /**
   * ... and stays so: from a suspended state, no sequence of steps that
   * leaves the proceed gate alone lets the loop start an iteration.
   */
  lemma {:induction false} SuspendHoldsUntilResume(s: Engine, actions: seq<Action>)
    requires !s.proceedOpen && !InIteration(s)
    requires forall i :: 0 <= i < |actions| ==> !OpensGate(actions[i])
    ensures !Run(s, actions).proceedOpen && !InIteration(Run(s, actions))
    decreases |actions|
  {
    if actions != [] {
      var s' := Step(s, actions[0]);
      assert !s'.proceedOpen && !InIteration(s');
      SuspendHoldsUntilResume(s', actions[1..]);
    }
  }

  /** Suspend closes the proceed gate before it waits on the settled gate. */
  lemma SuspendClosesGateFirst(s: Engine)
    requires s.ctl == Free && s.handles
    ensures var s' := Step(s, Suspend);
            && !s'.proceedOpen && s'.ctl == WaitingSettled
            && (s.settled ==> Step(s', AwaitSettled).ctl == Free)
            && (!s.settled ==> Step(s', AwaitSettled) == s')
  {
  }

  /** Suspend and resume do nothing while the handles are null. */
  lemma SuspendResumeWithoutHandles(s: Engine)
    requires !s.handles
    ensures Step(s, Suspend) == s && ResumeStep(s) == s
  {
  }

  /**
   * The navigated hook undoes the navigating hook: once suspend has
   * returned, enable-or-resume reopens the gate and nothing else changes.
   */
  lemma ResumeAfterSuspend(s: Engine)
    requires ProtocolInv(s) && s.ctl == Free && s.enabled && s.proceedOpen && s.settled
    ensures Step(Step(Step(s, Suspend), AwaitSettled), EnableOrResume) == s
  {
  }

  /**
   * The first enable starts one loop with the proceed gate open and the
   * settled gate closed; a later one only resumes. A loop is started only
   * when none exists, so at most one runs per enabled period.
   */
  lemma EnableStartsAtMostOneLoop(s: Engine)
    requires ProtocolInv(s) && s.ctl == Free
    ensures var s' := Step(s, EnableOrResume);
            && s'.enabled && s'.handles && s'.proceedOpen
            && (!s.enabled ==> s.pc == Idle && s'.pc == AtGuard && !s'.settled)
            && (s.enabled ==> s' == s.(proceedOpen := true))
  {
  }

  /**
   * Disable does nothing (but the base disposal) when capture is not
   * enabled; otherwise it clears the flag and opens the proceed gate.
   */
  lemma DisposeDisables(s: Engine)
    requires ProtocolInv(s) && s.ctl == Free
    ensures !s.enabled ==> Step(s, Dispose(true)) == s.(baseDisposed := true)
    ensures s.enabled ==>
              var s' := Step(s, Dispose(true));
              !s'.enabled && s'.proceedOpen && s'.ctl == WaitingLoopExit && s'.baseDisposed == s.baseDisposed
  {
  }

  /** How many loop steps remain before the loop exits, once disabled with the gate open. */
  function StepsToExit(pc: LoopPc): nat {
    match pc
    case AtReset => 5
    case AtRecheck => 4
    case InBody => 3
    case AtWait => 2
    case AtGuard => 1
    case _ => 0
  }

  function RunLoop(s: Engine, n: nat): Engine
    decreases n
  {
    if n == 0 then s else RunLoop(LoopStep(s), n - 1)
  }

  /**
   * The wait inside Dispose(true) ends: with capture disabled, the loop
   * reaches its exit within five of its own steps, after which the handles
   * are released, no loop remains and the base driver is disposed.
   */
  lemma {:induction false} DisposeWaitEnds(s: Engine)
    requires Inv(s) && s.ctl == WaitingLoopExit
    ensures var e := RunLoop(s, StepsToExit(s.pc));
            && e.pc == Exited && e.ctl == WaitingLoopExit
            && var d := Step(e, AwaitLoopExit);
               !d.handles && !d.enabled && d.pc == Idle && d.ctl == Free && d.baseDisposed
    decreases StepsToExit(s.pc)
  {
    if s.pc != Exited {
      var s' := LoopStep(s);
      StepInv(s, Loop);
      assert StepsToExit(s'.pc) == StepsToExit(s.pc) - 1;
      DisposeWaitEnds(s');
    }
  }

  // ---------------------------------------------------------------------------
  // The original's loop

  /** Every step of the original keeps its invariant. */
  lemma StepAsWrittenInv(s: Engine, a: Action)
    requires InvAsWritten(s)
    ensures InvAsWritten(StepAsWritten(s, a))
  {
  }

  /** Every state the original can reach from a fresh driver satisfies its invariant. */
  lemma {:induction false} RunAsWrittenInv(s: Engine, actions: seq<Action>)
    requires InvAsWritten(s)
    ensures InvAsWritten(RunAsWritten(s, actions))
    decreases |actions|
  {
    if actions != [] {
      StepAsWrittenInv(s, actions[0]);
      RunAsWrittenInv(StepAsWritten(s, actions[0]), actions[1..]);
    }
  }

  /**
   * What the original's suspend does guarantee: at the moment its wait
   * returns, the loop is not inside an iteration. (It may enter one at its
   * next step; see `AsWrittenSuspendRace`.)
   */
  lemma AsWrittenSuspendReturnsBetweenIterations(actions: seq<Action>)
    ensures var s := RunAsWritten(Init, actions);
            s.ctl == WaitingSettled && s.settled ==>
              var s' := StepAsWritten(s, AwaitSettled);
              Suspended(s') && !InIteration(s')
  {
    InitInv();
    RunAsWrittenInv(Init, actions);
  }

  /** The original loop's remaining steps before it exits, once disabled with the gate open. */
  function StepsToExitAsWritten(pc: LoopPc): nat {
    match pc
    case AtReset => 4
    case InBody => 3
    case AtWait => 2
    case AtGuard => 1
    case _ => 0
  }

  function RunLoopAsWritten(s: Engine, n: nat): Engine
    decreases n
  {
    if n == 0 then s else RunLoopAsWritten(LoopStepAsWritten(s), n - 1)
  }

  /**
   * The original's Dispose(true) wait ends: with capture disabled, its loop
   * exits within four of its own steps, and the rest of Dispose releases the
   * handles and disposes the base driver.
   */
  lemma {:induction false} AsWrittenDisposeWaitEnds(s: Engine)
    requires InvAsWritten(s) && s.ctl == WaitingLoopExit
    ensures var e := RunLoopAsWritten(s, StepsToExitAsWritten(s.pc));
            && e.pc == Exited && e.ctl == WaitingLoopExit
            && var d := StepAsWritten(e, AwaitLoopExit);
               !d.handles && !d.enabled && d.pc == Idle && d.ctl == Free && d.baseDisposed
    decreases StepsToExitAsWritten(s.pc)
  {
    if s.pc != Exited {
      var s' := LoopStepAsWritten(s);
      StepAsWrittenInv(s, Loop);
      assert StepsToExitAsWritten(s'.pc) == StepsToExitAsWritten(s.pc) - 1;
      AsWrittenDisposeWaitEnds(s');
    }
  }

  /**
   * As written, the gate does hold a loop that is already blocked on it:
   * no step that leaves the gate alone gets it past the wait.
   */
  lemma {:induction false} AsWrittenGateHoldsWaitingLoop(s: Engine, actions: seq<Action>)
    requires !s.proceedOpen && s.pc == AtWait
    requires forall i :: 0 <= i < |actions| ==> !OpensGate(actions[i])
    ensures RunAsWritten(s, actions).pc == AtWait && !RunAsWritten(s, actions).proceedOpen
    decreases |actions|
  {
    if actions != [] {
      AsWrittenGateHoldsWaitingLoop(StepAsWritten(s, actions[0]), actions[1..]);
    }
  }

  /**
   * The loop finishes an iteration and passes the open gate; before it
   * resets the settled gate, a navigation suspends capture. The settled gate
   * is still set from the finished iteration, so suspend returns at once,
   * and the loop then executes script while the caller navigates.
   */
  const RaceSchedule: seq<Action> :=
    [EnableOrResume, Loop, Loop, Loop, Loop, Loop, Suspend, AwaitSettled, Loop]

  lemma AsWrittenSuspendRace()
    ensures Suspended(RunAsWritten(Init, RaceSchedule))
    ensures InIteration(RunAsWritten(Init, RaceSchedule))
    ensures forall i :: 6 <= i < |RaceSchedule| ==> !OpensGate(RaceSchedule[i])
  {
    var s1 := StepAsWritten(Init, EnableOrResume);
    assert s1.pc == AtGuard && s1.proceedOpen;
    var s2 := StepAsWritten(s1, Loop);
    assert s2.pc == AtReset;
    var s3 := StepAsWritten(s2, Loop);
    assert s3.pc == InBody;
    var s4 := StepAsWritten(s3, Loop);
    assert s4.pc == AtWait && s4.settled;
    var s5 := StepAsWritten(s4, Loop);
    assert s5.pc == AtGuard;
    var s6 := StepAsWritten(s5, Loop);
    assert s6.pc == AtReset && s6.settled;
    var s7 := StepAsWritten(s6, Suspend);
    var s8 := StepAsWritten(s7, AwaitSettled);
    assert Suspended(s8);
    var s9 := StepAsWritten(s8, Loop);
    assert Suspended(s9) && InIteration(s9);
    assert RunAsWritten(Init, RaceSchedule) == s9;
  }

  /**
   * The same interleaving under the corrected loop, which takes one step
   * more per iteration: suspend returns at the same point, and the loop
   * backs off at the re-check instead of executing script.
   */
  const CorrectedRaceSchedule: seq<Action> :=
    [EnableOrResume, Loop, Loop, Loop, Loop, Loop, Loop, Suspend, AwaitSettled, Loop, Loop]

  lemma CorrectedLoopBacksOff()
    ensures Suspended(Run(Init, CorrectedRaceSchedule))
    ensures Run(Init, CorrectedRaceSchedule).pc == AtWait
  {
    var s1 := Step(Init, EnableOrResume);
    var s2 := Step(s1, Loop);
    var s3 := Step(s2, Loop);
    var s4 := Step(s3, Loop);
    var s5 := Step(s4, Loop);
    var s6 := Step(s5, Loop);
    var s7 := Step(s6, Loop);
    assert s7.pc == AtReset && s7.settled;
    var s8 := Step(s7, Suspend);
    var s9 := Step(s8, AwaitSettled);
    assert Suspended(s9);
    var s10 := Step(s9, Loop);
    assert s10.pc == AtRecheck;
    var s11 := Step(s10, Loop);
    assert s11.pc == AtWait && Suspended(s11);
    assert Run(Init, CorrectedRaceSchedule) == s11;
  }
}
