# Event capture for a browser-automation driver, in Dafny

This project models the core of `EventCapturingWebDriver`. That class wraps a Selenium driver and republishes native DOM events (click, context menu, double click, mouseover, mouseleave, key press) to listeners. It has two parts:

- **Batch decode and routing** (`decode.dfy`, module `Decode`). Each loop iteration runs a drain script in the page. The script returns a loosely typed collection of string-keyed records. They are handled in order:
  - A record holding the `captureScriptNotRegistered` sentinel key makes the loop install the capture script and ends the batch.
  - A record whose lower-cased `type` is one of the six known tags is decoded into a mouse or keyboard payload and raised on the matching handler.
  - A record with any other tag is skipped.
  - Any throw ends the batch: a missing key, a value of the wrong type for its cast, a null `type`, or an entry that is not a record. The fault goes to the trace sink. Records before the throw stay dispatched; records after it are never looked at.
  - Only a null value becomes a null payload field. A missing key throws instead. A fractional number (`Other`) fails the `long?` cast and so ends the batch.
- **Lifecycle and gates** (`lifecycle.dfy`, module `Lifecycle`; `driver.dfy`, module `Driver`). The two `ManualResetEvent`s are booleans:
  - `proceedOpen`: the suspend handle, set while the loop may begin an iteration.
  - `settled`: the iteration-complete handle, set while the loop is not inside an iteration.

  The controlling thread runs the navigation hooks and `Dispose`. The loop is a second thread. Each thread's position is explicit, and every transition is one atomic step of one thread. A blocked wait is a step that leaves the state unchanged. `Lifecycle.Step` is this transition system; `Lifecycle.Inv` is its invariant.

  The class `Driver.EventCapturingWebDriver` holds the source's fields: the enabled flag, two nullable `ResetEvent` handles, the loop task, and what listeners and the trace sink have seen. Each controller and loop-step method is proved to perform one step (`State() == XStep(old(State()))`) and to keep `Inv`. The exception is `ResumeEventCapture`, a helper of enable-or-resume and disable: it performs `ResumeStep` and keeps the handles well formed, and its callers re-establish `Inv`. The helpers that only record what listeners and the trace see (`RunIteration`, `HandleItem`, `RaiseEvent`, `InstallCaptureScript`, `TraceError`) are specified by what they record.

  The loop the class runs is the corrected one (`Lifecycle.LoopStep`). After resetting the iteration handle, it looks at the proceed gate once more and backs off if the gate is closed. The original loop (`Lifecycle.LoopStepAsWritten`, driven by `Lifecycle.StepAsWritten`) goes straight from the reset into the drain script. The "## Findings" section explains why the two differ. Properties that hold of the original are proved about `StepAsWritten`. Those that hold only of the corrected loop are listed under "## Left out".
- **Payloads and options** (`event_args.dfy`, module `EventArgs`) are plain datatypes. Every payload field is an `Option`, with `None` standing for .NET null. The default options are synchronous dispatch and a 100 ms interval.

Points where the code is stricter or weaker than a reader might assume:

- A record that lacks a field the handler reads (say `ctrlKey`) does not decode to an unknown value. The dictionary indexer throws, so the rest of the batch is dropped (`Decode.ClickModifierPassthrough`). Only a null value becomes an unknown (null) payload field.
- A record without a `type` key is not skipped like an unknown tag. It throws and ends the batch (`Decode.MissingTypeThrows`).
- The comments on the two handles (EventCapturingWebDriver.cs:31-35) and on suspend (:194-196) say that once suspend returns, the loop has finished its iteration and does not execute script while the driver navigates. As written, the code does not ensure this (see "## Findings").

## Model

| member | source | states |
|---|---|---|
| `Decode.HandlerFor` | Selenium.WebDriver.EventCapture/EventCapturingWebDriver.cs:247-269 | A tag is mapped only to the handler whose tag it is; exactness in both directions is `Decode.HandlerForTagOf` |
| `Decode.Route` | Selenium.WebDriver.EventCapture/EventCapturingWebDriver.cs:246-247 | A `type` is routed only to the handler whose tag is its lower-cased form; see `Decode.RouteIgnoresCase` |
| `Decode.DecodeModifiers` | Selenium.WebDriver.EventCapture/EventCapturingWebDriver.cs:351-356 | alt is read first, so a record without `altKey` throws KeyNotFound("altKey"); a success read all three keys; field copies are `Decode.MousePayloadCopiesFields` |
| `Decode.DecodeMouse` | Selenium.WebDriver.EventCapture/EventCapturingWebDriver.cs:299-311 | `target` is read first, so a record without it throws KeyNotFound("target"); a success is a mouse payload and read the last key `offsetY`; see `Decode.MousePayloadCopiesFields` |
| `Decode.DecodeKeyboard` | Selenium.WebDriver.EventCapture/EventCapturingWebDriver.cs:318-327 | `target` is read first, so a record without it throws KeyNotFound("target"); a success is a keyboard payload and read the last key `key`; see `Decode.KeyboardPayloadCopiesFields` |
| `Decode.DecodeEvent` | Selenium.WebDriver.EventCapture/EventCapturingWebDriver.cs:246-269 | A record without `type` throws KeyNotFound("type"); a success had a string `type`; a dispatch goes to the handler its `type` routes to, with a keyboard payload exactly for KeyPress |
| `Decode.ClassifyItem` | Selenium.WebDriver.EventCapture/EventCapturingWebDriver.cs:235-246 | An entry asks for the install exactly when it is a record holding the sentinel key; an entry that is not a record always throws; a dispatch comes only from a record with a `type` key |
| `Decode.ProcessBatch` | Selenium.WebDriver.EventCapture/EventCapturingWebDriver.cs:232-270 | A drain result that is not a collection raises and installs nothing; a collection raises at most one dispatch per entry |
| `Decode.ProcessItems` | Selenium.WebDriver.EventCapture/EventCapturingWebDriver.cs:235-270 | A batch raises at most one dispatch per drained entry, and never both installs and faults |
| `Decode.ProcessItemsConcat` | Selenium.WebDriver.EventCapture/EventCapturingWebDriver.cs:235-270 | Entries are processed in drained order: the batch of `a + b` is the batch of `a`, followed by the batch of `b` unless `a` installed or faulted |
| `Decode.RoutedBatchInOrder` | Selenium.WebDriver.EventCapture/EventCapturingWebDriver.cs:235-266 | If every record routes to a handler, the batch raises exactly one dispatch per record, the i-th for the i-th record, with no install and no fault |
| `Decode.BatchOrderExample` | Selenium.WebDriver.EventCapture/EventCapturingWebDriver.cs:235-269 | click(1,1), touchstart, mouseover(2,2), keypress "a" raise exactly click, mouseover, keypress in that order; touchstart is skipped without stopping the batch |
| `Decode.UnknownTagIsSkipped` | Selenium.WebDriver.EventCapture/EventCapturingWebDriver.cs:246-268 | A record whose lower-cased tag has no handler dispatches nothing, and the batch goes on with the next record |
| `Decode.QueuedTagsWithoutHandler` | Selenium.WebDriver.EventCapture/EventCapturingWebDriver.cs:241-268 | submit, dragstart and dragend, which the capture script queues, route to no handler |
| `Decode.HandlerForTagOf` | Selenium.WebDriver.EventCapture/EventCapturingWebDriver.cs:247-266 | The switch maps tag t to handler h exactly when t is h's tag (click, contextmenu, dblclick, mouseover, mouseleave, keypress) |
| `Decode.RouteIgnoresCase` | Selenium.WebDriver.EventCapture/EventCapturingWebDriver.cs:246-247 | A `type` routes to h exactly when its lower-cased form is h's tag; routing a lower-cased type gives the same result |
| `Decode.MixedCaseTagsRoute` | Selenium.WebDriver.EventCapture/EventCapturingWebDriver.cs:247 | "CLICK", "ContextMenu" and "KeyPress" route to Click, RightClick and KeyPress |
| `Decode.KnownTagDispatchesOnce` | Selenium.WebDriver.EventCapture/EventCapturingWebDriver.cs:247-266 | A decodable record with a known tag yields exactly one dispatch, to that handler, with a keyboard payload exactly for keypress |
| `Decode.InstallEndsBatch` | Selenium.WebDriver.EventCapture/EventCapturingWebDriver.cs:239-243 | The sentinel record causes one install; the dispatches are exactly those of the records before it, with nothing for it or any later record |
| `Decode.FaultEndsBatch` | Selenium.WebDriver.EventCapture/EventCapturingWebDriver.cs:235-276 | A throwing entry ends the batch: earlier dispatches stand, later records are not dispatched, and the fault is reported |
| `Decode.MissingTypeThrows` | Selenium.WebDriver.EventCapture/EventCapturingWebDriver.cs:246 | A record without a `type` key throws KeyNotFound |
| `Decode.NoCollectionDispatchesNothing` | Selenium.WebDriver.EventCapture/EventCapturingWebDriver.cs:232-233 | A null or non-collection drain result raises and installs nothing; a throwing drain call is only reported |
| `Decode.MousePayloadCopiesFields` | Selenium.WebDriver.EventCapture/EventCapturingWebDriver.cs:299-311 | A mouse payload decodes if and only if target, the modifiers, button and the four coordinates are present with the cast's type or null; each is then copied unchanged, null as null |
| `Decode.KeyboardPayloadCopiesFields` | Selenium.WebDriver.EventCapture/EventCapturingWebDriver.cs:318-327 | A keyboard payload decodes if and only if target, the modifiers, code and key are present with the cast's type or null; each is then copied unchanged |
| `Decode.ClickModifierPassthrough` | Selenium.WebDriver.EventCapture/EventCapturingWebDriver.cs:351-356 | altKey true, ctrlKey null, shiftKey false decode to exactly those values; without the ctrlKey key the record throws |
| `Decode.MouseRecordRoutes` | Selenium.WebDriver.EventCapture/EventCapturingWebDriver.cs:247-263 | A complete mouse record is raised on its tag's handler with its fields, or skipped when its tag has no handler |
| `Decode.KeyRecordRoutes` | Selenium.WebDriver.EventCapture/EventCapturingWebDriver.cs:264-266 | A complete keypress record is raised on KeyPress with its code and key |
| `Lifecycle.ResumeStep` | Selenium.WebDriver.EventCapture/EventCapturingWebDriver.cs:209-215 | Resume opens the proceed gate exactly when the handles exist and changes nothing else |
| `Lifecycle.EnableOrResumeStep` | Selenium.WebDriver.EventCapture/EventCapturingWebDriver.cs:157-172 | Enable-or-resume always leaves capture enabled and never touches the controller or the base. The first call starts a loop at its guard with the gate open and settled down; a later call only opens the gate (when handles exist). See `Lifecycle.EnableStartsAtMostOneLoop` |
| `Lifecycle.SuspendStep` | Selenium.WebDriver.EventCapture/EventCapturingWebDriver.cs:197-203 | With handles, suspend closes the proceed gate and starts waiting on the settled gate; it changes nothing else, and nothing at all without handles |
| `Lifecycle.AwaitSettledStep` | Selenium.WebDriver.EventCapture/EventCapturingWebDriver.cs:202 | The wait inside suspend changes only the controller's position, and returns only when the settled gate is set |
| `Lifecycle.DisableStep` | Selenium.WebDriver.EventCapture/EventCapturingWebDriver.cs:177-192 | Disable always leaves capture disabled and leaves the loop, the handles and the base alone. When enabled, it opens the gate and starts the wait for the loop task; otherwise it is a no-op. See `Lifecycle.DisposeDisables` |
| `Lifecycle.DisposeStep` | Selenium.WebDriver.EventCapture/EventCapturingWebDriver.cs:426-433 | Dispose(true) leaves capture disabled. The base is disposed at once unless disable must first wait for the loop task; the loop and the handles are left alone |
| `Lifecycle.AwaitLoopExitStep` | Selenium.WebDriver.EventCapture/EventCapturingWebDriver.cs:183-191 | The wait for the loop task ends only once the loop has exited: then the handles are released, no loop remains and the base is disposed. Otherwise nothing changes |
| `Lifecycle.LoopStep` | Selenium.WebDriver.EventCapture/EventCapturingWebDriver.cs:220-292 | The corrected loop changes only its position and the settled gate. It enters the body only from the re-check with the gate open, and reaches its guard only through an open gate. See `Lifecycle.SuspendIsExclusive` |
| `Lifecycle.LoopStepAsWritten` | Selenium.WebDriver.EventCapture/EventCapturingWebDriver.cs:220-292 | The original loop changes only its position and the settled gate. It enters the body straight from the reset, whatever the gate, clearing settled as it does. See `Lifecycle.AsWrittenSuspendRace` |
| `Lifecycle.InitInv` | Selenium.WebDriver.EventCapture/EventCapturingWebDriver.cs:21-36 | A fresh driver is disabled, has null handles and no loop, and satisfies both the corrected loop's invariant and the original's |
| `Lifecycle.StepInv` | Selenium.WebDriver.EventCapture/EventCapturingWebDriver.cs:157-291 | Under the corrected loop, every step of either thread keeps the invariant: handles exist exactly while a loop task does, no loop outside an enabled period or Dispose, settled down inside an iteration, and suspend exclusive |
| `Lifecycle.RunInv` | Selenium.WebDriver.EventCapture/EventCapturingWebDriver.cs:157-291 | Under the corrected loop, every state reachable by any interleaving satisfies that invariant |
| `Lifecycle.SuspendIsExclusive` | Selenium.WebDriver.EventCapture/EventCapturingWebDriver.cs:194-204 | Under the corrected loop, in every reachable state where suspend has returned and the gate is still closed, the loop is not inside an iteration |
| `Lifecycle.SuspendHoldsUntilResume` | Selenium.WebDriver.EventCapture/EventCapturingWebDriver.cs:197-215 | Under the corrected loop, from a closed gate with no iteration running, no interleaving that leaves the gate alone starts an iteration |
| `Lifecycle.SuspendClosesGateFirst` | Selenium.WebDriver.EventCapture/EventCapturingWebDriver.cs:199-203 | Suspend closes the proceed gate and only then waits; the wait returns exactly when the settled gate is set |
| `Lifecycle.SuspendResumeWithoutHandles` | Selenium.WebDriver.EventCapture/EventCapturingWebDriver.cs:199-214 | With null handles, suspend and resume change nothing |
| `Lifecycle.ResumeAfterSuspend` | Selenium.WebDriver.EventCapture/EventCapturingWebDriver.cs:362-376 | In every state satisfying the protocol invariant, on an enabled driver whose loop is between iterations (settled set, gate open), a navigating hook, its return, and a navigated hook leave the state unchanged |
| `Lifecycle.EnableStartsAtMostOneLoop` | Selenium.WebDriver.EventCapture/EventCapturingWebDriver.cs:157-172 | In every state satisfying the protocol invariant, so in every state either loop reaches (the race state included), the first enable sets enabled, opens proceed, closes settled and starts a loop, and only when none exists; later calls only open the proceed gate |
| `Lifecycle.DisposeDisables` | Selenium.WebDriver.EventCapture/EventCapturingWebDriver.cs:177-192 | In every state satisfying the protocol invariant, so in every state either loop reaches, disable is a no-op when not enabled; otherwise it clears enabled, opens the proceed gate and waits for the loop before the base is disposed |
| `Lifecycle.DisposeWaitEnds` | Selenium.WebDriver.EventCapture/EventCapturingWebDriver.cs:177-191 | Once disabled, the corrected loop exits within five of its steps, after which the handles are null, no loop remains and the base is disposed |
| `Lifecycle.StepAsWrittenInv` | Selenium.WebDriver.EventCapture/EventCapturingWebDriver.cs:157-291 | Under the original loop, every step of either thread keeps the protocol invariant (the corrected one without suspend exclusivity) |
| `Lifecycle.RunAsWrittenInv` | Selenium.WebDriver.EventCapture/EventCapturingWebDriver.cs:157-291 | Under the original loop, every state reachable by any interleaving satisfies the protocol invariant |
| `Lifecycle.AsWrittenSuspendReturnsBetweenIterations` | Selenium.WebDriver.EventCapture/EventCapturingWebDriver.cs:197-204 | In the original, at the moment suspend's wait returns in any reachable state, capture is suspended and the loop is not inside an iteration |
| `Lifecycle.AsWrittenDisposeWaitEnds` | Selenium.WebDriver.EventCapture/EventCapturingWebDriver.cs:177-191 | In the original, once disabled, the loop exits within four of its steps, after which the handles are null, no loop remains and the base is disposed |
| `Lifecycle.AsWrittenGateHoldsWaitingLoop` | Selenium.WebDriver.EventCapture/EventCapturingWebDriver.cs:288-290 | In the original, a loop already blocked on the closed gate stays there until something reopens it |
| `Lifecycle.AsWrittenSuspendRace` | Selenium.WebDriver.EventCapture/EventCapturingWebDriver.cs:222-290 | In the original, an interleaving exists where suspend has returned, the gate is still closed, and the loop is executing an iteration |
| `Lifecycle.CorrectedLoopBacksOff` | Selenium.WebDriver.EventCapture/EventCapturingWebDriver.cs:222-290 | Under the corrected loop the same interleaving leaves the loop blocked at the gate instead |
| `Driver.ResetEvent.constructor` | Selenium.WebDriver.EventCapture/EventCapturingWebDriver.cs:162-163 | A new handle starts in the given state (the suspend handle set, the iteration handle not) |
| `Driver.ResetEvent.Set` | Selenium.WebDriver.EventCapture/EventCapturingWebDriver.cs:213 | Set leaves the handle signalled until it is reset |
| `Driver.ResetEvent.Reset` | Selenium.WebDriver.EventCapture/EventCapturingWebDriver.cs:201 | Reset leaves the handle unsignalled until it is set |
| `Driver.EventCapturingWebDriver.constructor` | Selenium.WebDriver.EventCapture/EventCapturingWebDriver.cs:56-60 | The driver starts disabled with the given options and nothing observed |
| `Driver.EventCapturingWebDriver.WithDefaultOptions` | Selenium.WebDriver.EventCapture/EventCapturingOptions.cs:27-32 | Without options the driver uses synchronous dispatch and a 100 ms interval |
| `Driver.EventCapturingWebDriver.ResumeEventCapture` | Selenium.WebDriver.EventCapture/EventCapturingWebDriver.cs:209-215 | Sets the suspend handle when it exists; nothing otherwise |
| `Driver.EventCapturingWebDriver.EnableOrResumeEventCapture` | Selenium.WebDriver.EventCapture/EventCapturingWebDriver.cs:157-172 | Performs the enable-or-resume step with fresh handles on first enable, and keeps the invariant |
| `Driver.EventCapturingWebDriver.DisableEventCapture` | Selenium.WebDriver.EventCapture/EventCapturingWebDriver.cs:177-183 | Performs the disable step (clear the flag, resume, wait for the loop task) and keeps the invariant |
| `Driver.EventCapturingWebDriver.SuspendEventCapture` | Selenium.WebDriver.EventCapture/EventCapturingWebDriver.cs:197-204 | Performs the suspend step: resets the suspend handle, then waits on the iteration handle |
| `Driver.EventCapturingWebDriver.AwaitIterationSettled` | Selenium.WebDriver.EventCapture/EventCapturingWebDriver.cs:202 | The wait inside suspend returns exactly when the iteration handle is set |
| `Driver.EventCapturingWebDriver.AwaitLoopExit` | Selenium.WebDriver.EventCapture/EventCapturingWebDriver.cs:183-190 | Once the loop task has ended, it and both handles are released and the base is disposed |
| `Driver.EventCapturingWebDriver.Dispose` | Selenium.WebDriver.EventCapture/EventCapturingWebDriver.cs:426-433 | Dispose(true) disables before the base is disposed; Dispose(false) only disposes the base |
| `Driver.EventCapturingWebDriver.OnNavigating` | Selenium.WebDriver.EventCapture/EventCapturingWebDriver.cs:362-366 | Suspends capture |
| `Driver.EventCapturingWebDriver.OnNavigated` | Selenium.WebDriver.EventCapture/EventCapturingWebDriver.cs:372-376 | Enables or resumes capture |
| `Driver.EventCapturingWebDriver.OnNavigatingBack` | Selenium.WebDriver.EventCapture/EventCapturingWebDriver.cs:382-386 | Suspends capture |
| `Driver.EventCapturingWebDriver.OnNavigatedBack` | Selenium.WebDriver.EventCapture/EventCapturingWebDriver.cs:392-396 | Enables or resumes capture |
| `Driver.EventCapturingWebDriver.OnNavigatingForward` | Selenium.WebDriver.EventCapture/EventCapturingWebDriver.cs:402-406 | Suspends capture |
| `Driver.EventCapturingWebDriver.OnNavigatedForward` | Selenium.WebDriver.EventCapture/EventCapturingWebDriver.cs:412-416 | Enables or resumes capture |
| `Driver.EventCapturingWebDriver.CaptureEventsStep` | Selenium.WebDriver.EventCapture/EventCapturingWebDriver.cs:220-292 | One step of the corrected loop. The body records the batch's dispatches, install and fault, sets the iteration handle, and sleeps the interval only while still enabled |
| `Driver.EventCapturingWebDriver.RunIteration` | Selenium.WebDriver.EventCapture/EventCapturingWebDriver.cs:232-276 | The foreach with its break and its abort on a throw records exactly the batch's outcome |
| `Driver.EventCapturingWebDriver.HandleItem` | Selenium.WebDriver.EventCapture/EventCapturingWebDriver.cs:235-276 | One entry of the foreach records exactly that entry's batch outcome, and reports a stop exactly when it installs or throws |
| `Driver.EventCapturingWebDriver.RaiseEvent` | Selenium.WebDriver.EventCapture/EventCapturingWebDriver.cs:334-344 | A dispatch runs inline in synchronous mode, or is handed to a task in asynchronous mode |
| `Driver.EventCapturingWebDriver.InstallCaptureScript` | Selenium.WebDriver.EventCapture/EventCapturingWebDriver.cs:241 | Records one install of the capture script |
| `Driver.EventCapturingWebDriver.TraceError` | Selenium.WebDriver.EventCapture/EventCapturingWebDriver.cs:275 | Records the fault on the trace sink |
| `Driver.NavigateDuringIteration` | Selenium.WebDriver.EventCapture/EventCapturingWebDriver.cs:197-290 | Under the corrected loop: after one iteration, a navigation that suspends just after the loop passed the gate lets no further listener run, whatever the page returns |
| `Driver.StepWhileSuspended` | Selenium.WebDriver.EventCapture/EventCapturingWebDriver.cs:220-290 | Under the corrected loop: while the gate stays closed after suspend returned, loop steps keep capture suspended and raise, install and trace nothing, whatever the page returns |

## Left out

- Threads and timing. The model covers `Task.Factory.StartNew`, `Task.Wait`, blocking in `ManualResetEvent.WaitOne` and `Thread.Sleep` as follows:
  - The two threads are interleaved atomic steps.
  - A blocked wait is a step without effect.
  - A sleep only adds the interval to a counter.
  - Fairness and liveness beyond `Lifecycle.DisposeWaitEnds` and `Lifecycle.AsWrittenDisposeWaitEnds` are not modelled.
- Asynchronous dispatch: a dispatch handed to a task is appended to `spawned` and never runs. Listeners and their concurrency are outside the model.
- Listener code. Listener registries (the six .NET events and their `On…Captured` raisers, lines 69-148) appear only as the ordered log of dispatches. A listener that throws in synchronous mode, which would also end the batch, is not modelled.
- The injected JavaScript text and `ExecuteJavaScript`:
  - A drain is a `DrainResult` parameter of the loop step.
  - An install is a counter.
  - A throw from the install call itself is not modelled.
- `Trace.TraceError` is a log of faults, without messages.
- `ToLower` folds ASCII letters only. Culture-specific and non-ASCII case mappings (for example the Kelvin sign to `k`) are not modelled.
- A negative or out-of-range capture interval is not modelled: the interval is a `nat`. In the source, -1 ms makes `Thread.Sleep` block forever, and any other negative value or one above `Int32.MaxValue` ms throws out of the loop task.
- Options are a constant value in the model. In the source, the driver keeps a reference to a mutable `EventCapturingOptions`, whose `AsyncEvents` and `EventCaptureInterval` setters are public (EventCapturingOptions.cs:15 and :22). The loop reads both again on each use (:284 and :336), so changes made while capturing are not modelled.
- A null `options` is not modelled. In the source, the constructor accepts it (:59). The first sleep at :284 then throws inside the `finally`, outside the try, which ends the loop task, and `Task.Wait` at :183 rethrows it.
- The `EventFiringWebDriver` base class, `IWebDriver` and `IWebElement`. The base calls in the hooks have no modelled effect, and an element is an opaque `ElementRef`. Base disposal is a flag.
- The example console program (Example/Program.cs) is not part of this model.
- The page's own queue and its discarding on navigation are browser behaviour. Drains are given per step.
- CaptureEventsStep: models the corrected loop, which re-checks the proceed gate after resetting the iteration handle (lines 228-232 go straight into the drain). The original loop is `Lifecycle.LoopStepAsWritten`, which the class does not run; see "## Findings".
- SuspendIsExclusive: holds of the corrected loop only. It is the corrected member of the Findings row, and `Lifecycle.AsWrittenSuspendRace` shows it fails for the original.
- StepInv: holds of the corrected loop only. Suspend exclusivity fails for the original (`Lifecycle.AsWrittenSuspendRace`); the rest of the invariant is `Lifecycle.StepAsWrittenInv`.
- RunInv: holds of the corrected loop only. For the original, `Lifecycle.RunAsWrittenInv` proves the invariant without suspend exclusivity.
- SuspendHoldsUntilResume: holds of the corrected loop only. In the original, a loop at the guard or the reset enters the body with the gate closed. Only a loop already waiting at the gate stays there (`Lifecycle.AsWrittenGateHoldsWaitingLoop`).
- DisposeWaitEnds: counts the corrected loop's five steps. The original's four-step bound is `Lifecycle.AsWrittenDisposeWaitEnds`.
- NavigateDuringIteration: holds of the corrected loop only. Under the original loop the same schedule reaches an iteration while suspended (`Lifecycle.AsWrittenSuspendRace`), and that iteration raises the listeners for whatever the page returns.
- StepWhileSuspended: holds of the corrected loop only, for the same reason.

## Findings

| source | as written | input that shows it | evidently intended | confidence | as-written member | corrected member |
|---|---|---|---|---|---|---|
| Selenium.WebDriver.EventCapture/EventCapturingWebDriver.cs:222-290 | The loop passes `suspendWaitHandle.WaitOne()` (line 290), checks `eventCaptureEnabled` (line 222), and only then resets `iterationCompleteWaitHandle` (line 228). In that window the iteration handle is still set from the previous iteration. | A navigation starts after one complete iteration, while the loop is between line 290 and line 228. `suspendEventCapture` closes the gate, finds the iteration handle set, and returns. The loop then resets the handle and executes the drain script against the page being navigated away from. | Once suspend returns, no iteration executes script until capture is resumed. The class comments at lines 31-35 and 194-196 say so. The fix: after resetting the iteration handle, the loop checks the proceed gate again, and if it is closed, sets the handle again and goes back to wait. | not executed; high that the interleaving exists, since it needs only the two threads' steps in that order | `Lifecycle.AsWrittenSuspendRace` | `Lifecycle.SuspendIsExclusive`, `Lifecycle.SuspendHoldsUntilResume` |
