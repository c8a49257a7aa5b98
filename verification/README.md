# Verification of proteo-runtime

A Dafny model of the parts of proteo-runtime where the difficulty lies: the small concurrent protocols, the
state machines behind event traces, and the recursive transformations of JSON. Everything below is proved for
all inputs, all interleavings or all runs.

`dafny verify dfyconfig.toml` checks the project.

## How the source is modelled

Asyncio code is cut into atomic steps, one step being the code a coroutine runs between two awaits. Each
protocol comes in three layers:

1. a transition function on values (`Next`), with `Enabled` for the steps that can happen;
2. lemmas over runs, sequences of arbitrary steps (`Run`), which carry the invariants and the main results;
3. a class with the source's mutable fields, whose methods are those steps. Its `Valid()` is the invariant of
   the second layer: every method that is called from outside requires and ensures it, is proved to take the
   step `Next`, and states what the step means for its caller, by way of the lemmas about all steps. What
   only these methods call is proved against the functions the step is made of.

Sequential code that emits events is a class whose method is proved against a function that gives the whole
trace. Pure code is functions and lemmas. What comes from outside is an input: tool bodies, approval decisions,
provider notifications, what a client answers, cancellation and timeouts. Regular expressions, digests, case
folding and the worth of a number's spelling are function parameters.

| file | models |
|---|---|
| `ToolTypes.dfy`, `ToolCalls.dfy` | deduplication of tool requests over shared futures |
| `ToolPipeline.dfy` | the safety pipeline of one tool request and its event trace |
| `TaskProtocol.dfy`, `CodexTask.dfy` | the life of a task: turns, concurrent `close()` calls, locks |
| `FakeSessions.dfy` | sessions of the fake runtime: registry, claims, generations, stale handles |
| `Json.dfy`, `SchemaNormalizer.dfy`, `SchemaMeaning.dfy` | strict-schema normalisation and its meaning |
| `TurnRun.dfy`, `StructuredLoop.dfy`, `Usage.dfy` | notifications to events; bounded retries in one logical stream, and their usage |
| `EventBus.dfy`, `Projection.dfy` | serialised fan-out; what observers are shown |
| `LangSmith.dfy` | the map of open runs |
| `Text.dfy`, `Base64Url.dfy`, `JsonText.dfy`, `SessionCodec.dfy` | the session codec down to bytes |
| `RunTree.dfy`, `InvocationStatus.dfy` | telemetry: runs as a tree; an invocation's status by scan and by query |
| `Quotes.dfy` | the example application's quotes: discounts, and a transaction with rollback |

## Where the code does less than one would think

Each of these has a lemma that says exactly when the property holds, and a concrete run or input on which it
does not.

- A request whose approval cannot be asked for, because its arguments have no JSON form or the handler raises
  at the call, ends without a terminal event (`ToolPipeline.ToolExecutor.ExecuteOwner`, `EscapedRequest`).
- A request's error that cannot be converted to a result leaves its future pending and its waiters waiting until
  its invocation ends (`OwnerBreaksExactlyWhenUnconvertible`, `EndCancelsTheBroken`, `ConversionBreaksExactly`;
  `BrokenOwnerStrandsAWaiter`).
- An error result does not always report the bodies that ran (`ReportedAttemptsAreBodiesRun`;
  `RejectedAtTheSecondAttempt`).
- An invocation id used again after its end can get two owners for one call (`SecondOwnerExactly`;
  `ReuseGivesTwoOwners`).
- A task's stream that is cancelled once more while its cleanup interrupts the provider never gives the turn lock
  back, and the task can then never be closed (`ClosesExactlyWhenNotLeaked`; `LeakIsReachable`).
- A closing call that is cancelled can declare the task closed under a running turn (`CancelledCloserExactly`;
  `CancelledCloserClosesUnderATurn`).
- An emit that finds its invocation's lock dropped while an earlier one is still on its way can be fanned out
  beside it, and one of a repeated event leaves a lock behind which a later emit can (`LateStartsOverlapExactly`,
  `LateRepeatsLeaveALock`; `LateStartsOverlap`).
- A full projection is not idempotent on every value (`FullTwice`; `AnObjectUnderASessionKey`).
- An update that raises in the middle of a terminal event leaves LangSmith runs open, possibly without their
  parent (`AfterTheEnd`, `EndNestsExactly`; `AFailureLeavesAnOrphan`).
- LangSmith runs that share an id, within one invocation or across several, have it updated more than once
  (`IdsUpdatedOnceExactly`; `SilentClientsMixUpRuns`) and are linked to after its update (`LinksStayLiveExactly`;
  `ConstantClientsMixUpRuns`, `SilentTurnsMixUp`). Clients that return nothing, or the same object every time,
  make such runs.
- A stale handle's `delete` can remove another session from the fake runtime's registry
  (`DeleteDropsTheHandlesEntry`; `AStaleDeleteHitsAnother`).
- A turn reported as completed and then cut off by a cancellation or a foreign exception has two terminal events
  (`OneTerminalExactly`; `CompletedAndThenCutOff`).
- A structured invocation whose turn fails, or that cannot retry, has no terminal event (`TerminalEventExactly`;
  `AFailedTurnIsTheEnd`).
- A structured output with a field named "properties" has a normalised schema that accepts no object; without
  one, normalisation keeps the strict reading (`PropertiesShutOutObjects`, `NormalisedMeaning`;
  `APropertyNamedProperties`).
- Rows with equal ids can make the tree's recursion endless (`EndsExactlyWhenAcyclic`; `ARepeatedIdNeedNotEnd`).

## Model

| member | source | states |
|---|---|---|
| ToolTypes.ErrorResult | src/proteo_runtime/tools/__init__.py:938-955 | converting an error gives a result exactly when its attempt count is absent or non-negative; the result carries the error's code, flags and count, 1 when absent |
| ToolCalls.RunKeepsInv | src/proteo_runtime/tools/__init__.py:606-646 | every interleaving without id reuse keeps callers, futures and entries consistent |
| ToolCalls.PendingExactlyWhenOwned | src/proteo_runtime/tools/__init__.py:606-646 | before its invocation ends, a key has a pending entry exactly when it has a live owner or one whose error could not be converted; never two of them, and even afterwards never two live owners |
| ToolCalls.WaiterGetsOwnersOutcome | src/proteo_runtime/tools/__init__.py:638-646 | a waiter that was not itself cancelled leaves with exactly its owner's outcome |
| ToolCalls.WaiterIsServed | src/proteo_runtime/tools/__init__.py:629-631 | a waiter can go on unless its owner is still live or broke |
| ToolCalls.AnsweredAtMostOnce | src/proteo_runtime/tools/__init__.py:633-646 | of two owners a key had in turn, one was cancelled: a call is answered at most once |
| ToolCalls.SecondOwnerExactly | src/proteo_runtime/tools/__init__.py:606-646 | a step gives a key a second live owner exactly when it is an arrival without an entry while an old owner lives, which takes an id used again |
| ToolCalls.CancelWaiterIsInvisible | src/proteo_runtime/tools/__init__.py:629-631 | cancelling a waiter changes nothing for anyone else, whatever happens afterwards |
| ToolCalls.ReuseGivesTwoOwners | src/proteo_runtime/tools/__init__.py:606-614 | a run with an id used again reaches two live owners, the old one's cancellation having dropped the new one's entry |
| ToolCalls.OwnerBreaksExactlyWhenUnconvertible | src/proteo_runtime/tools/__init__.py:638-646 | whatever happens until its invocation ends, an owner that has left has its future pending exactly when the policy returns errors and this one cannot be converted |
| ToolCalls.EndCancelsTheBroken | src/proteo_runtime/tools/__init__.py:606-614 | the end of the invocation drops and cancels what a broken owner left |
| ToolCalls.BrokenOwnerStrandsAWaiter | src/proteo_runtime/tools/__init__.py:629-646 | a second request behind a broken owner waits and cannot go on |
| ToolCalls.ToolExecutor.Arrive | src/proteo_runtime/tools/__init__.py:616-631 | a caller becomes owner of a new future exactly when the key has none |
| ToolCalls.ToolExecutor.FinishOwner | src/proteo_runtime/tools/__init__.py:632-646 | each way a pipeline ends settles the future and the entry as the protocol says |
| ToolCalls.ToolExecutor.WakeWaiter | src/proteo_runtime/tools/__init__.py:629-631 | a waiter takes the settled outcome and touches neither table |
| ToolCalls.ToolExecutor.CancelWaiter | src/proteo_runtime/tools/__init__.py:629-631 | the shield keeps a waiter's cancellation from the future |
| ToolCalls.ToolExecutor.ReleaseCalls | src/proteo_runtime/tools/__init__.py:606-614 | the loop drops exactly the invocation's entries and cancels exactly their pending futures |
| ToolCalls.ToolExecutor.EndInvocation | src/proteo_runtime/tools/__init__.py:606-614 | ending an invocation is the protocol's step |
| ToolPipeline.OneTerminalAtTheEnd | src/proteo_runtime/tools/__init__.py:653-814 | a trace starts with the request, and a terminal event is its last and only one |
| ToolPipeline.BodiesAreBounded | src/proteo_runtime/tools/__init__.py:712-727 | bodies run at most `max_attempts` times, at most once for tools that are not idempotent, and only with valid arguments and an allowed permission |
| ToolPipeline.NoBodyBeforeApproval | src/proteo_runtime/tools/__init__.py:690-711 | when approval is required, there is a handler and its APPROVE decision precedes every body |
| ToolPipeline.BodiesStartExactlyWhenAllowed | src/proteo_runtime/tools/__init__.py:656-727 | a finished request ran a body exactly when tool, arguments, permission, policy and, where required, approval allowed it |
| ToolPipeline.StartsAreCounted | src/proteo_runtime/tools/__init__.py:726-767 | the attempt number of the phase is the number of bodies started |
| ToolPipeline.ReportedAttemptsAreBodiesRun | src/proteo_runtime/tools/__init__.py:938-955 | exactly when an error result reports the number of bodies that ran, errors that escape the approval stage included |
| ToolPipeline.ConversionBreaksExactly | src/proteo_runtime/tools/__init__.py:785-842 | exactly when the error that leaves the pipeline cannot be converted: one that escaped the approval stage under any policy, or a tool's own under a single-attempt policy |
| ToolPipeline.ToolExecutor.Emit | src/proteo_runtime/tools/__init__.py:893-936 | an event gets the next number in the shared list and extends its request's trace, whatever others emit meanwhile |
| ToolPipeline.ToolExecutor.Approval | src/proteo_runtime/tools/__init__.py:824-856 | approval fails closed: any decision but APPROVE ends in a denial; an exception before the handler can be awaited escapes, with no event behind the question |
| ToolPipeline.ToolExecutor.Preflight | src/proteo_runtime/tools/__init__.py:656-724 | the guards in their order; a body may start only behind all of them, and an uncancelled refusal ends in its terminal event unless an exception escaped the approval stage |
| ToolPipeline.ToolExecutor.Conclude | src/proteo_runtime/tools/__init__.py:738-798 | how each reply of a body ends its attempt, and whether the loop goes on |
| ToolPipeline.ToolExecutor.Attempt | src/proteo_runtime/tools/__init__.py:727-798 | one pass of the loop starts one body and ends as its reply says, with the next attempt or an end the replies explain |
| ToolPipeline.ToolExecutor.Exhaust | src/proteo_runtime/tools/__init__.py:799-814 | the event and the error of a pipeline whose attempts are used up |
| ToolPipeline.ToolExecutor.RetryLoop | src/proteo_runtime/tools/__init__.py:724-814 | the loop's end follows from the bodies' replies |
| ToolPipeline.ToolExecutor.ExecuteOwner | src/proteo_runtime/tools/__init__.py:653-814 | every request's events are an accepted trace; without cancellation it has ended if and only if no exception escaped the approval stage, and its result or error follows from the bodies' replies in turn |
| ToolPipeline.EscapedRequest | src/proteo_runtime/tools/__init__.py:824-839 | a request whose approval cannot be asked for ends with that error and no terminal event, under any policy |
| ToolPipeline.RejectedAtTheSecondAttempt | src/proteo_runtime/tools/__init__.py:775-786 | a rejected output at the second attempt is reported as one attempt |
| TaskProtocol.RunKeepsInv | src/proteo_runtime/providers/codex/runtime.py:1850-2156 | the invariant tying locks, runs and closing calls holds in every run whose closing call is not cancelled |
| TaskProtocol.StateOnlyMovesForward | src/proteo_runtime/providers/codex/runtime.py:2072-2078 | the state only moves from OPEN to CLOSING to CLOSED |
| TaskProtocol.OneTurnAtATime | src/proteo_runtime/providers/codex/runtime.py:1873-1907 | at most one turn holds the lock, and only its run is registered |
| TaskProtocol.NoRunIsRegisteredOnceClosing | src/proteo_runtime/providers/codex/runtime.py:1990-2050 | once the task is closing no run is registered any more, thanks to the check after the provider's answer |
| TaskProtocol.DestroyedOnlyUnderTheTurnLock | src/proteo_runtime/providers/codex/runtime.py:2093-2137 | thread and workspace are destroyed while the closer holds the turn lock and no run is registered |
| TaskProtocol.ClosedIsAnnouncedOnce | src/proteo_runtime/providers/codex/runtime.py:2138-2156 | TASK_CLOSED is emitted once, and every `close()` returns after CLOSED |
| TaskProtocol.ClosingIsBounded | src/proteo_runtime/providers/codex/runtime.py:2080-2156 | every step of a closing task uses up work, so closing takes a bounded number of steps |
| TaskProtocol.ClosesExactlyWhenNotLeaked | src/proteo_runtime/providers/codex/runtime.py:1959-1968 | a closing task can be closed exactly when its turn lock has not leaked |
| TaskProtocol.LeakIsReachable | src/proteo_runtime/providers/codex/runtime.py:1959-1968 | the lock can leak: a cancellation during the last interrupt skips the release |
| TaskProtocol.CancelledCloserClosesUnderATurn | src/proteo_runtime/providers/codex/runtime.py:2080-2139 | a run in which a cancelled closing call declares the task CLOSED under a running turn |
| TaskProtocol.CancelledCloserExactly | src/proteo_runtime/providers/codex/runtime.py:2080-2139 | a cancelled closing call does so exactly when a turn has the lock and the call was still stopping it or waiting for the lock |
| CodexTask.CodexTask.ArriveTurn | src/proteo_runtime/providers/codex/runtime.py:1931-1942 | a turn is refused unless the task is open and the lock free; otherwise it takes the lock at once |
| CodexTask.CodexTask.ProviderAnswers | src/proteo_runtime/providers/codex/runtime.py:1990-2050 | the state is looked at again after the provider's answer; a run made then is the only one, and its turn has the lock |
| CodexTask.CodexTask.LeaveEvents | src/proteo_runtime/providers/codex/runtime.py:1959-1968 | behind a turn's clean-up the lock is free and no run registered, except for a stream without a terminal status, which keeps both for one more interrupt |
| CodexTask.CodexTask.FinalInterrupt | src/proteo_runtime/providers/codex/runtime.py:1963-1968 | behind that interrupt the lock is free; if it is cancelled the lock has leaked and the task can never be closed |
| CodexTask.CodexTask.ArriveClose | src/proteo_runtime/providers/codex/runtime.py:2072-2078 | after any call of `close()` the task is not open; the call that found it open is the closing one |
| CodexTask.CodexTask.Close | src/proteo_runtime/providers/codex/runtime.py:2072-2085 | under the close lock only a call that finds the task open closes it; another returns only from a closed task or a set event, and else waits with the close lock held |
| CodexTask.CodexTask.TakeTurnLock | src/proteo_runtime/providers/codex/runtime.py:2094-2120 | whoever waited for the turn lock is the closing call; it has the lock, no run is registered, and the thread's deletion starts |
| CodexTask.CodexTask.ThreadDeleted | src/proteo_runtime/providers/codex/runtime.py:2127-2156 | the task is closed, announced once, unregistered and without its workspace, no run is registered and the lock is free |
| CodexTask.CodexTask.CancelClosing | src/proteo_runtime/providers/codex/runtime.py:2080-2156 | the cancelled closing call seals the task, over a running turn exactly in the case above |
| FakeSessions.RegistryMatchesDescriptors | src/proteo_runtime/testing/fakes.py:345-365 | every registry key is its state's descriptor, in every reachable state |
| FakeSessions.ActiveExactlyWhenClaimed | src/proteo_runtime/testing/fakes.py:547-560 | `active` holds exactly while one claim is outstanding, and never two are |
| FakeSessions.ReleasedOnce | src/proteo_runtime/testing/fakes.py:747-749 | on every way out of a turn, streamed or not, its claim is released exactly once |
| FakeSessions.RunningTurnsAreCurrent | src/proteo_runtime/testing/fakes.py:1319-1340 | a running turn's handle is of the current generation |
| FakeSessions.TurnsPinTheirSession | src/proteo_runtime/testing/fakes.py:345-365 | for as long as a turn holds its claim its session keeps descriptor and generation, whatever others do |
| FakeSessions.OnlyIdleStatesMove | src/proteo_runtime/testing/fakes.py:490-530 | resuming and migrating move generations and descriptors only while no turn runs |
| FakeSessions.StaleStaysStale | src/proteo_runtime/testing/fakes.py:1319-1320 | a stale handle stays stale and starts no turn, whatever happens |
| FakeSessions.ResumingOutdatesHandles | src/proteo_runtime/testing/fakes.py:345-365 | resuming or migrating makes every earlier handle stale |
| FakeSessions.MigrationMoves | src/proteo_runtime/testing/fakes.py:510-530 | after a migration the old descriptor leads nowhere, the new one to the same provider session, and others are untouched |
| FakeSessions.DeleteDropsTheHandlesEntry | src/proteo_runtime/testing/fakes.py:1444-1454 | which registry entries a deletion removes: the state's own exactly when the handle's id is its descriptor |
| FakeSessions.AStaleDeleteHitsAnother | src/proteo_runtime/testing/fakes.py:1444-1454 | a stale handle's deletion can remove another session's entry |
| FakeSessions.FakeRuntime.CreateSession | src/proteo_runtime/testing/fakes.py:301-312 | the descriptor leads to the new state, which is idle |
| FakeSessions.FakeRuntime.ActiveWhileHeld | src/proteo_runtime/testing/fakes.py:547-560 | of any runtime object: a state is active exactly while one turn holds it |
| FakeSessions.FakeRuntime.Retain | src/proteo_runtime/testing/fakes.py:301-312 | a new state is registered under its descriptor |
| FakeSessions.FakeRuntime.ResumeSession | src/proteo_runtime/testing/fakes.py:315-367 | which calls are refused and why; otherwise the state found or made, idle, with all its earlier handles stale |
| FakeSessions.FakeRuntime.MigrateSession | src/proteo_runtime/testing/fakes.py:477-530 | which calls are refused and why; otherwise the state moved to its new descriptor, idle, with all its earlier handles stale |
| FakeSessions.FakeRuntime.HandOut | src/proteo_runtime/testing/fakes.py:1297-1302 | a handle takes its state's descriptor and generation when it is built, behind the dispatch, and can start a turn unless the state was deleted |
| FakeSessions.FakeRuntime.Claim | src/proteo_runtime/testing/fakes.py:547-554 | a claim succeeds exactly for a fresh handle on an idle state, which its turn alone then holds |
| FakeSessions.FakeRuntime.LeaveExecute | src/proteo_runtime/testing/fakes.py:747-749 | no turn holds the state and it is idle, unless a completed turn goes on as a stream and alone keeps holding it |
| FakeSessions.FakeRuntime.LeaveStream | src/proteo_runtime/testing/fakes.py:1413-1417 | no turn holds the state any more and it is idle |
| FakeSessions.FakeRuntime.DeleteSession | src/proteo_runtime/testing/fakes.py:1444-1454 | no handle of the state can start a turn any more; the first deletion takes the handle's id, and nothing else, out of the registry and closes the handle |
| SchemaNormalizer.VisitIsStrict | src/proteo_runtime/providers/codex/_structured.py:106-143 | in every output, object nodes are closed and require all they declare, and no `default` is left |
| SchemaNormalizer.ChangesExactlyTheNonStrict | src/proteo_runtime/providers/codex/_structured.py:106-143 | normalisation changes exactly the schemas that are not strict, and is idempotent, on all JSON |
| SchemaNormalizer.ExtendRequired | src/proteo_runtime/providers/codex/_structured.py:121-130 | the loop appends exactly the declared names that are missing, in order and once each |
| SchemaNormalizer.Normalize | src/proteo_runtime/providers/codex/_structured.py:89-143 | the code that fills a dict in place computes the recursion the lemmas are about |
| SchemaMeaning.NormalisedMeaning | src/proteo_runtime/providers/codex/_structured.py:106-143 | a value is valid under the normalised schema exactly when it is valid under the strict reading of the original, and then it is valid under the original |
| SchemaMeaning.PropertiesShutOutObjects | src/proteo_runtime/providers/codex/_structured.py:106-143 | a node that declares a property named "properties" accepts no object once it is normalised |
| SchemaMeaning.APropertyNamedProperties | src/proteo_runtime/providers/codex/_structured.py:106-143 | a schema and an object it accepts, also in its strict reading, which its normalised form refuses |
| TurnRun.EveryTraceIsWellFormed | src/proteo_runtime/providers/codex/_runner.py:140-337 | on every path, stopped or not: numbers without gaps, the opening events, and a result exactly on completion |
| TurnRun.StreamedTextsAreTheDeltas | src/proteo_runtime/providers/codex/_runner.py:198-207 | the streamed events carry the deltas the run keeps, once each and in order |
| TurnRun.OneTerminalExactly | src/proteo_runtime/providers/codex/_runner.py:224-337 | how many terminal events any notification sequence and ending lead to, and exactly when it is one |
| TurnRun.CompletedAndThenCutOff | src/proteo_runtime/providers/codex/_runner.py:284-322 | a completed turn whose stream then breaks has two |
| TurnRun.StoppedExactly | src/proteo_runtime/providers/codex/_runner.py:165-337 | a cancellation during a dispatch inside the stream ends the trace with CANCELLED, its one terminal event exactly when none came before; a consumer that leaves adds none |
| TurnRun.OrderlyRuns | src/proteo_runtime/providers/codex/_runner.py:174-337 | with a provider whose completion comes last, exactly one terminal event, at the end, a completion with the result exactly when the turn completed |
| TurnRun.ReturnsExactly | src/proteo_runtime/providers/codex/_runner.py:193-337 | the consumer gets no exception exactly when a turn completed, none failed and the stream ended |
| TurnRun.StreamedTextIsTheOutput | src/proteo_runtime/providers/codex/_runner.py:344-353 | without agent messages the result is the streamed text |
| TurnRun.Appended | src/proteo_runtime/providers/codex/_runner.py:140-172 | one more event keeps the numbering, the opening events and the place of results, and adds one terminal event exactly if it is one |
| TurnRun.TurnRun.TurnIsOver | src/proteo_runtime/providers/codex/_runner.py:224-283 | the events and fields of each reported status |
| TurnRun.TurnRun.Handle | src/proteo_runtime/providers/codex/_runner.py:194-283 | each kind of notification is a step of the state machine |
| TurnRun.TurnRun.Events | src/proteo_runtime/providers/codex/_runner.py:174-337 | the whole generator, every exception branch, a cancelled dispatch and a consumer that leaves included, emits the run the lemmas are about |
| StructuredLoop.LogicalNumbers | src/proteo_runtime/providers/codex/_structured.py:318-489 | whatever the provider does, the logical stream is numbered 0, 1, 2, … |
| StructuredLoop.FirstValidOutputWins | src/proteo_runtime/providers/codex/_structured.py:340-489 | when no turn fails, the stream ends with the first output that validates or at the last attempt, with k−1 retry events and one terminal event, at the end |
| StructuredLoop.TerminalEventExactly | src/proteo_runtime/providers/codex/_structured.py:340-489 | at most one terminal event, and exactly when there is one |
| StructuredLoop.AFailedTurnIsTheEnd | src/proteo_runtime/providers/codex/_structured.py:340-365 | a stream whose turn fails is its opening event and nothing else |
| StructuredLoop.NoResultIsMissing | src/proteo_runtime/providers/codex/_structured.py:352-365 | the branch for a missing result is never taken |
| StructuredLoop.LastIsFirst | src/proteo_runtime/providers/codex/_structured.py:340-489 | every attempt before the last one had an invalid output and could be repeated |
| StructuredLoop.StructuredCodexModel.ForwardAll | src/proteo_runtime/providers/codex/_structured.py:368-385 | provider events are forwarded under logical numbers, up to where a dispatch raises |
| StructuredLoop.StructuredCodexModel.MakeAttempt | src/proteo_runtime/providers/codex/_structured.py:340-419 | an attempt's run is unregistered before anything is said about it, on every path |
| StructuredLoop.StructuredCodexModel.Events | src/proteo_runtime/providers/codex/_structured.py:301-489 | the loop emits the logical stream, or a prefix when a dispatch raises or the consumer leaves, and no run stays registered |
| Usage.AggregateComposes | src/proteo_runtime/providers/codex/_structured.py:195-220 | aggregates of groups of attempts aggregate to that of all attempts, unreported counters included, exactly when no group is empty or there is one empty group only |
| Usage.RetriesAreTheRetryEvents | src/proteo_runtime/providers/codex/_structured.py:195-220 | the retries in a structured result are the RETRY_SCHEDULED events of its stream |
| EventBus.RunKeepsInv | src/proteo_runtime/observability/bus.py:180-226 | locks, queues and observers' logs stay consistent in every run whose emits find their invocation's lock in the dict or nothing of it on its way |
| EventBus.FanOutsNeverOverlap | src/proteo_runtime/observability/bus.py:183-188 | two fan-outs of one invocation never overlap in such a run |
| EventBus.EveryObserverSeesTheSame | src/proteo_runtime/observability/bus.py:189-222 | at rest every observer was called once per distinct event id, in the order of first emission, whichever calls fail |
| EventBus.NeverStuck | src/proteo_runtime/observability/bus.py:183-226 | in every run, while an emit has not returned some step can be taken |
| EventBus.ComesToRest | src/proteo_runtime/observability/bus.py:183-226 | without new emits only a bounded number of steps is left |
| EventBus.DiagnosedOnce | src/proteo_runtime/observability/bus.py:277-311 | exactly the observers that failed are diagnosed, once per invocation id however often they fail, events without one counting together |
| EventBus.TwoTerminalsAreTimely | src/proteo_runtime/observability/bus.py:129-136 | an interrupted turn's two terminal events are within the assumption |
| EventBus.LateStartsOverlapExactly | src/proteo_runtime/observability/bus.py:180-226 | an emit that starts outside it leads to an overlap exactly when somebody observes, its id is new, and an emit on its way is being fanned out or will be |
| EventBus.LateRepeatsLeaveALock | src/proteo_runtime/observability/bus.py:180-226 | one of a known id does not, but leaves a lock in the dict: a later start then counts as within the assumption and overlaps exactly when a start outside it would |
| EventBus.LateStartsOverlap | src/proteo_runtime/observability/bus.py:224-226 | a run with two simultaneous fan-outs of one invocation |
| EventBus.RuntimeEventBus.Emit | src/proteo_runtime/observability/bus.py:180-193 | an emit waits only behind an earlier one of its invocation on the same lock, returns at once only for a repeated id, and is fanned out alone |
| EventBus.RuntimeEventBus.Acquired | src/proteo_runtime/observability/bus.py:187-206 | behind the lock a new id is marked and the first observer called with it; a known one returns without a call |
| EventBus.RuntimeEventBus.Wake | src/proteo_runtime/observability/bus.py:185-193 | the first waiter goes on, all earlier emits of its invocation having returned |
| EventBus.RuntimeEventBus.ObserverDone | src/proteo_runtime/observability/bus.py:203-226 | whether the call succeeded or not, the next observer gets the same event, or the emit returns behind the last one; a failure is diagnosed |
| EventBus.RuntimeEventBus.Release | src/proteo_runtime/observability/bus.py:224-226 | the lock is free with its queue as it was, and a terminal event's lock is out of the dict, others stay |
| Projection.NothingHiddenLeaks | src/proteo_runtime/observability/bus.py:425-538 | payloads and metadata that differ only under secret-shaped keys or in excluded entries project to equal outputs in every mode |
| Projection.ProjectHides | src/proteo_runtime/observability/bus.py:498-538 | the same for values at any depth and under any key |
| Projection.RedactHides | src/proteo_runtime/observability/bus.py:445-495 | the same for redacted metadata |
| Projection.RedactionLeavesTheShape | src/proteo_runtime/observability/bus.py:498-538 | a redacted payload does not depend on any text or number, save texts under session keys |
| Projection.MetadataIsOperational | src/proteo_runtime/observability/bus.py:432-442 | metadata in metadata-only mode has no sensitive and no excluded key at any depth, and no secret-shaped key at the top |
| Projection.FullTwice | src/proteo_runtime/observability/bus.py:498-538 | a second full projection changes nothing if and only if no visible value without a textual form sits under a session key or has a class name the scrubbing changes |
| Projection.AnObjectUnderASessionKey | src/proteo_runtime/observability/bus.py:498-538 | an object under a session key is projected to something else the second time |
| LangSmith.RunConserves | src/proteo_runtime/observability/langsmith.py:130-192 | every run the client created is open or was updated, never both and never twice, over every event sequence and whatever the client does, counting runs by their creation |
| LangSmith.DistinctIdsAreEnough | src/proteo_runtime/observability/langsmith.py:161-192 | with distinct ids the client sees no id updated twice, and links of open runs only to ids not updated |
| LangSmith.IdsUpdatedOnceExactly | src/proteo_runtime/observability/langsmith.py:161-192 | however the open runs are ended, no id is updated twice if and only if the ids handed out are distinct |
| LangSmith.SharedLinksGoStale | src/proteo_runtime/observability/langsmith.py:146-192 | a link goes stale, without any further creation, when the id of its parent is also that of a run that was updated or can be updated while the linked run stays open |
| LangSmith.LinksStayLiveExactly | src/proteo_runtime/observability/langsmith.py:59-192 | however the open runs are ended, no open run is linked to an updated id if and only if no parent's id is shared by such a run: one already updated, one of another invocation, or one other than the linked run itself that is neither an invocation's nor a turn's |
| LangSmith.SilentClientsMixUpRuns | src/proteo_runtime/observability/langsmith.py:160-192 | two invocations of a client that returns nothing, whose runs are named by their slots, reach that state |
| LangSmith.ConstantClientsMixUpRuns | src/proteo_runtime/observability/langsmith.py:103-192 | one invocation of a client that returns the same object every time: the end of its tool updates the id its turn is linked to |
| LangSmith.SilentTurnsMixUp | src/proteo_runtime/observability/langsmith.py:79-192 | an invocation's second turn goes by the id of its first, which was updated |
| LangSmith.HandleSparesOthers | src/proteo_runtime/observability/langsmith.py:59-192 | an event touches no run of another invocation |
| LangSmith.AfterTheEnd | src/proteo_runtime/observability/langsmith.py:163-192 | what a terminal event leaves open, and exactly when it is nothing |
| LangSmith.ToolEndsFinishTheLatest | src/proteo_runtime/observability/langsmith.py:103-117 | a tool's end without a run of its own finishes the tool run opened last |
| LangSmith.RunNests | src/proteo_runtime/observability/langsmith.py:59-192 | open runs keep their parents open, over every event sequence in which the updates of ends do not raise |
| LangSmith.HandleNests | src/proteo_runtime/observability/langsmith.py:59-128 | no other event can break the nesting, whatever the client does |
| LangSmith.EndNestsExactly | src/proteo_runtime/observability/langsmith.py:163-192 | an end keeps the nesting exactly when no run behind the failing update, in the order of opening, hangs below an invocation or turn at or before it |
| LangSmith.AFailureLeavesAnOrphan | src/proteo_runtime/observability/langsmith.py:175-192 | a failing update can leave a turn open below a closed invocation |
| LangSmith.LangSmithObserver.CreateRun | src/proteo_runtime/observability/langsmith.py:130-161 | a run is created for a key that is not open, linked to its parent if that has an id, and identified by what the client returned or else by its slot's name |
| LangSmith.LangSmithObserver.FinishKeys | src/proteo_runtime/observability/langsmith.py:175-192 | runs leave the map in order, and the first exception ends the loop |
| LangSmith.EndLeaves | src/proteo_runtime/observability/langsmith.py:163-173 | an end takes away the runs it selects, a turn's end all of the invocation's but its own, in order and up to the failing update |
| LangSmith.LangSmithObserver.HandleEvent | src/proteo_runtime/observability/langsmith.py:59-128 | an event keeps conservation and nesting, touches no other invocation, and an invocation's end leaves none of its runs open unless an update raises |
| Text.EncodeFailsOnSurrogates | src/proteo_runtime/core/session_codec.py:82-84 | a text has a UTF-8 form exactly when it holds no surrogate |
| Text.DecodeEncoded | src/proteo_runtime/core/session_codec.py:103 | decoding gives an encoded text back |
| Text.EncodeDecoded | src/proteo_runtime/core/session_codec.py:103 | a byte string that can be decoded is the encoding of what it decodes to |
| Base64Url.PaddingIsRestored | src/proteo_runtime/core/session_codec.py:85-102 | a token's length is never 1 modulo 4, the padding formula restores what was stripped, and the bytes come back |
| JsonText.RoundTrip | src/proteo_runtime/core/session_codec.py:82-103 | every JSON value comes back from its own text |
| JsonText.ScanPrinted | src/proteo_runtime/core/session_codec.py:82-84 | every string comes back from its escaped form, surrogates included |
| SessionCodec.EncodesExactly | src/proteo_runtime/core/session_codec.py:64-87 | encoding succeeds exactly when no field is empty and none holds a surrogate |
| SessionCodec.RoundTrip | src/proteo_runtime/core/session_codec.py:64-117 | decoding an encoded descriptor gives it back, with and without a nonce |
| SessionCodec.KeysAreSorted | src/proteo_runtime/core/session_codec.py:82-84 | the payload's entries come in strictly ascending order of their keys' code points, with and without a nonce |
| SessionCodec.EncodeIsInjective | src/proteo_runtime/core/session_codec.py:64-87 | distinct descriptors have distinct tokens |
| SessionCodec.AcceptedCanBeEncoded | src/proteo_runtime/core/session_codec.py:95-117 | what decoding accepts has no empty field, and encoding it again gives a token for the same descriptor unless it holds a surrogate |
| RunTree.EndsExactlyWhenAcyclic | examples/smart_quote_agent/inspect_observability.py:174-189 | the recursion's depth is bounded exactly when no walk from a root repeats a row |
| RunTree.DistinctIdsAreAcyclic | examples/smart_quote_agent/inspect_observability.py:150-160 | with distinct ids no walk repeats a row, whatever the parent links |
| RunTree.ARepeatedIdNeedNotEnd | examples/smart_quote_agent/inspect_observability.py:185-189 | two rows of one id are enough for an endless recursion |
| RunTree.TreeListsAllWalks | examples/smart_quote_agent/inspect_observability.py:174-194 | the tree has one line for every walk and no other, in tree order |
| RunTree.OneLinePerRootedRow | examples/smart_quote_agent/inspect_observability.py:150-194 | with distinct ids, exactly one line for a row whose parent links reach a root, none for others |
| RunTree.LinesAreInOrder | examples/smart_quote_agent/inspect_observability.py:174-194 | parents before children, siblings and roots in input order |
| RunTree.Group | examples/smart_quote_agent/inspect_observability.py:150-160 | the loop splits the rows into roots and children by parent |
| RunTree.ChildrenMapHasChildren | examples/smart_quote_agent/inspect_observability.py:150-160 | an id's entry in the map is the list of its children in input order |
| RunTree.RenderNode | examples/smart_quote_agent/inspect_observability.py:174-189 | the recursion yields the texts of the lines below a walk |
| RunTree.BuildTree | examples/smart_quote_agent/inspect_observability.py:138-194 | the program's output is the texts of the tree's lines |
| InvocationStatus.Derive | examples/smart_quote_agent/telemetry_db.py:530-547 | the backward loop finds the status of the last event that has one |
| InvocationStatus.ScanIsTheQuery | examples/smart_quote_agent/telemetry_db.py:573-585 | the scan over the events fetched in order and the subquery over the table give one and the same status |
| Quotes.DiscountIsHalfUp | examples/smart_quote_agent/database.py:187-205 | the discount is the one whole number of cents within half a cent of the exact share, ties upwards, and at most the subtotal |
| Quotes.StoredKeepsConsistent | examples/smart_quote_agent/database.py:546-579 | a stored quote leaves all quotes equal to the sums of their lines, and every line with its quote |
| Quotes.Database.Price | examples/smart_quote_agent/database.py:522-540 | the loop accepts exactly sellable lines and prices them from the database |
| Quotes.Database.InsertLines | examples/smart_quote_agent/database.py:566-578 | the lines go in under the quote's number, all of them unless a statement raises |
| Quotes.Database.Persist | examples/smart_quote_agent/database.py:474-583 | a quote is stored with its lines exactly when the request is acceptable and no write raises; otherwise the tables are as they were, and the first failed check is named |

## Left out

Assumptions on the environment:

- Event sinks do not raise; provider clients, tools and observers may, as the modules say.
- Invocation ids are not reused after `end_invocation`, and the closing call of a task is not itself cancelled; lemmas show what happens otherwise.
- An emit is not cancelled and the bus is not closed while it runs; the projection of an event does not raise (a lone surrogate under a session key has no digest, and no later observer is then called).
- An approval handler's call that raises `CancelledError` itself counts as a cancellation of the request.
- LangSmith events are handled one at a time; in the source two invocations can be handled by two threads at once.

Parts of the modelled code that are not there:

- `clone` and executors sharing one event list: the events of several executors are numbered separately.
- `ToolCalls`: `_active_invocation_id` and the per-invocation lock of `execute`, which is never held across an await.
- `SchemaNormalizer`: a `required` list with an unhashable entry, on which the source raises `TypeError`; `oneOf`, `not`, `if`, `$ref` and the like are outside the meaning, though not outside the transformation.
- `SessionCodec`: the prefix check's `isinstance`, the recursion limit and the limit on the length of integers of Python's JSON parser; how many surplus padding characters its base64 decoder accepts, which depends on the Python version.
- `JsonText.ParseValue`: numbers are kept as they are written; which of them are worth 1 is a parameter of `SessionCodec.Decode`.
- `EventBus`: `seen` and the diagnosed observers are kept as pairs where the source joins the two parts with a colon, so an id that reads like another key's is told apart; the enrichment of terminal results and the strict mode's error, which is raised after the fan-out; bindings that are disabled are not counted as observers.
- `Projection`: keys that are not strings; the projection of diagnostics and the defaults `_project_event` adds to the metadata.
- `LangSmith`: inputs, outputs, tags and times of runs; parents supplied by a LangGraph host; the second try of `_call_client` on a `TypeError`, which counts as one call.
- `FakeSessions`: tool bindings, archived flags and the contents of turns; `resume_session` on task ids, which is refused like an unknown session.
- The Codex runtime's `resume_session` and `migrate_session`, which await between the busy check and the change.
- `TurnRun`: results that a sink replaces, usage fields and raw payloads; interrupting the provider on cancellation, and a second cancellation while that is under way, which skips CANCELLED.
- `StructuredLoop`: validation paths and feedback texts; interrupting a turn that has no terminal status.
- `Usage`: the rounding of durations, and the raw attempt count.
- `RunTree`: parsing a row's metadata for the tool name.
- `InvocationStatus`: the other columns of the summary query.
- `Quotes`: subtotals beyond Decimal's 28 digits, which the database refuses in any case; the order of lookups that fail inside SQLite.
- SDK calls, workspaces, authentication, SQLite storage, OpenTelemetry, LangGraph wiring and the command line.
