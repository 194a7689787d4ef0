# A verified model of the agent runtime

This project models the logic of the agent runtime that is hardest to get right and proves
properties of it in Dafny. `dafny verify dfyconfig.toml` verifies all of it.

The parts, in the runtime's own terms:

- **Orchestrator.** `SessionProtocol` interleaves session creation, teardown, pause, resume, health
  checks and `Close` at their locks and remote calls. `Orchestrators` and `SessionEntries` are the
  same operations as methods, one call at a time, over the calls to the outside in `RemoteCalls`.
- **Sandbox host.** `SandboxSessions` is the host as a function of its state: each session's
  snapshot list beside the snapshot store in `SnapshotStore`. `SandboxHosts` is the object that
  computes it, and `TurnRuns` follows turns after a rollback. `ToolAdmission` interleaves tools and rollbacks at the session lock.
- **Agent.** `AgentProtocol` interleaves the native driver with prompts, stops and control commands.
  `DriverRuns` is the turn loop as a function of the provider's answers, the tools' outcomes and the
  waiting commands, and `NativeDrivers` the methods that compute it, over `DriverLog`, the automaton
  of a well-ordered log, and `ControlQueues`.
- **Conversation transform.** `Transform` with its facts in `TransformFacts`, `TransformBlocks` and
  `TransformRenaming`, over the messages in `Conversation`.
- **Streams.** `Sse`, `SseScanner` and `SsePrinter` for server-sent events; `OpenAIStream` and
  `OpenAIProcessor` for completion chunks; `EventStreams` for the one-shot result.
- **Tools and helpers.** The calculator (`Calc`, `CalcParser`, `CalcFacts`, `CalcPrinter`), the `**`
  matcher (`Glob`), the terminal ring buffer (`Scrollback`) and `EmbeddingBatch`.

Code that changes state step by step is a class or a method with loops. Its contract equates the
new state and the reply with a function of the old state, or states the property outright. The
theorems are then about those functions.
A protocol is a `State`, an `Action`, `Enabled` and `Apply`; its theorems quantify over every run,
that is every sequence of enabled actions. Replies of remote services, tools, providers, JSON code,
clocks and contexts are parameters, so the theorems hold for all of their answers.

Bytes are modelled as characters. Errors are datatypes that keep which error it is and the data the
source puts into it, not the wording.

Where code and documentation differ, or the code does less than one expects of it, the code is
modelled. These cases matter here:

- Two overlapping rollbacks of one session do not exclude tools during the second one.
  `ToolAdmission` gives such a run and proves exactly when a tool can enter.
- A second `Close` returns at once, also while the first is still at work. `SessionProtocol` gives
  such a run and proves what each returning call leaves.
- Retention forgets a snapshot also when the store fails to destroy it. `SandboxSessions` proves
  exactly when list and store part, and `TurnRuns` gives a script after which they have.
- A rollback counts only the turns still listed, so that some later turn may be refused because a
  listed snapshot has its name. `TurnRuns` proves for every list and every later turn exactly when,
  and gives a script that ends in a refused turn.
- The calculator's own white-space test looks at bytes and `strings.TrimSpace` at UTF-8 text. Both
  are modelled as they are, in `Whitespace`, with the texts that are white space to both.

## Model

| member | source | states |
|---|---|---|
| `SessionProtocol.RunsAreSafe` | internal/orchestrator/proxy.go:71-199 | At every moment of every interleaving of creates, destroys, pauses, resumes, health checks and Close: every sandbox created is owned by a registered session or an unfinished operation unless its destroy call was made; a positive MaxSessions is never exceeded; the health record agrees with the state; an unhealthy session refuses proxy calls |
| `SessionProtocol.CloseLeavesNothing` | internal/orchestrator/orchestrator.go:108-150 | Once the first call of Close has returned no session is registered and every sandbox ever created has had its destroy call |
| `SessionProtocol.ReturningCloseLeaves` | internal/orchestrator/orchestrator.go:108-150 | The first Close leaves no session and no sandbox when it returns. A later call returns at once; every sandbox has then been told to go exactly when no operation and no registered session answers for one that was not |
| `SessionProtocol.SecondCloseReturnsEarly` | internal/orchestrator/orchestrator.go:108-113 | A concrete run in which later calls of Close return with a session registered, while the first waits for operations and while it tears down |
| `SessionProtocol.ClosedForever` | internal/orchestrator/orchestrator.go:67-150 | After Close nothing is created or registered any more, for the rest of the run |
| `SessionProtocol.DestroyedForever` | internal/orchestrator/proxy.go:555-608 | A session marked destroyed stays destroyed through any later health check, pause, resume or close that still holds its record |
| `SessionProtocol.StepKeepsInv` | internal/orchestrator/proxy.go:71-199 | The invariant behind the run theorems (ownership, capacity, locks, teardown progress, names) is kept by every atomic step |
| `SessionProtocol.StepKeepsDestroyed` | internal/orchestrator/health.go:42-95 | No single step, stale health write included, revives a destroyed record |
| `SessionProtocol.RunKeepsInv` | internal/orchestrator/proxy.go:555-608 | The invariant holds in every state of every run |
| `SessionEntries.SessionEntry.SnapshotProxyTarget` | internal/orchestrator/proxy.go:235-253 | An unhealthy session is refused with its health error; a success gives the connected service and a non-blank remote id or the own id |
| `SessionEntries.SessionEntry.FinishHealthCheck` | internal/orchestrator/health.go:42-95 | The write half of a health check gives the record the specified new state and keeps failures and error in step with the state |
| `SessionEntries.SessionEntry.Pause` | internal/orchestrator/proxy.go:255-290 | Pausing returns the specified error, makes the specified calls (a lossy pause aborts the turn first) and change, and keeps the health record coherent |
| `SessionEntries.SessionEntry.Resume` | internal/orchestrator/proxy.go:292-347 | Resuming returns the specified error, makes the specified calls (an unreachable process is killed, a replaced connection closed) and change, and keeps the health record coherent |
| `SessionEntries.LastProbeDecides` | internal/orchestrator/health.go:42-95 | After any run of probe verdicts the last one alone decides whether calls are proxied and with which error they are refused; the failure count is the length of the failing tail |
| `RemoteCalls.CreationGivesBack` | internal/orchestrator/proxy.go:71-143 | Whichever step of a creation fails, the compensating calls give back exactly what was acquired; a success holds exactly its sandbox, process, connection and remote session |
| `RemoteCalls.TeardownGivesBackIff` | internal/orchestrator/proxy.go:555-608 | Tearing down a created session gives back all of it exactly when the backend gave its sandbox and its process a name |
| `RemoteCalls.ResumeHolds` | internal/orchestrator/proxy.go:292-347 | A failed resumption leaves nothing behind; a successful one holds the new process and swaps the connection |
| `Orchestrators.Orchestrator.BeginOperation` | internal/orchestrator/orchestrator.go:67-76 | Operations are refused exactly while closing, and counted otherwise |
| `Orchestrators.Orchestrator.EndOperation` | internal/orchestrator/orchestrator.go:78-80 | Ends one counted operation |
| `Orchestrators.Orchestrator.AddSession` | internal/orchestrator/session.go:56-70 | Registers or refuses by closing flag, duplicate and capacity, and never exceeds a positive MaxSessions |
| `Orchestrators.Orchestrator.CreateRemoteAgentSession` | internal/orchestrator/proxy.go:71-143 | Makes exactly the specified calls in order for every combination of replies, returns the cause joined with the errors of the compensating calls, registers only on full success, and fills the record |
| `Orchestrators.JoinErrors` | internal/orchestrator/config.go:159-167 | The errors among the answers, in order |
| `Orchestrators.Orchestrator.DestroySessionEntry` | internal/orchestrator/proxy.go:555-608 | Makes all teardown calls in order whatever they answer, returns the errors that matter, marks the record destroyed and removes exactly that session |
| `Orchestrators.Orchestrator.ListSessionEntries` | internal/orchestrator/session.go:88-102 | Lists every registered entry once, by creation time and then by id |
| `Orchestrators.Orchestrator.BeginClose` | internal/orchestrator/orchestrator.go:108-115 | Only the first call goes on |
| `Orchestrators.Orchestrator.FinishClose` | internal/orchestrator/orchestrator.go:117-150 | Tears down every registered session in listing order and then the orchestrator's own services, with all their calls and all their errors, and leaves none registered |
| `Orchestrators.Orchestrator.DestroyAll` | internal/orchestrator/orchestrator.go:123-131 | The loop over the listing makes the calls and collects the errors of each entry in turn |
| `Orchestrators.Orchestrator.CloseOwned` | internal/orchestrator/orchestrator.go:133-149 | Closes the loop service and the controllers that can be closed, and returns their errors |
| `Orchestrators.Orchestrator.StartSession` | internal/orchestrator/proxy.go:102-143 | From the connection on: registers and fills the record on success and otherwise undoes everything |
| `SnapshotStore.KeyIsInjective` | internal/sandbox/zfs/mock.go:265-296 | Keys dataset@name of valid names identify dataset and name |
| `SnapshotStore.OrderIsUnique` | internal/sandbox/zfs/mock.go:330-349 | The listing of a dataset in creation order is unique |
| `SnapshotStore.AppendInOrder` | internal/sandbox/zfs/mock.go:265-296 | A new snapshot comes last in its dataset's listing |
| `SnapshotStore.CutInOrder` | internal/sandbox/zfs/mock.go:298-328 | A rollback leaves the listing up to the target |
| `SnapshotStore.DropInOrder` | internal/sandbox/zfs/mock.go:351-373 | Destroying the oldest snapshot leaves the rest of the listing |
| `SnapshotStore.MockManager.CloneFromSnapshot` | internal/sandbox/zfs/mock.go:92-120 | Creates the clone's dataset or fails with the specified error, malformed snapshot names included |
| `SnapshotStore.MockManager.CreateSnapshot` | internal/sandbox/zfs/mock.go:265-296 | Files a fresh, highest-numbered snapshot under its key, or changes nothing and fails with the specified error |
| `SnapshotStore.MockManager.Rollback` | internal/sandbox/zfs/mock.go:298-328 | Removes exactly the later snapshots of that dataset |
| `SnapshotStore.MockManager.DestroySnapshot` | internal/sandbox/zfs/mock.go:351-373 | Removes exactly that snapshot |
| `SandboxHosts.RunOps` | internal/sandbox/snapshot.go:10-147 | Any script of session creations, turns, named snapshots, tool calls and rollbacks under any store failures leaves exactly the state that the fold of the pure step gives |
| `SandboxHosts.RunNew` | internal/sandbox/snapshot.go:10-147 | From a new host, after any script in which destroys succeed if there is a cap, every list equals the store's snapshots of its dataset in creation order, and without a cap turns are numbered 1..turnCount |
| `SandboxSessions.RunAgrees` | internal/sandbox/snapshot.go:10-147 | The same of the fold: agreement of list and store, and the numbering, from a host without sessions |
| `SandboxSessions.StepIsGood` | internal/sandbox/snapshot.go:10-147 | Every operation keeps that for all sessions |
| `SandboxSessions.RetentionTracksIff` | internal/sandbox/snapshot.go:134-147 | Retention keeps list and store together exactly when the store destroys what the list gives up or the list gives up nothing |
| `TurnRuns.RollbackBlocksTurnsIff` | internal/sandbox/snapshot.go:19-115 | After retention gave up the first a turns and a rollback kept k of the others, the turn after j more calls is refused as taken exactly when 1 <= a <= cap and a <= k + j: at once, or from turn a + 1 on, or never |
| `TurnRuns.LaterTurnRefusedIff` | internal/sandbox/snapshot.go:19-45 | For any list of a session, named snapshots included, and any j, the turn after j more calls is refused as taken exactly when an entry with the name of that or an earlier one of these turns is retained until then |
| `TurnRuns.TurnsReach` | internal/sandbox/snapshot.go:19-45 | What j calls for a turn lead to: all taken, or stuck at a listed name, or stuck at an invalid one |
| `TurnRuns.TurnRefusedAfterRollback` | internal/sandbox/snapshot.go:19-115 | A script from a host without sessions, over a store that never fails, after which a turn is refused |
| `TurnRuns.ListFallsBehindStore` | internal/sandbox/snapshot.go:134-147 | A script with one failing destroy after which the list has one snapshot and the store two |
| `TurnRuns.TurnsFill` | internal/sandbox/snapshot.go:19-45 | A new session that takes t turns lists the last of them, up to the cap |
| `TurnRuns.TurnNameIsValidIff` | internal/sandbox/snapshot.go:19-37 | Which turn names the store takes, by prefix and length |
| `TurnRuns.TurnShifts` | internal/sandbox/snapshot.go:134-147 | A full list of consecutive turns gives up its first turn for the next one |
| `SandboxSessions.TurnTakenIff` | internal/sandbox/snapshot.go:10-45 | A turn gets the next number exactly when the session is active and not rolling back, and the store takes snapshots and the name is valid and not in the list |
| `SandboxSessions.SnapshotTakenIff` | internal/sandbox/snapshot.go:47-66 | A named snapshot is taken exactly when the store takes snapshots and the name is valid and not in the list, and is then appended |
| `SandboxSessions.RolledBackIff` | internal/sandbox/snapshot.go:68-118 | A rollback succeeds exactly when the session is active without tools, the store rolls back and the target is listed; the list then ends at the target and the turns are recounted |
| `SandboxHosts.RunOp` | internal/sandbox/snapshot.go:10-147 | Every single operation is the pure step, for the session it names and for all others |
| `SandboxSessions.TurnNamesDiffer` | internal/sandbox/snapshot.go:19-37 | Turn names determine the turn number |
| `SandboxSessions.NextTurnIsNew` | internal/sandbox/snapshot.go:19-37 | With turns numbered 1..n the next turn's name is not in the list |
| `SandboxHosts.SandboxHost.TrackNamed` | internal/sandbox/snapshot.go:47-66 | A named snapshot is appended exactly when the store took it; no other session changes |
| `SandboxHosts.SandboxHost.CleanupOldSnapshots` | internal/sandbox/snapshot.go:134-147 | Keeps the newest entries up to the cap and asks the store to destroy the others, whatever it answers |
| `SandboxHosts.SandboxHost.CreateSession` | internal/sandbox/service.go:157-236 | A session is registered, or refused with its error and what was cloned destroyed again: the state and the reply are the specified ones, on both backends |
| `SandboxHosts.SandboxHost.TurnComplete` | internal/sandbox/snapshot.go:10-45 | State and reply are the specified ones; all other sessions are untouched |
| `SandboxHosts.SandboxHost.CreateSnapshot` | internal/sandbox/snapshot.go:47-66 | State and reply are the specified ones; all other sessions are untouched |
| `SandboxHosts.SandboxHost.ExecuteTool` | internal/sandbox/execute.go:17-74 | State and reply are the specified ones: refusals in order, the count of active tools restored, the per-tool snapshot reported as tracked |
| `SandboxHosts.SandboxHost.RollbackSession` | internal/sandbox/snapshot.go:68-118 | State and reply are the specified ones: a store failure leaves the session failed with its list; all other sessions are untouched |
| `SandboxHosts.Find` | internal/sandbox/snapshot.go:99-104 | Finds the first entry of that name |
| `SandboxHosts.CountTurns` | internal/sandbox/snapshot.go:106-115 | Counts the turn entries |
| `ToolAdmission.FlagAlwaysExcludes` | internal/sandbox/snapshot.go:77-97 | In every interleaving of lock sections, while the rollback flag is up no tool is in flight |
| `ToolAdmission.InFlightWasAdmitted` | internal/sandbox/execute.go:23-35 | Every tool in flight was admitted at an earlier step, into an active session whose flag was down, and has been in flight since |
| `ToolAdmission.OneRollbackExcludesTools` | internal/sandbox/snapshot.go:77-97 | With at most one rollback at a time no tool is in flight during a rollback |
| `ToolAdmission.StoreRollbackExcludesTools` | internal/sandbox/snapshot.go:77-97 | In general a tool runs beside a rollback only if another rollback that overlapped it has finished since it began |
| `ToolAdmission.LostFlagWasOvertaken` | internal/sandbox/snapshot.go:86-94 | A rollback in flight whose flag is down was overtaken by another that finished |
| `ToolAdmission.FlagLostIff` | internal/sandbox/snapshot.go:86-94 | During a rollback the flag is down exactly when another rollback that overlapped it has finished since it began |
| `ToolAdmission.ToolCanEnterIff` | internal/sandbox/execute.go:23-35 | A tool can enter during a rollback exactly when the session is active and that rollback was overtaken |
| `ToolAdmission.TwoRollbacksDoNot` | internal/sandbox/snapshot.go:86-94 | A concrete run of two overlapping rollbacks in which a tool runs during the second |
| `ToolAdmission.NeverTwo` | internal/sandbox/snapshot.go:77-97 | If none begins beside another there is never more than one |
| `Transform.TransformMessages` | internal/ai/transform.go:12-31 | The loops compute the specified rewriting and filling |
| `Transform.TransformAssistantMessage` | internal/ai/transform.go:33-80 | The block loop computes the specified new content and id map; error and aborted messages are dropped |
| `Transform.InsertSyntheticToolResults` | internal/ai/transform.go:99-151 | The single pass computes the specified filling with results sorted by id |
| `Transform.FlushPending` | internal/ai/transform.go:104-124 | Appends one result per pending call in id order and clears the pending calls |
| `Transform.AwaitCalls` | internal/ai/transform.go:130-134 | Registers the calls of a message as pending |
| `TransformFacts.TransformAnswersAll` | internal/ai/transform.go:12-151 | For every conversation, each tool call in the output is answered before the next assistant message or the end |
| `TransformFacts.TransformKeepsOrder` | internal/ai/transform.go:12-31 | Without the inserted results the output is the rewritten input in its order |
| `TransformBlocks.MadeOnlyForGaps` | internal/ai/transform.go:99-151 | Each inserted result stands in the block of an assistant message, identified by its place, with that call, which no message of the block answers; it is the block's only result for the call, with only greater inserted ids behind it |
| `TransformBlocks.FillIsBlockwise` | internal/ai/transform.go:99-151 | The single pass with its pending map equals, block by block, the assistant message, what follows it, and one result per unanswered id in order |
| `TransformBlocks.TransformIsIdempotent` | internal/ai/transform.go:12-151 | Without a normalizer a second application changes nothing |
| `TransformRenaming.ResultKeepsItsCall` | internal/ai/transform.go:12-151 | With distinct call ids and an injective renaming, a result behind its call stands behind that call in the whole transform's output and names that call and no other |
| `TransformRenaming.OrphanStaysOrphan` | internal/ai/transform.go:12-151 | A result without a retained call is in the whole transform's output unchanged and answers no other call |
| `TransformRenaming.SpotRises` | internal/ai/transform.go:12-151 | Retained messages keep their order through both passes |
| `TransformRenaming.MapHolds` | internal/ai/transform.go:61-67 | The id map sends each renamed call's id to its new id and mentions no other id |
| `TransformRenaming.RewriteAt` | internal/ai/transform.go:12-31 | Where each retained message stands in the output and what it became |
| `TransformRenaming.CallsOfNewContent` | internal/ai/transform.go:56-69 | Rewriting keeps a message's calls in order under their new ids and old names |
| `Conversation.OpenMeans` | internal/ai/transform.go:126-145 | The ids left open are those of the last assistant message without a later result |
| `Conversation.CompleteAnswersAll` | internal/ai/transform.go:126-151 | A conversation that never leaves a call open answers all calls |
| `Conversation.ExtractToolCalls` | internal/agent/loop.go:342-353 | Returns the tool calls of a message in order |
| `StringOrder.SortedKeys` | internal/ai/transform.go:108-112 | Sorting the collected keys gives the one sorted listing of the set, whatever order they came in |
| `AgentProtocol.HistoryIsPath` | internal/agent/agent.go:118-141 | In every run of callers and driver the state history is a path in the transition table that ends at the current state |
| `AgentProtocol.DriverIsNeverRefused` | internal/agent/loop.go:89-182 | The driver's own transitions are refused only if the agent has exited |
| `AgentProtocol.ExitedForever` | internal/agent/agent.go:9-31 | An exited agent stays exited |
| `AgentProtocol.LogIsInOrder` | internal/agent/loop.go:131-182 | The log never has a message out of place, and results are owed only while the driver is at its tools or after a stop |
| `AgentProtocol.ProviderSeesAnswers` | internal/agent/loop.go:184-214 | At every provider call the transformed log answers all calls; each inserted result is the one result for a call that a terminal tool cut off, in that call's block; without failed answers every block is exactly its results, user messages and one inserted result per id cut off |
| `AgentProtocol.FollowUpsAreConserved` | internal/agent/loop.go:270-299 | Across runs, delivered follow-ups followed by those held equal in order all follow-ups drained ahead of the first abort of their batch, and every accepted command is in a batch, in hand or queued |
| `AgentProtocol.DeliveredOnlyWithoutSteer` | internal/agent/loop.go:288-297 | A follow-up is delivered one at a time and only when no steer is pending |
| `AgentProtocol.StepKeepsInv` | internal/agent/agent.go:143-240 | Every step of a caller or the driver keeps history, position, log and ledger invariants |
| `AgentProtocol.RunKeepsInv` | internal/agent/loop.go:53-129 | The invariants hold in every state of every run |
| `DriverLog.QuietMeans` | internal/agent/loop.go:157-177 | In a log that owes nothing each assistant message is followed by the results of its calls in order, all of them unless cut at a terminal tool |
| `DriverLog.OwingMeans` | internal/agent/loop.go:165-173 | While results are owed the log ends in the asking message and the results so far |
| `DriverLog.QuietNeedsLittle` | internal/ai/transform.go:99-151 | For such a log each inserted result is the one result for a call that a terminal tool cut off, in that call's block |
| `DriverLog.QuietBlock` | internal/ai/transform.go:99-151 | What stands behind an assistant message of such a log without failed answers: n results in call order, then user messages, and the ids left unanswered are those of the calls cut off |
| `NativeDrivers.NativeDriver.Run` | internal/agent/loop.go:89-129 | For every script of provider answers, every way it ends (a failing call or a cancellation, in a turn or between turns), every prompt and every waiting command, the agent, all contexts sent, what is left waiting and the number of turns are those of the function of the run |
| `DriverRuns.RunIsFine` | internal/agent/loop.go:89-129 | After any run the agent is idle, the log owes nothing and extends the old one, the history is a path, and everything ever sent answers all its calls |
| `DriverRuns.DriveConserves` | internal/agent/loop.go:270-299 | A run whose first turn fails or is never begun leaves the commands waiting; otherwise what was held and waiting ahead of an abort is, in order, what was delivered and what is held |
| `DriverRuns.TurnIsFine` | internal/agent/loop.go:131-182 | The same of one turn |
| `DriverRuns.ResultsFinish` | internal/agent/loop.go:165-176 | Running the calls in order up to a terminal one leaves nothing owed |
| `NativeDrivers.NativeDriver.OnePass` | internal/agent/loop.go:137-177 | One pass of the turn's loop ends the turn or goes on to the same end |
| `NativeDrivers.NativeDriver.Advance` | internal/agent/loop.go:111-127 | One turn and the decision after it |
| `NativeDrivers.NativeDriver.ExecuteSingleTurn` | internal/agent/loop.go:131-182 | Agent, contexts, failure and answers left are those of the function of the turn |
| `NativeDrivers.NativeDriver.ExecuteTools` | internal/agent/loop.go:165-176 | Logs the specified results in order up to the first terminal tool, and says whether there was one |
| `NativeDrivers.NativeDriver.ExecuteTool` | internal/agent/loop.go:216-268 | Logs exactly the specified result: text and error flag for a missing tool, a failing one and a successful one; fails without a session |
| `NativeDrivers.NativeDriver.CallProvider` | internal/agent/loop.go:184-214 | Sends the transformed log |
| `NativeDrivers.NativeDriver.AppendUserMessage` | internal/agent/loop.go:301-314 | Appends the trimmed prompt unless it is blank |
| `NativeDrivers.AgentRecord.SetSession` | internal/agent/agent.go:95-107 | Takes over the session's log and history, starting an empty history with the current state, or drops the session |
| `NativeDrivers.AgentRecord.Transition` | internal/agent/agent.go:118-141 | Follows the transition table and keeps the history a path |
| `NativeDrivers.AgentRecord.AppendConversation` | internal/agent/agent.go:276-286 | Appends to the log or fails without a session |
| `NativeDrivers.LookupTool` | internal/agent/loop.go:320-327 | Finds the first tool of that name |
| `ControlQueues.ControlQueue.Enqueue` | internal/agent/control_queue.go:64-83 | Appends the command or returns the specified error |
| `ControlQueues.ControlQueue.Drain` | internal/agent/control_queue.go:85-98 | Takes everything out in order |
| `ControlQueues.AbsorbAdmits` | internal/agent/loop.go:276-286 | A batch adds its follow-ups ahead of the first abort, in order |
| `ControlQueues.DecideConserves` | internal/agent/loop.go:270-299 | A decision neither loses nor duplicates a follow-up and prefers a steer |
| `ControlQueues.Steering.NextPromptFromControlQueue` | internal/agent/loop.go:270-299 | The loop makes that decision and conserves the follow-ups |
| `SsePrinter.RoundTrip` | internal/ai/sse/sse.go:77-200 | Scanning the printed form of any clean events within the limits returns exactly those events |
| `SsePrinter.EventsAreClean` | internal/ai/sse/sse.go:92-192 | Every event of any stream is clean, so the clean events are exactly the ones that can come out |
| `SsePrinter.PrintNormalises` | internal/ai/sse/sse.go:77-200 | For every stream and limits: scanning, printing and scanning again with three more bytes per line changes nothing |
| `SsePrinter.EventsFit` | internal/ai/sse/sse.go:92-192 | Every event of any stream fits, when printed, into the same event limit and three more bytes per line |
| `SsePrinter.ScanPrinted` | internal/ai/sse/sse.go:92-192 | A printed event is scanned as that event, with the rest of the stream untouched |
| `SseScanner.ScanStream` | internal/ai/sse/sse.go:54-200 | Calling Next until it fails returns the specified events and error, wherever the reader's buffer fills up |
| `SseScanner.Scanner.Next` | internal/ai/sse/sse.go:92-192 | Stops at the event, end or error that the stream's lines determine, and keeps an earlier error |
| `SseScanner.Scanner.ReadLine` | internal/ai/sse/sse.go:77-90 | Returns exactly the next line however it was split over buffers |
| `SseScanner.Scanner.ProcessLine` | internal/ai/sse/sse.go:115-191 | One line changes the event under construction as specified |
| `SseScanner.Scanner.StoreField` | internal/ai/sse/sse.go:167-181 | Adds one field, joining data lines by newlines |
| `SseScanner.Scanner.GetEvent` | internal/ai/sse/sse.go:194-203 | Converts the data once and returns the same event every time |
| `SseScanner.Scanner.SetLimits` | internal/ai/sse/sse.go:63-75 | Replaces only the positive limits |
| `Sse.ScanAllBounds` | internal/ai/sse/sse.go:92-192 | On any input whatsoever no event's data exceeds the limit |
| `Sse.ScanBounds` | internal/ai/sse/sse.go:92-192 | Scanning moves on and ends: each event takes up part of the stream |
| `Sse.IndexOfMeans` | internal/ai/sse/sse.go:150-158 | The field ends at the first colon |
| `CalcFacts.Exact` | demos/llm-demo/calc.go:11-157 | Evaluation succeeds with v exactly on the texts that derive an expression of value v |
| `CalcFacts.Complete` | demos/llm-demo/calc.go:11-157 | Every expression evaluates to its value, or to the error of its leftmost operation or number without one |
| `CalcFacts.Sound` | demos/llm-demo/calc.go:11-157 | Every success has a derivation with that text and value |
| `CalcFacts.OneValue` | demos/llm-demo/calc.go:29-110 | All derivations of a text have the same value |
| `CalcFacts.ErrorsAreSyntax` | demos/llm-demo/calc.go:11-22 | Every other error means that the text derives no expression |
| `CalcFacts.EmptyIsBlank` | demos/llm-demo/calc.go:131-137 | The input is reported as empty exactly when trimming leaves nothing of it |
| `Whitespace.BlankIsTrimmed` | internal/orchestrator/proxy.go:566-569 | A text of white space only is what trimming makes empty, UTF-8 white space included |
| `Whitespace.BothAreAscii` | demos/llm-demo/calc.go:131-149 | A text is white space both by bytes and as UTF-8 exactly when all its bytes are ASCII white space |
| `Whitespace.NeitherCoversTheOther` | demos/llm-demo/calc.go:131-149 | A text that is white space by bytes only, and one that is so as UTF-8 only |
| `CalcFacts.FactorComplete` | demos/llm-demo/calc.go:86-110 | A factor's text is parsed to its value and its end, in any context where no numeral goes on |
| `CalcFacts.TermReads` | demos/llm-demo/calc.go:56-84 | A term is evaluated from left to right |
| `CalcFacts.ExprReads` | demos/llm-demo/calc.go:29-54 | An expression is evaluated from left to right |
| `CalcPrinter.PrintedEvaluates` | demos/llm-demo/calc.go:11-157 | The printed form of any syntax tree, with any white space before any token and only the parentheses its shape needs, evaluates to the tree's meaning |
| `CalcPrinter.FailsOnZeroOnly` | demos/llm-demo/calc.go:71-80 | When all numerals are numbers, a tree has no value exactly when some divisor is zero |
| `CalcParser.EvalExpression` | demos/llm-demo/calc.go:11-22 | The parser object computes the specified evaluation |
| `CalcParser.ExprParser.ParseExprAt` | demos/llm-demo/calc.go:29-54 | The loop and its recursion return the specified value, position or error, and end |
| `CalcParser.ExprParser.ParseTermAt` | demos/llm-demo/calc.go:56-84 | Likewise for terms, with the division check |
| `CalcParser.ExprParser.ParseFactorAt` | demos/llm-demo/calc.go:86-110 | Likewise for signs, parentheses and numbers |
| `CalcParser.ExprParser.ParseNumeral` | demos/llm-demo/calc.go:112-143 | Reads the longest numeral with at most one point |
| `CalcParser.ExprParser.SkipWhiteSpace` | demos/llm-demo/calc.go:145-149 | Moves to the next byte that is not white space |
| `CalcParser.ExprParser.Match` | demos/llm-demo/calc.go:151-157 | Consumes the byte exactly when it is there |
| `Scrollback.Replay` | internal/termmux/terminal_subscription.go:44-102 | After any writes, of any sizes, a snapshot is exactly the last min(maxBytes, capacity, total) bytes of their concatenation |
| `Scrollback.ScrollbackBuffer.Write` | internal/termmux/terminal_subscription.go:52-75 | The ring then holds the end of everything written, wrapping and overlong writes included |
| `Scrollback.ScrollbackBuffer.Snapshot` | internal/termmux/terminal_subscription.go:78-102 | Returns exactly the last bytes written |
| `Scrollback.ScrollbackBuffer.Len` | internal/termmux/terminal_subscription.go:105-107 | The number of bytes held |
| `Scrollback.Holds` | internal/termmux/terminal_subscription.go:66-70 | Writing into the ring ages what it does not overwrite |
| `Scrollback.Newest` | internal/termmux/terminal_subscription.go:91-99 | The newest bytes are one stretch of the ring, around its end if need be |
| `Scrollback.WriteAll` | internal/termmux/terminal_subscription.go:52-75 | A run of writes leaves the ring in step with their concatenation |
| `Glob.MatchParts` | internal/tools/glob.go:120-149 | Returns true exactly when the path falls into pieces that fit the pattern's parts, and ends |
| `Glob.MatchesConcat` | internal/tools/glob.go:120-149 | A pattern p+q matches exactly the paths that split into a match of p and a match of q |
| `Glob.StarsCollapse` | internal/tools/glob.go:122-132 | Repeated ** anywhere in a pattern match what one does |
| `Glob.MatchesStars` | internal/tools/glob.go:122-132 | A leading ** takes any number of segments, none included |
| `Glob.MatchesSegment` | internal/tools/glob.go:134-145 | Any other part takes exactly one segment that it matches |
| `Glob.GlobMatch` | internal/tools/glob.go:102-106 | Whole patterns and paths are matched by their segments |
| `Glob.GlobAtSlash` | internal/tools/glob.go:102-118 | A pattern with a slash matches exactly when its sides match the sides of a cut of the path |
| `Glob.SplitPath` | internal/tools/glob.go:108-118 | The loop keeps the non-empty parts between slashes |
| `Glob.SplitUndoesJoin` | internal/tools/glob.go:108-118 | Segments joined by slashes are split into the same segments |
| `Glob.KeptAreSegments` | internal/tools/glob.go:108-118 | Every part returned is non-empty and free of slashes |
| `OpenAIProcessor.RunStream` | internal/ai/provider/openai/stream.go:48-57 | Whatever request, input, cancellation and scanner do, exactly one result is published: the complete message exactly when the request succeeded and the input is acceptable, and otherwise a message with the endpoint's provider name and the text of the one error that the input determines |
| `OpenAIProcessor.ProcessStream` | internal/ai/provider/openai/sse_parser.go:46-97 | An input is accepted exactly when it is acceptable, and then the result is faithful to the events and echoes the input; otherwise the error is the first one met in reading, or else the first call whose arguments do not parse |
| `OpenAIProcessor.OneListDecides` | internal/ai/provider/openai/sse_parser.go:217-240 | Whether an input is acceptable does not depend on how its indices are listed |
| `OpenAIProcessor.FirstOfMeans` | internal/ai/provider/openai/sse_parser.go:46-97 | The first error is the error at the first place that has one, and there is none if no place has one |
| `IntOrder.IncreasingIsUnique` | internal/ai/provider/openai/sse_parser.go:218-223 | A set has one increasing list |
| `OpenAIStream.MessageIsFaithful` | internal/ai/provider/openai/sse_parser.go:183-240 | The final texts are the concatenated deltas sent; the calls are those started, in index order, each started once and ended once with the arguments its own deltas make up; and all of it is what came in |
| `OpenAIStream.RunIsGood` | internal/ai/provider/openai/sse_parser.go:105-181 | At every point of every input the accumulator holds what was sent and what was sent is what came in |
| `OpenAIStream.PartKeeps` | internal/ai/provider/openai/sse_parser.go:141-181 | A tool delta keeps that, also for indices out of order |
| `OpenAIStream.EndsAreSent` | internal/ai/provider/openai/sse_parser.go:217-240 | Finalising sends one end event per started index and nothing else |
| `OpenAIProcessor.ReadChunks` | internal/ai/provider/openai/sse_parser.go:50-94 | Reads up to the done mark and stops at the first cancellation, malformed chunk or rejected delta |
| `OpenAIProcessor.Accumulator.ProcessToolCallDelta` | internal/ai/provider/openai/sse_parser.go:141-181 | Updates the accumulator and sends events as specified, or stops on a rejected delta |
| `OpenAIProcessor.Accumulator.OpenCall` | internal/ai/provider/openai/sse_parser.go:141-165 | A new index starts a call |
| `OpenAIProcessor.Accumulator.AppendDelta` | internal/ai/provider/openai/sse_parser.go:165-181 | Arguments are appended and relayed |
| `OpenAIProcessor.Accumulator.ProcessChoice` | internal/ai/provider/openai/sse_parser.go:105-139 | Text, reasoning, tool parts and finish reason are handled in that order |
| `OpenAIProcessor.Accumulator.ProcessChunk` | internal/ai/provider/openai/sse_parser.go:71-89 | The first chunk sends the start event; usage comes before the choices |
| `OpenAIProcessor.Accumulator.FinalizeToolCalls` | internal/ai/provider/openai/sse_parser.go:217-240 | Ends the calls in increasing index order up to the first whose arguments do not parse |
| `OpenAIProcessor.Accumulator.FinishStream` | internal/ai/provider/openai/sse_parser.go:183-215 | Sends the final message, which becomes the stream's result |
| `IntOrder.SortedInts` | internal/ai/provider/openai/sse_parser.go:218-223 | Lists a set of indices in increasing order, whatever order they were collected in |
| `EventStreams.EventStream.Send` | internal/ai/event_stream.go:56-74 | The first terminal event, and only it, publishes its outcome |
| `EventStreams.EventStream.Close` | internal/ai/event_stream.go:77-91 | Leaves exactly one published result, however often it is called |
| `EventStreams.EventStream.Result` | internal/ai/event_stream.go:94-97 | Hands out the published result |
| `EventStreams.FirstOutcomeMeans` | internal/ai/event_stream.go:56-74 | The outcome is that of the first terminal event, and there is none without one |
| `EmbeddingBatch.BatchEmbed` | internal/ai/embedding_batch.go:9-62 | Returns the direct call's reply if the texts fit into a batch and otherwise the result of the run of batches, with its progress reports; fails without a function |
| `EmbeddingBatch.BatchingIsInvisible` | internal/ai/embedding_batch.go:9-62 | For a function that embeds each text for itself and any batch size, the embeddings with their indices and the usage are those of one call |
| `EmbeddingBatch.PartialResponse` | internal/ai/embedding_batch.go:29-47 | If a batch fails or the caller cancels, the response is exactly that of a complete run over the texts before that batch |
| `EmbeddingBatch.PartialIsPrefix` | internal/ai/embedding_batch.go:29-47 | The same from any batch on |
| `EmbeddingBatch.EmbedBatches` | internal/ai/embedding_batch.go:25-62 | The loop computes the run: embeddings, usage, progress reports and error |
| `EmbeddingBatch.ProgressClimbs` | internal/ai/embedding_batch.go:56-59 | Each progress report is one batch further than the one before, and the last one is where the run stops, which is the end exactly without an error |
| `EmbeddingBatch.AppendShifted` | internal/ai/embedding_batch.go:49-52 | Appends a batch's embeddings with their indices moved by its start |
| `Orchestrators.Orchestrator.Fill` | internal/orchestrator/proxy.go:117-127 | The record of a successful creation: active, healthy and with what was acquired |
| `SnapshotStore.MockManager.DestroyMatching` | internal/sandbox/zfs/mock.go:319-326 | The deletion loop removes exactly the dataset's snapshots above the given number, or all of them |
| `SnapshotStore.PrefixIsDataset` | internal/sandbox/zfs/mock.go:320-322 | A key starts with dataset@ exactly when the snapshot is of that dataset |
| `SandboxHosts.SandboxHost.Track` | internal/sandbox/snapshot.go:29-37 | List and store take a snapshot together or not at all; no other session changes |
| `SandboxHosts.SandboxHost.ForgetLater` | internal/sandbox/snapshot.go:99-115 | The list is cut behind the first entry of that name and its turns are recounted |
| `SandboxHosts.SandboxHost.Register` | internal/sandbox/service.go:215-236 | A new record under its id, the others untouched |
| `Transform.SyntheticResults` | internal/ai/transform.go:113-122 | One error result per id, in the given order |
| `NativeDrivers.NativeDriver.AskProvider` | internal/agent/loop.go:141-149 | Enters streaming and sends the transformed log, or is refused exactly when the table says so, with nothing changed |
| `NativeDrivers.NativeDriver.OneReply` | internal/agent/loop.go:151-176 | Logs the answer and the results of its tools as specified, and says whether the turn ends |
| `NativeDrivers.NativeDriver.PromptedTurn` | internal/agent/loop.go:111-120 | Logs the prompt and runs the turn from there |
| `ControlQueues.ControlQueue.constructor` | internal/agent/control_queue.go:41-46 | An empty queue with a default capacity of 64 |
| `ControlQueues.ControlQueue.Close` | internal/agent/control_queue.go:100-108 | Closes the queue |
| `SseScanner.BufReader.ReadSlice` | internal/ai/sse/sse.go:77-90 | Reads to the delimiter, to a full buffer or to the end, and loses nothing |
| `SseScanner.Scanner.NextLine` | internal/ai/sse/sse.go:116-191 | One round of the loop reads one line and handles it |
| `SseScanner.Collect` | internal/ai/sse/sse.go:92-203 | Next and Event together list what remains of the stream |
| `CalcParser.ExprParser.ParseRestOfParen` | demos/llm-demo/calc.go:98-108 | An expression and its closing parenthesis, or where it is missing |
| `Scrollback.ScrollbackBuffer.constructor` | internal/termmux/terminal_subscription.go:44-49 | An empty ring of that capacity, zero included |
| `Scrollback.ScrollbackBuffer.LayDown` | internal/termmux/terminal_subscription.go:66-69 | The two copies lay the data down around the end of the ring |
| `Scrollback.ScrollbackBuffer.WriteTail` | internal/termmux/terminal_subscription.go:58-63 | Data as long as the ring leave their own end |
| `OpenAIProcessor.Accumulator.ProcessToolCalls` | internal/ai/provider/openai/sse_parser.go:127-131 | Handles the parts in order up to a rejected one |
| `OpenAIProcessor.Accumulator.ProcessTexts` | internal/ai/provider/openai/sse_parser.go:109-124 | Appends and relays non-empty text and reasoning |
| `OpenAIProcessor.Accumulator.ProcessChoices` | internal/ai/provider/openai/sse_parser.go:85-89 | Handles the choices in order up to an error |
| `OpenAIProcessor.Accumulator.EndCall` | internal/ai/provider/openai/sse_parser.go:226-237 | Ends one call with its parsed arguments or fails |
| `OpenAIProcessor.ReadChunk` | internal/ai/provider/openai/sse_parser.go:57-89 | Skips blank data and handles one chunk |
| `EmbeddingBatch.AddReply` | internal/ai/embedding_batch.go:48-55 | Adds a response's embeddings and usage, if there is a response |
| `EmbeddingBatch.BatchesMakeWhole` | internal/ai/embedding_batch.go:29-62 | From any batch boundary on, what is done and what remains make up the whole |

## Left out

- HTTP, RPC transport, WebSocket relay, command line, terminals, gVisor and ZFS commands: input and output.
- JSON decoding, the incremental JSON lexer, JSON Schema and Starlark: foreign code; decoded values and function parameters stand for them.
- `filepath.Match` for a single path segment: a parameter of the glob matcher; the directory walk and result limit of the glob tool are not modelled.
- Floating-point arithmetic of the calculator: an arbitrary arithmetic stands for it, so nothing is said about rounding; costs of embeddings are real numbers.
- Message cost calculation, usage details and timestamps of a completion: usage is one opaque number and the clock a parameter.
- The tools-sandbox variant of session creation as a method: it is covered by `SessionProtocol` only.
- Sandbox ids: the session protocol takes a new id for every sandbox created.
- Prompt and Stop are single steps in `AgentProtocol`; splitting Prompt at its copy of the session loses log monotonicity.
- Tool panics.
- Concurrent senders on one event stream: the provider code has one sender per stream; buffer blocking is not modelled.
- Terminal subscriptions, fan-out and monitors: snapshot and subscription use different locks, so there is no exact hand-off to state.
- Holds, send and receive of the snapshot store, and pausing or destroying sandbox sessions.
- Model catalog, registries, configuration validation and error-code tables: settled by one branch each.
- Orchestrators.Orchestrator.FinishClose: starts when no operation is in flight; waiting for that is a step of SessionProtocol.
- SandboxHosts.RunNew: supposes that destroys succeed if there is a cap, because otherwise agreement fails as RetentionTracksIff says; turn numbers under a cap follow TurnRuns.LaterTurnRefusedIff instead.
- NativeDrivers.NativeDriver.Run: is one run without other callers and without panics; interleavings are AgentProtocol's. Turn numbers of messages and published events are not modelled.
- ControlQueues.ControlQueue.Enqueue: is one step; its race with Close is not split further.
- CalcFacts.Complete: holds for every arithmetic; that float64 division by a tiny number behaves like exact division is not claimed.
- EventStreams.EventStream.Send: requires an open stream, because sending on a closed channel is a run-time error in the source.
