# ai-assist: a verified model of the agent, the dispatcher and the card queue

ai-assist is a personal assistant server: a language-model agent that proposes tool calls and waits
for the user's approval of the dangerous ones, a queue that runs a bounded number of background agents
on todos, and a queue of approval cards that phones mirror over a WebSocket. This project models the
parts of it that are protocols, and proves what they keep over whole runs.

Each protocol has a specification made of values (a state, its inputs, a step function, a run) and a
class or method, in the form of the original code, whose `ensures` equates what it does with that step.
The theorems are about runs of the specification. The modules named `…Answers`, and lemmas of that name,
say what each operation leaves behind in terms of messages, fields and events alone, without the step
function's own helpers.

- **Conversation and undo** (`Conversation`, `Undo`, `Context`): turns, their printed messages,
  rebuilding, truncation, checkpoints, token estimates and compaction.
- **Turn engine** (`AgentLoop`, `LoopAnswers`, `Sessions`, `Approval`, `Pairing`, `SessionSafety`,
  `SessionUndo`, `SessionAnswers`, `AgentSession`): the model–tool loop with its approval pause, and every message handler as one step of
  a session. The model's replies, the tools' outcomes and the user's messages are inputs of the step, so
  a theorem over all input sequences holds for all of them. A session carries the trace of everything
  that happened (model calls with their contexts, executions, requests, answers), which exists only so
  that safety can be stated.
- **Tool events** (`ToolEvents`): the buffer that pairs a tool's completion with its output.
- **Dispatch** (`Dispatch`, `Followups`, `AgentQueue`): channel, semaphore, status table, follow-ups, agents and
  approval cards as interleaved steps; a step that is not enabled does nothing, so a sequence of steps is
  an arbitrary interleaving. The queue object's methods are particular runs of those steps.
- **Cards** (`Cards`, `CardReplay`, `CardEvolution`, `LagResync`, `ConnectGap`, `CardStore`,
  `CardLifecycle`, `CardPublication`, `CardSweep`, `CardAnswers`, `CardQueues`): the queue, its store, its broadcast log and a replaying client. Time is an
  integer that operations and the passage of time never decrease; ids are never reused.
- **Text** (`TextSearch`, `NewlineCollapse`, `SplitMessage`, `Tags`, `TagDocs`, `TagStrip`): newline
  capping, message splitting, recovery of tool calls from text, and tag stripping.
- `Chat`, `Wrappers`, `Filtering`, `Sequences` hold what the others share.

`dafny verify dfyconfig.toml` checks everything.

## What turned out not to hold

Each of these is the code's behaviour, kept as it is, with the exact condition proved beside it.

- A second undo does not go further back. The comment on `undo` says repeated undos step back, but the
  checkpoint stays on the stack (src/agent/undo.rs:96-117): `SessionUndo.SecondUndoDoesNotStepBack`,
  `Undo.UndoReachesOlderCheckpointIff`.
- Undo after a turn gives back the messages from before the turn only if starting the turn did not
  compact turns away, because the checkpoint is taken after compaction (src/agent/agent_loop.rs:518-569):
  `SessionUndo.UndoRestoresMessagesBeforeTurn`, `SessionUndo.UndoLosesCompactedTurns`.
- A todo can be AgentQueued and on its way nowhere although every store call succeeds: clients and the
  todo tool rewrite the whole row, with a status they choose or read earlier (src/todos/ws.rs:283-290,
  src/tools/builtin/todo.rs:257-281): `Dispatch.OutsideWriteStrandsTodo`,
  `AgentQueue.StaleWriteStrandsTodo`, `Dispatch.LossyStepKeepsCoverageIff`. The branch that puts the
  status back after a failed spawn (src/agent/agent_queue.rs:250-255) would strand its todo too, but it is
  dead today: spawning a todo agent has no error exit (src/agent/todo_agent.rs:57-155).
- A follow-up does not always reach the todo's next agent: if the dispatch loop has already fetched the
  follow-up for an agent it is launching, a text sent then waits for the one after
  (src/agent/agent_queue.rs:235-239): `Followups.FollowupReachesNextAgent`.
- A client that connects takes its snapshot before it subscribes, and loses what is broadcast in between
  (src/cards/ws.rs:139-150): `ConnectGap.ConnectGapIff`, `ConnectGap.PushInGapIsMissed`.
- After a lag, the client gets a snapshot of the present and then the buffered past; a card announced in
  that past and still shown appears twice (src/cards/ws.rs:165-173): `LagResync.LagResyncIff`,
  `LagResync.DuplicateAfterLag`.
- At the instant a card expires, memory still shows it (`now > t`) and the store does not
  (`expires_at > now`): `CardStore.WriteThroughAgreesIff`, `CardStore.BoundaryIsReached`.
- A refinement is persisted and broadcast after the lock is released. Memory and store then agree on the
  card exactly when it is still queued, still pending and still has the text that was committed:
  `CardPublication.LateWriteAgreesIff`. If it was decided in between, store and clients show it as
  pending again (`CardPublication.LatePublishRevives`); if two refinements publish in the other order,
  store and clients keep the text that memory has overwritten (`CardPublication.PublishedOutOfOrder`).
- Recovered tool calls come kind by kind, not in the order of the text, when a text mixes kinds of
  tags: `TagDocs.RecoveryFindsNames`, `TagDocs.MixedKindsOutOfOrder`.

## Model

| member | source | states |
|---|---|---|
| `Conversation.RebuildOwnMessages` | src/agent/session.rs:312-365 | Rebuilding a thread from its own messages gives back every (input, response) pair in order, numbered by index |
| `Conversation.RestoreThenPrint` | src/agent/session.rs:339-365 | For any message list, rebuilding and printing keeps exactly each user message and an assistant message directly after one, content unchanged |
| `Conversation.RestoreThenPrintIdempotent` | src/agent/session.rs:312-365 | Restore-then-print is idempotent, and the identity on what a thread prints |
| `Conversation.RebuiltNumbered` | src/agent/session.rs:339-365 | Rebuilt turns are numbered consecutively |
| `Conversation.TruncatedMessages` | src/agent/session.rs:324-333 | Truncation leaves a suffix of the printed messages, with turn number equal to index, and drops nothing exactly when no turn goes |
| `Conversation.ConversationThread.PrintMessages` | src/agent/session.rs:312-321 | The printing loop computes the thread's messages |
| `Conversation.ConversationThread.RestoreFromMessages` | src/agent/session.rs:339-365 | The peeking loop rebuilds the turns the specification gives |
| `Conversation.ConversationThread.TruncateTurns` | src/agent/session.rs:324-333 | Drain and renumber, as specified |
| `Undo.HistoryStaysOk` | src/agent/undo.rs:74-186 | Over every sequence of operations the undo stack stays within its limit |
| `Undo.UndoStackIsMostRecent` | src/agent/undo.rs:74-93 | Over every sequence of checkpoints, undos and redos the undo stack is exactly the most recent checkpoints, at most the limit, oldest first |
| `Undo.UndoStackIsNewestSurvivors` | src/agent/undo.rs:74-186 | Over every sequence of operations, restores and clears included, the undo stack is the newest of the checkpoints that no restore or clear has dropped, at most the limit |
| `Undo.RedoUndoesUndo` | src/agent/undo.rs:96-126 | A redo after an undo restores messages and both stacks |
| `Undo.UndosThenRedos` | src/agent/commands.rs:24-88 | Any k undos then k redos restore the messages and leave both stacks as they were |
| `Undo.RepeatedUndoStaysPut` | src/agent/commands.rs:24-60 | Every undo lands on the newest checkpoint, however many came before |
| `Undo.UndoReachesOlderCheckpointIff` | src/agent/undo.rs:90-117 | k undos reach the k-th newest checkpoint exactly when it holds the newest one's messages |
| `Undo.UndoManager.TakeCheckpoint` | src/agent/undo.rs:74-93 | Push, clear redo, trim from the front: the specified history |
| `Undo.UndoManager.Undo` | src/agent/undo.rs:96-117 | Saves the present for redo and returns the newest checkpoint without removing it |
| `Undo.UndoManager.Redo` | src/agent/undo.rs:124-126 | Pops the newest redo entry |
| `Undo.UndoManager.Restore` | src/agent/undo.rs:170-186 | Finds a checkpoint by id and drops everything newer |
| `Context.Analyze` | src/agent/context_monitor.rs:161-184 | The per-role totals are each role's own sum and add up to the estimate of the whole list |
| `Context.TokensRoundDown` | src/agent/context_monitor.rs:126-135 | A message counts 1.3 tokens a word, rounded down, and 4 more |
| `Context.WordsAreCounted` | src/agent/context_monitor.rs:126-135 | Words separated by any whitespace are counted one by one, however the text begins and ends |
| `Context.CompactionIsSafe` | src/agent/compaction.rs:45-170 | Under every strategy: a suffix of the messages stays, tokens never rise, numbering holds, a failed summary changes nothing, and messages change exactly when a turn is dropped |
| `Context.ApplyStrategy` | src/agent/compaction.rs:80-170 | Each strategy's in-place effect and its report |
| `Context.Compact` | src/agent/compaction.rs:45-77 | turns_removed is turns before minus turns after; the token counts are those before and after; failure leaves the thread untouched |
| `AgentLoop.LoopBounds` | src/agent/tool_executor.rs:70-211 | Every loop run makes at most 10 model calls and at most 2 nudges |
| `AgentLoop.BatchCounts` | src/agent/tool_executor.rs:252-403 | A batch of tool calls makes no model call and no nudge |
| `AgentLoop.ExecuteBatch` | src/agent/tool_executor.rs:252-403 | The batch loop executes, records and pauses as specified: the first call that may not run stops it with the context so far |
| `AgentLoop.OneIteration` | src/agent/tool_executor.rs:70-403 | One model call and what follows from the reply: nudge, answer, or batch |
| `AgentLoop.RunAgenticLoop` | src/agent/tool_executor.rs:37-405 | The loop's result and everything it does equal the specified run |
| `LoopAnswers.BatchAnswer` | src/agent/tool_executor.rs:267-403 | Said of the proposals' fields: the first call that requires approval and is not approved for good, or is a destructive shell command, is the one that waits, with the results so far; the executions are exactly the calls before it, in order, and each has left a tool message with its output or "Error: " and its error |
| `LoopAnswers.BatchPausesIff` | src/agent/tool_executor.rs:273-320 | A batch pauses exactly when some call has to be asked for |
| `LoopAnswers.LoopAnswer` | src/agent/tool_executor.rs:70-403 | Every run, told by the contexts it shows: the first is the one it starts from, each next one has grown by exactly the reply to the one before (its text and the nudge, or its calls and all their results), when it goes on and when it stops, and which reply gives the result |
| `SessionSafety.OnlyApprovedCallsExecute` | src/agent/tool_executor.rs:267-336 | Over every run each executed approval-requiring call is for a tool answered "always" earlier, or is exactly the name and parameters of a request the user approved; request ids never repeat |
| `SessionSafety.EachRequestExecutesOnce` | src/agent/approval.rs:97-168 | In every run a request backs at most one execution |
| `SessionSafety.RetiredRequestsStayUnexecuted` | src/agent/session.rs:264-301 | In every run a request that was interrupted, cleared, undone or rejected backs no execution, before or after |
| `SessionSafety.ModelSeesPairedContexts` | src/agent/tool_executor.rs:189-403 | At every model call of every run, resumed ones included, each assistant tool-call message is directly followed by results for a non-empty prefix of its calls in order, all of them unless a call before the last paused for an approval that was given |
| `SessionSafety.StepKeepsInv` | src/agent/agent_loop.rs:152-193 | Every handler keeps the invariant tying trace, waiting requests, saved contexts and the auto-approve set |
| `SessionSafety.RunKeepsInv` | src/agent/agent_loop.rs:152-193 | The invariant holds in every reachable session |
| `Approval.RequestExecutesAtMostOnce` | src/agent/approval.rs:97-168 | Two executions authorised by the same request are one |
| `Approval.RetiredRequestNeverExecutes` | src/agent/session.rs:264-301 | A request that was interrupted, cleared, undone or rejected authorises no execution |
| `Approval.RetiredForGood` | src/agent/session.rs:264-282 | A request that stops being outstanding never is again, in any thread |
| `Approval.OutstandingSource` | src/agent/session.rs:264-275 | The outstanding request is one that was made, with nothing since to retire it |
| `Approval.LoopEvents` | src/agent/tool_executor.rs:267-364 | A loop run only executes calls that need no approval or whose tool is auto-approved, and makes no requests or answers of its own |
| `Pairing.BatchKeepsPairing` | src/agent/tool_executor.rs:252-403 | A batch either completes its results or pauses with a context whose next call is the one waiting |
| `Pairing.LoopKeepsPairing` | src/agent/tool_executor.rs:189-403 | From a paired context, every context the loop shows is paired and a saved one awaits its result |
| `Pairing.ResumeIsPaired` | src/agent/approval.rs:199-242 | Adding the approved call's result to the saved context makes it paired again |
| `SessionAnswers.NoNeedlessRequests` | src/agent/tool_executor.rs:273-320 | In every run the user is asked only for a call the model just proposed, of a tool that requires approval, and never for a tool already approved for good unless it is a destructive shell command |
| `SessionAnswers.TurnAnswer` | src/agent/agent_loop.rs:518-632 | A started turn first shows the model the configured prompt, if any, then the conversation kept and the new question, and nothing else; later contexts grow by the replies; the thread records question and result; other threads are untouched |
| `SessionAnswers.RefusedInput` | src/agent/agent_loop.rs:415-516 | Input for an unknown, busy or completed thread, or rejected input, changes nothing |
| `SessionAnswers.ApprovedAnswer` | src/agent/approval.rs:127-259 | The very call that waited runs with its outcome, "always" adds its tool and nothing else does, and the loop resumes from the saved context with the call's result appended |
| `SessionAnswers.RejectedAnswer` | src/agent/approval.rs:260-283 | A rejection runs nothing, asks the model nothing and frees the thread |
| `SessionAnswers.StrayAnswer` | src/agent/approval.rs:97-126 | An answer naming another request, or to a thread waiting for none, changes no thread |
| `SessionAnswers.InterruptAnswer` | src/agent/commands.rs:90-108 | Stops a thread that runs or waits and keeps its conversation; touches no other |
| `SessionAnswers.ClearAnswer` | src/agent/commands.rs:149-167 | An empty, idle thread with nothing to undo or redo |
| `SessionAnswers.ResumeAnswer` | src/agent/commands.rs:215-241 | Gives back exactly the checkpoint's messages and drops it with everything newer |
| `SessionAnswers.ResumeUnknown` | src/agent/commands.rs:215-241 | An unknown checkpoint changes nothing |
| `SessionAnswers.RedoAnswer` | src/agent/commands.rs:62-88 | Gives back what the newest undo put away and takes it off the stack |
| `SessionAnswers.OpenAnswer` | src/agent/agent_loop.rs:324-411 | A thread opened on stored messages holds them and has no past to go back to |
| `SessionAnswers.CompactionKeeps` | src/agent/context_monitor.rs:88-107 | How many turns are left when a turn starts, by token total: 80,000, 85,000 and 95,000; ten or five, five, three |
| `SessionAnswers.CompactAnswer` | src/agent/commands.rs:110-147 | The same for the compact command, which below 80,000 tokens summarizes to five turns |
| `SessionUndo.UndoRestoresMessagesBeforeTurn` | src/agent/agent_loop.rs:518-580 | Undo after a turn, with any approvals, interrupts, compactions and other threads' messages in between, restores the messages the turn started from; these are the ones before the turn exactly when starting it compacted nothing away |
| `SessionUndo.SecondUndoDoesNotStepBack` | src/agent/commands.rs:24-60 | In a new thread with two exchanges, two undos leave the first exchange instead of the empty thread before it |
| `SessionUndo.UndoLosesCompactedTurns` | src/agent/agent_loop.rs:518-569 | A reachable session, for every long enough stored conversation, where undo after a turn does not give the conversation back |
| `SessionUndo.HistoryUntouched` | src/agent/agent_loop.rs:554-567 | Those messages in between leave the thread's undo history alone |
| `SessionUndo.RunKeepsSlots` | src/agent/agent_loop.rs:415-635 | In every reachable session turn numbers equal indices, no thread is left processing, and checkpoints hold printed messages |
| `AgentSession.Agent.ProcessUserInput` | src/agent/agent_loop.rs:415-635 | The handler takes exactly the specified step and refuses exactly in the gated states |
| `AgentSession.Agent.StartTurn` | src/agent/agent_loop.rs:518-590 | Compact, checkpoint, open the turn, prepend the system prompt |
| `AgentSession.Agent.FinalizeLoopResult` | src/agent/approval.rs:25-84 | The thread completes, fails or waits according to the loop's result |
| `AgentSession.Agent.ProcessApproval` | src/agent/approval.rs:87-284 | Takes the pending request, puts it back on a wrong id, rejects, or executes and resumes: the specified step |
| `AgentSession.Agent.ExecuteApproved` | src/agent/approval.rs:147-260 | The approved call runs once, its result joins the saved context and the loop resumes |
| `AgentSession.Agent.ProcessInterrupt` | src/agent/commands.rs:90-108 | The specified step |
| `AgentSession.Agent.ProcessClear` | src/agent/commands.rs:149-167 | The specified step |
| `AgentSession.Agent.ProcessUndo` | src/agent/commands.rs:24-60 | The specified step |
| `AgentSession.Agent.ProcessRedo` | src/agent/commands.rs:62-88 | The specified step |
| `AgentSession.Agent.ProcessResume` | src/agent/commands.rs:215-241 | The specified step |
| `AgentSession.Agent.ProcessCompact` | src/agent/commands.rs:110-147 | The specified step, with a truthful report |
| `ToolEvents.ToolEventsMatchExecutions` | src/channels/todo_channel.rs:259-324 | Over every run, the tool completions emitted by shutdown are the executions, one to one and in order, with the right success flag and the output as summary or an empty one |
| `ToolEvents.ExecutionConserves` | src/agent/tool_executor.rs:323-364 | The statuses of one execution yield exactly one completion |
| `ToolEvents.ConservesConcat` | src/channels/todo_channel.rs:154-159 | Runs that lose and invent no completion compose, whatever is held between them |
| `ToolEvents.LoopConserves` | src/agent/tool_executor.rs:189-403 | Every loop run conserves completions |
| `ToolEvents.CompletionTakesOutput` | src/channels/todo_channel.rs:280-324 | A completion and its output are one event with the completion's own flag |
| `ToolEvents.TodoChannel.SendStatus` | src/channels/todo_channel.rs:254-324 | Buffering and flushing, as specified |
| `ToolEvents.TodoChannel.FlushPendingTool` | src/channels/todo_channel.rs:155-160 | Emits the held completion, if any, and holds nothing |
| `ToolEvents.TodoChannel.Respond` | src/channels/todo_channel.rs:214-252 | Emits the answer and the completion of the run, leaving the held tool for shutdown |
| `ToolEvents.TodoChannel.Shutdown` | src/channels/todo_channel.rs:420-470 | Flushes, and reports failure if nothing was answered |
| `ToolEvents.TodoChannel.Drive` | src/channels/todo_channel.rs:254-470 | Any conserving run fed through the channel and shut down emits exactly its executions |
| `Dispatch.PermitConservation` | src/agent/agent_queue.rs:184-257 | In every interleaving, permits in the semaphore, in the dispatcher's hand, in agent slots and in resolvers' hands add up to the maximum, so permit holders never exceed it |
| `Dispatch.StepConservesPermits` | src/todos/approval_registry.rs:24-76 | Every single step keeps that sum: dispatching in all its branches, and registering a card, releasing while waiting, taking, re-acquiring, storing, exiting |
| `Dispatch.DispatchesBoundedByWrites` | src/agent/agent_queue.rs:187-226 | For every todo and interleaving, dispatches never exceed writes of AgentQueued |
| `Dispatch.FollowupsReachOneAgent` | src/agent/agent_queue.rs:94-106 | Each follow-up text reaches at most one agent, and that agent works on the todo it was sent for |
| `Followups.FollowupsCarryTheirText` | src/agent/agent_queue.rs:94-106 | In every interleaving, a follow-up an agent is given has the text of the step that sent it, for the agent's own todo |
| `Followups.FollowupReachesNextAgent` | src/agent/agent_queue.rs:94-106 | A follow-up that nothing replaces is given to the todo's next agent if and only if the dispatch loop was not already launching that agent when it was sent |
| `Followups.FollowupWaits` | src/agent/agent_queue.rs:94-106 | Until then it stays in the map |
| `Dispatch.ApprovalWaitRoundTrip` | src/todos/approval_registry.rs:24-59 | A whole approval wait gives the permit back and then to the same agent, and leaves everything else as it was |
| `Dispatch.ExitAnswer` | src/todos/approval_registry.rs:71-76 | An ending agent gives its permit back and no card keeps waiting for an agent of its todo |
| `Dispatch.NoQueuedTodoIsLost` | src/agent/agent_queue.rs:75-226 | While store and spawn succeed, every AgentQueued todo is in the channel, in the dispatcher's hand or about to be sent, in every reachable state |
| `Dispatch.LossyStepKeepsCoverageIff` | src/agent/agent_queue.rs:195-257 | A store failure, a failed spawn or an outside status write keeps that true exactly when the todo it is about is not let go while queued and nowhere else |
| `Dispatch.OutsideWriteStrandsTodo` | src/todos/ws.rs:283-290 | From the initial state: a new todo whose status a client sets to AgentQueued is queued and on its way nowhere |
| `AgentQueue.StaleWriteStrandsTodo` | src/tools/builtin/todo.rs:257-281 | From the initial state: a todo enqueued and dispatched, whose old row is then written back, has its agent and is queued again, on its way nowhere |
| `AgentQueue.AgentQueue.ActiveCount` | src/agent/agent_queue.rs:62-64 | Counts the permits held by agents, resolvers and the dispatch loop, and cannot underflow |
| `AgentQueue.AgentQueue.Enqueue` | src/agent/agent_queue.rs:75-91 | Write the status, then send; nothing is sent when the write fails |
| `AgentQueue.AgentQueue.EnqueueFollowup` | src/agent/agent_queue.rs:94-98 | The follow-up is recorded before, and whether or not, the enqueue succeeds |
| `AgentQueue.AgentQueue.TakeFollowupContext` | src/agent/agent_queue.rs:100-106 | Returns and removes the todo's follow-up |
| `AgentQueue.AgentQueue.DispatchOne` | src/agent/agent_queue.rs:184-257 | One turn of the dispatch loop is the specified run of steps, in all its skip and error branches |
| `AgentQueue.DispatchAnswer` | src/agent/agent_queue.rs:184-257 | One turn of the loop, field by field: status, agent, permit, follow-up, channel, in every branch |
| `AgentQueue.DispatchRuns` | src/agent/agent_queue.rs:184-257 | What that run leaves: the id gone, or an agent with the permit, or the status put back |
| `AgentQueue.AgentQueue.ScanStartable` | src/agent/agent_queue.rs:148-174 | Every eligible created todo of the default user, and no other, is queued and sent |
| `AgentQueue.AgentQueue.Recover` | src/agent/agent_queue.rs:108-145 | From any status table: every working, queued and eligible todo of the default user ends queued and in the channel; nothing else changes or is sent |
| `Cards.FromCards` | src/cards/model.rs:196-214 | The counting loop yields `pending()` grouped by silo, and the counts add up to its size |
| `CardReplay.ReplayRefinesPending` | src/cards/ws.rs:139-163 | Whatever a client held, after a snapshot and the events broadcast since, its unexpired cards are exactly `pending()`, contents and order, after every run, sweeps and pruning included |
| `CardReplay.StepAgrees` | src/cards/queue.rs:81-411 | Every queue operation and the events it broadcasts keep client and queue in step |
| `CardReplay.RunKeepsOk` | src/cards/queue.rs:81-411 | Ids stay distinct in every run |
| `LagResync.LagResyncIff` | src/cards/ws.rs:165-173 | After a lag, snapshot plus buffered events give exactly `pending()` if and only if no buffered announcement is of a card still shown |
| `LagResync.ReplayAfterLag` | src/cards/ws.rs:152-180 | Once resynchronised the client stays in step through every later run |
| `LagResync.DuplicateAfterLag` | src/cards/queue.rs:17-17 | A reachable failure with the channel's 256 events: after more pushes than it keeps, the newest card shows twice |
| `ConnectGap.ConnectGapIff` | src/cards/ws.rs:139-150 | At subscription the snapshot's unexpired cards are exactly `pending()` if and only if no event missed since the snapshot carried a card shown now that the snapshot lacks, or removed one of its unexpired cards |
| `ConnectGap.PushInGapIsMissed` | src/cards/ws.rs:139-150 | Any card pushed between snapshot and subscription is missed |
| `LagResync.RunKeepsLog` | src/cards/queue.rs:81-411 | In every run's log a card is announced once, before anything else about it; a card said to be gone is not pending; announced and queued versions share their expiry |
| `CardStore.WriteThroughAgreesIff` | src/cards/queue.rs:81-411 | In every reachable state memory and store show the same pending cards (id, silo, payload without confidence, expiry) if and only if no shown card is at its expiry instant |
| `CardStore.RebuildAgreesIff` | src/cards/queue.rs:44-64 | A queue rebuilt from the store shows what the old one did under the same condition, and its store matches again |
| `CardStore.BoundaryIsReached` | src/store/libsql_backend.rs:624-647 | Any card that lives to its expiry instant reaches that state |
| `CardStore.StepKeepsStore` | src/cards/queue.rs:81-411 | Every operation keeps rows and cards matching, and rows without a card hidden |
| `CardEvolution.StepEvolves` | src/cards/queue.rs:81-411 | After any operation every card is a later version of an earlier one, never pending again, frozen once resolved, or has a fresh id |
| `CardLifecycle.NeverPendingAgain` | src/cards/queue.rs:107-296 | With refinements split in phases and anything in between, a card that left Pending never returns to it |
| `CardLifecycle.OneDecisionPerCard` | src/cards/queue.rs:107-225 | At most one approve, dismiss or edit ever succeeds on a card |
| `CardLifecycle.ResolvedTextIsFrozen` | src/cards/queue.rs:188-275 | Once a card is resolved its payload never changes again in memory |
| `CardLifecycle.UninterruptedRefine` | src/cards/queue.rs:228-296 | With nothing in between, the phases are the atomic refinement |
| `CardPublication.LateWriteAgreesIff` | src/cards/queue.rs:277-286 | In every interleaving of split refinements with everything else, publishing one leaves memory and store agreeing on its card if and only if the card is still queued and pending with the text published (or, for a row past its expiry, the card is not at its expiry instant) |
| `CardPublication.RunKeepsFit` | src/cards/queue.rs:228-296 | In every such interleaving each card and each unpublished refinement has its row, equal up to status and reply text |
| `CardPublication.PublishedOutOfOrder` | src/cards/queue.rs:257-295 | Two refinements of a card published in the other order: pending everywhere, but store and clients hold the text memory has overwritten |
| `CardPublication.LatePublishRevives` | src/cards/queue.rs:277-295 | Approved between commit and publication, the card is pending again in the store and on every client |
| `CardAnswers.ApproveAnswer` | src/cards/queue.rs:107-143 | On a pending card: Approved, payload unchanged, in memory and in the row; that status broadcast, then the counts; nothing else changes |
| `CardAnswers.DismissAnswer` | src/cards/queue.rs:146-185 | The same with Dismissed |
| `CardAnswers.EditAnswer` | src/cards/queue.rs:188-225 | Approved with the new reply text, in memory and in the row |
| `CardAnswers.RefineAnswer` | src/cards/queue.rs:228-296 | Still pending, with the new text and confidence in memory and broadcast, the new text in the row |
| `CardAnswers.MarkSentAnswer` | src/cards/queue.rs:381-411 | Sent, payload unchanged, in memory and in the row, and broadcast |
| `CardAnswers.PushAnswer` | src/cards/queue.rs:81-104 | The card as given, last in the queue, in the store and announced |
| `CardAnswers.SweepAnswer` | src/cards/queue.rs:315-368 | Which cards and rows expire, and what is broadcast |
| `CardAnswers.NotActionable` | src/cards/queue.rs:110-115 | A decision or refinement of an unknown or resolved card changes nothing |
| `CardAnswers.StatusHasItsCause` | src/cards/queue.rs:107-411 | In every interleaving a card found approved was approved or edited while pending, a dismissed one dismissed while pending, a sent one marked sent, an expired one swept after its expiry |
| `CardSweep.SweepKeeps` | src/cards/queue.rs:315-365 | The sweep keeps exactly the shown cards as pending and, when it prunes, exactly the newest 100 resolved ones; size stays within 200 or pending plus 100 |
| `CardSweep.SweepKeepsOrder` | src/cards/queue.rs:338-358 | Survivors keep their order: resolved cards go before some position, nothing after it |
| `CardQueues.CardQueue.WithDb` | src/cards/queue.rs:44-64 | Loading the store's pending cards establishes the store invariant |
| `CardQueues.CardQueue.Push` | src/cards/queue.rs:81-104 | Store row, card, counts, announcement: the specified step |
| `CardQueues.CardQueue.Approve` | src/cards/queue.rs:107-143 | The specified step, returning the approved card exactly when it was pending |
| `CardQueues.CardQueue.Dismiss` | src/cards/queue.rs:146-185 | The specified step, returning the dismissed card exactly when it was pending |
| `CardQueues.CardQueue.Edit` | src/cards/queue.rs:188-225 | The specified step, returning the edited card exactly when it was pending |
| `CardQueues.CardQueue.SnapshotForRefine` | src/cards/queue.rs:234-248 | Yields the card exactly when it is pending |
| `CardQueues.CardQueue.CommitRefinement` | src/cards/queue.rs:257-275 | Changes the card only if it is still there and pending |
| `CardQueues.CardQueue.PublishRefinement` | src/cards/queue.rs:277-295 | Persists and broadcasts whatever has happened since |
| `CardQueues.CardQueue.PendingCards` | src/cards/queue.rs:304-311 | The pending, unexpired cards in order |
| `CardQueues.CardQueue.MarkSent` | src/cards/queue.rs:381-411 | The specified step; finds the card whatever its status |
| `CardQueues.CardQueue.ExpireOld` | src/cards/queue.rs:315-368 | Store first, then the sweep, the pruning and the counts: the specified step and number |
| `CardQueues.Retain` | src/cards/queue.rs:348-356 | The counting retain drops exactly the first so many resolved cards |
| `NewlineCollapse.Collapse` | src/llm/reasoning.rs:654-657 | The repeated replacement ends and equals capping every newline run at two |
| `NewlineCollapse.MaximalRunCapped` | src/llm/reasoning.rs:654-657 | Around any maximal run of n newlines the run becomes min(n, 2) and each side is capped by itself |
| `NewlineCollapse.CapKeepsLetters` | src/llm/reasoning.rs:654-657 | All other characters stay, in order |
| `SplitMessage.Split` | src/channels/telegram.rs:684-713 | The loop ends and produces the specified chunks |
| `SplitMessage.ChunksCover` | src/channels/telegram.rs:684-713 | Chunks are non-empty and fit; the text is the chunks with only whitespace between and after; a chunk neither full nor last is followed by whitespace |
| `SplitMessage.CutChoice` | src/channels/telegram.rs:697-707 | A line end is preferred to a space, a later break to an earlier one, and a chunk is full only where there is nothing to break at or the text begins with a line end |
| `Tags.RecoverToolCalls` | src/llm/reasoning.rs:573-631 | The nested loops recover what the specification does, kind by kind |
| `Tags.StripXmlTag` | src/llm/reasoning.rs:662-704 | The loop strips as specified, in its malformed cases too |
| `Tags.StripPipeTag` | src/llm/reasoning.rs:710-731 | The loop strips as specified |
| `Tags.StripInternalTags` | src/llm/reasoning.rs:648-659 | All tags in both forms, then newline capping, then trimming |
| `TagDocs.RecoveryFindsNames` | src/llm/reasoning.rs:573-631 | From plain pieces and blocks around known tool names: exactly those names, ids numbered by position, kind by kind and in text order within a kind; the calls follow the text if no block comes after one of a kind looked for later, and, when all names differ, only then |
| `TagDocs.RecoveryFindsCalls` | src/llm/reasoning.rs:573-631 | From any blocks: one call for each that is a JSON call of a known tool, with its arguments, or a bare known name, kind by kind and in text order within a kind; none for empty blocks or unknown names |
| `TagDocs.RecoveredIds` | src/llm/reasoning.rs:612-625 | Ids are the position in decimal after a fixed prefix, and no two are the same |
| `TagDocs.RecoverDoc` | src/llm/reasoning.rs:588-627 | Looking for one kind finds the blocks of that kind in order, whatever other blocks lie between |
| `TagDocs.RecoveryKeepsOrderIff` | src/llm/reasoning.rs:581-587 | Grouping the blocks by kind keeps them in place exactly under that condition |
| `TagDocs.MixedKindsOutOfOrder` | src/llm/reasoning.rs:581-627 | A `function_call` block before a `tool_call` block: the two calls come back the other way round |
| `TagStrip.OnePassLeavesPieces` | src/llm/reasoning.rs:662-731 | One pass over a text whose blocks all have that form leaves exactly the plain pieces joined |
| `TagStrip.XmlPassRemovesBlocks` | src/llm/reasoning.rs:662-704 | One XML pass removes exactly its blocks from a text with blocks of any kinds |
| `TagStrip.PipePassRemovesBlocks` | src/llm/reasoning.rs:710-731 | One pipe pass likewise |
| `TagStrip.UnclosedXmlTakesRest` | src/llm/reasoning.rs:692-701 | A block that never closes takes the rest of the text with it |
| `TagStrip.UnclosedPipeTakesRest` | src/llm/reasoning.rs:719-727 | Likewise for the pipe form |
| `TagStrip.UnendedRepeatsPrefix` | src/llm/reasoning.rs:682-703 | An opening with attributes that never ends makes the text before it come out twice |
| `TagStrip.NothingToStrip` | src/llm/reasoning.rs:662-731 | A text without any opening of the tag is not touched |
| `TextSearch.TrimDrops` | src/llm/reasoning.rs:658-658 | The final trim drops the whitespace around the text and nothing else |
| `TagStrip.UserSeesPieces` | src/llm/reasoning.rs:648-653 | All passes together leave exactly the plain pieces joined |

## Left out

- Turn records of tool calls, sessions' pruning and switching, thread hydration from the database: bookkeeping beside the protocol.
- The content of status messages, previews and condensed summaries: display only.
- `execute_chat_tool`, the safety layer and the language model: their answers are inputs of the model.
- An interrupt arriving while a loop runs: messages are handled one at a time (src/agent/agent_loop.rs:152-193), so the loop's check is modelled for every iteration but no run of the session takes it.
- Authentication mode of a thread, heartbeat, summarize and suggest commands: easy members.
- The follow-up and status notifications to todo clients, and the agent's own status writes beyond "some status is written".
- The step that re-acquires a permit after an approval is modelled as "acquire, then store in the slot", as src/todos/approval_registry.rs:24-27 describes; its code is not part of this model.
- Store failures of the card queue: the theorems are for runs where store calls succeed. Message statuses linked to cards are not modelled.
- CardReplay.ReplayRefinesPending: takes each operation and its broadcast as one step, and the snapshot at the subscription; ConnectGap has operations between the two.
- ConnectGap.ConnectGapIff: is about the instant of subscription; how a client that missed nothing that matters goes on from there is not followed further.
- CardStore.WriteThroughAgreesIff: a refinement's commit and store write are one step there; CardPublication has them apart.
- ToolEvents.TodoChannel.Respond: the todo's status write and the closing of the message stream are not modelled.
- ToolEvents.TodoChannel.Shutdown: registry cleanup and permit release are steps of Dispatch; the status reset and the saved transcript are not modelled.
- CardStore.RebuildAgreesIff: compares what is shown by id; the order of the rebuilt queue (by creation time) is not modelled.
- The dispatch of client messages to queue operations (src/cards/ws.rs:210-268) and the REST handlers: one call each.
- SplitMessage.Split: strings of single-byte characters and a positive limit; the original slices bytes.
- TagStrip.UserSeesPieces: needs the joined pieces, not only each piece, to be free of tags, because a removed block can join its neighbours into a new tag for a later pass.
- Attribute-style openings: the stripping model follows them, but the documents of TagDocs and TagStrip have none.
- JSON parsing of recovered calls is a parameter; regular expressions, triage and serialization are not modelled.
- The routine engine, email and Telegram transport, and the file workspace.
