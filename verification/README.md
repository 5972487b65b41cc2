# PyLeaner in Dafny

PyLeaner drives one Lean language server through a pool of worker threads, and
keeps going when that server crashes, hangs or runs out of memory. This project
models the parts of it in which several threads and processes have to agree,
and proves what they promise each other for every run; beside them it holds the
self-contained algorithms that have an exact meaning.

**The recovery protocol.** `MonitorSpec` says what the monitor process does with one
command, one guard and one pass; `MonitorProcess` is the process itself, its loop
variables updated in place, proved equal to it. `MonitorRuns` is about whole runs of
the monitor: what it tracks, how soon it notices an overdue task, when it may call a
worker dead; `Triggers` about why each trigger is raised, whom it names and that
nothing is passed over; `MonitorLog` reads the monitor's state off what it has heard
and said. `Protocol` is the transition system of the monitor, the owning process
(receiver, restart, shutdown) and the two queues between them, with ghost histories
of the scopes made and stopped, the triggers emitted and the generations recovered.
`GuardTables` holds the replay of waiting replacement events, `ProtocolProofs` the
inductive invariant, `ProtocolTheorems` the promises, `Observer` what the monitor
makes of the commands it is sent, and `ProtocolRefinement` shows that each turn of
the monitor's loop is a run of that transition system. `Watchdog` is the owning
process's object.

**Tasks.** `Tasks` is the transition system of resilient clients, routers, workers
and restarts, with old pools living on beside the current one; `TaskProofs` keeps
track of where each task is, `TaskTheorems` holds conservation and the soundness of
toxic verdicts, `QueueOrder` that nothing overtakes, `Restarts` what a restart does
with what it sees, `Outcomes` how each call ends, `Culprits` what becomes of a
marked task, `Verdicts` which reason it is told and how its call ends, and
`WorkerLoop` proves the worker's and the client's loops, as imperative code, against
it. `Attribution` joins the tasks with the monitor and says whose task a deadline
trigger hits.

**Algorithms.** `DidChange` (waiting for the diagnostics of one document version),
`Router` (choice of worker), `Framing` (base protocol of LSP 3.17, section "Header
Part") and `Senders` (its stream under concurrent senders), `RpcSession` (one call
with one reconnect), `PendingTable` (response routing) and `Teardown` (the session
locks a teardown waits for), `Journal` (durable timeouts, in scopes that may nest),
`ImportClosure` (worklist of imports), `TopK` (bounded search) and `BodyRange`
(body text against body range).

A run is a sequence of steps; `Legal` says that each step was enabled where it was
taken and `Exec` gives the state reached, so a statement about every `Legal`
sequence is a statement about every interleaving. What the operating system, the
server, the clock and the network do is a parameter: an observation, a list of
answers, a list of reads.

## Where the promise is not kept

Ten promises do not hold of the code as it stands; each has the exact condition
under which it does, and a run or an input with which it fails.

- Scopes can leak. A scope is live once systemd has made it and until it is told to
  stop. Four kinds of step leave a live scope that nobody names any more: the call
  that creates it raises although systemd has made it, because the request or the
  query for its control group timed out, in the monitor (`MonitorCanStrandAScope`) or
  in the owning process (`AttachCanStrandAScope`); the monitor dies, or is terminated,
  with a scope in its hands or announced in events that die with it
  (`DeathCanLeakAScope`); a dead monitor is replaced while events that announce
  live scopes are unread; and an interrupt, which the handler that cleans up does not
  catch, reaches the thread that attaches guards by hand
  (`InterruptCanLoseScopes`). `Harmless` is the test of the state before a step,
  `StepsLoseExactly` says that it is exact for every step of every party, and after a
  clean stop exactly the scopes dropped by failing steps are live
  (`CleanStopLeavesTheDropped`).
- PyLeaner's own `README.md` says on lines 13 and 234 that a culprit is never retried
  blindly. A marked task is submitted again if its worker met the dead server's broken
  pipe before the poison (`MarkedCulpritCanBeResubmitted`), or if it already counted
  as innocent when it was marked: a restart that is tried again marks whatever the
  slots still show, and a worker that drains its queue still shows the task it has
  answered (`InnocentCulpritCanBeResubmitted`). It is submitted again in no other case
  (`WhenCulpritsAreResubmitted`).
- A task blamed for its deadline is to be reported as late. A client that reads a
  toxic reply reports it so if and only if the latest reason given to the task before
  its worker's one answer reads as a deadline, and otherwise rejects it with that
  reason or none (`WhenBlamedTasksAreLate`). It fails in two ways: the mark is set
  before the reason, and the worker may look in between (`ReasonCanBeMissing`), which
  is the only way to find a mark without a reason and only until a first reason is
  given (`ReasonIsMissingOnlyHalfway`); or the next restart, which blames whatever the
  slots show, has overwritten the reason (`ReasonCanBeOverwritten`).
- PyLeaner's `README.md` says on line 241 that a deadline marks only that worker's
  current task and that the innocent are retried. The slots are read when the restart
  begins, so the task marked is the one the monitor tracked if and only if its worker
  has begun no other since (`DeadlineHitsTheTrackedTask`); a worker that has moved on
  has its next task marked (`AnotherTaskCanBeMarked`).
- The stream to the server is whole messages if and only if no write was cut short
  (`StreamIsWholeFrames`), and otherwise the reader does not get what was sent
  (`ReaderNeedsWholeFrames`): the pipe is opened without a buffer and the number of
  bytes written is ignored (`WriteCanBeCutShort`).
- A teardown is to wake every caller before its own time-out. It first invalidates the
  sessions, and so waits for every connect that holds a session's lock; of the callers
  registered when it began it wakes exactly those that have not left by the time it
  takes the table (`WhoIsWoken`), and one can have expired (`CallerCanExpireUnwoken`).
- Timeout receipts are durable over scopes entered one after the other
  (`ResumingIsNotStopping`). A scope opened inside another is accepted, and the outer
  one's next change writes over what the inner one wrote (`RunNested`,
  `NestingLosesReceipts`).
- A task is answered twice exactly when it succeeded and either its result is an
  object whose `diagnostics` has no length, or the event sink raised the time-out
  exception that passes by ordinary handlers (`TaskIsInExactlyOnePlace`,
  `SuccessCanBeAnsweredTwice`). The first takes a server that answers with such an
  object: the handlers that add diagnostics themselves add a list. The second takes
  a sink supplied by the caller. The client reads the first reply only.
- A recovery that completes need not have opened a new generation while no pool
  is armed (`UnarmedRecoveryMayNotRaise`, `CompletedRecoveryRaisesTheGeneration`).
- A connect whose send raises leaves its id in the routing table until the next
  teardown, because the send stands before the block that cleans up
  (`CallWithRecovery`, `OnlyRaisingConnectsStay`, `RaisingConnectStays`).

One documented detail also differs from the code, which the model follows: the
diagnostics a worker returns are those without a severity or with one of at most
3, not only errors (`pyleaner/worker.py` lines 327 and 401). The two computations of
a body in `LeanLspExtension/Register.lean` are compared as functions of any source
and node range. Where they differ, for a fields node that spells `where where` and
for nodes with white space at their ends, no input of Lean's parser is claimed:
`where` is a keyword and node ranges end at tokens.

## Model

| member | source | states |
|---|---|---|
| MonitorProcess.Process.Take | pyleaner/watchdog.py:285-330 | the in-place handling of one command gives the specified loop variables and event; stale generations change nothing |
| MonitorProcess.Process.Drain | pyleaner/watchdog.py:285-330 | the inner loop consumes the queue up to its end or a stop command, in order |
| MonitorProcess.Process.Inspect | pyleaner/watchdog.py:356-470 | one guard's tests, in the code's order, with the scopes made and stopped on every branch, a scope whose creating call raises included |
| MonitorProcess.Process.Sweep | pyleaner/watchdog.py:356-470 | the walk over the guards stops at the first trigger and accumulates all effects before it |
| MonitorProcess.Process.Poll | pyleaner/watchdog.py:336-470 | a whole pass: liveness first, then the deadline poll, which names exactly the workers over the deadline, then the guards |
| MonitorSpec.Visit | pyleaner/watchdog.py:356-470 | a visit keeps the guarded workers, tasks and generation, and pauses exactly when it raises a trigger |
| MonitorSpec.Scan | pyleaner/watchdog.py:356-470 | so does the whole walk |
| MonitorRuns.TaskTableIsTheView | pyleaner/watchdog.py:299-322 | in every run the task table is exactly the workers whose latest current-generation message is a start, with that start time |
| MonitorRuns.LateFinishIsHarmless | pyleaner/watchdog.py:319-322 | a finish message of another generation, wherever it lands in the history, never changes what is tracked |
| MonitorRuns.QuietPass | pyleaner/watchdog.py:336-354 | a pass that raises nothing although a task is tracked came no later than one poll interval after the later of its deadline and the last poll before it was tracked |
| MonitorRuns.OverdueTaskIsDetected | pyleaner/watchdog.py:336-354 | however late the start message is taken, a task that stays tracked is named in a trigger no later than max(start + deadline, first tracked pass) + poll interval + distance between passes |
| MonitorRuns.ShippedWaitsOutliveDetection | pyleaner/watchdog.py:48-62 | with the shipped constants, and the start message taken before the deadline, detection precedes the RPC wait for passes at most 20 s apart and the resilient wait for 60 s |
| MonitorRuns.RecordsAreFaithful | pyleaner/watchdog.py:384-444 | a recorded first-missing time is the time of a pass since which every pass found that worker gone and nothing reset the record |
| MonitorRuns.WorkerDeathIsJustified | pyleaner/watchdog.py:457-470 | a worker-death trigger names one worker with a tracked task that every pass over at least the grace period found neither alive nor rebound |
| Triggers.PassTriggers | pyleaner/watchdog.py:336-470 | a pass raises a trigger exactly when the server is dead, a poll finds a task over the deadline or there is evidence against a guarded worker, and kind, reason and workers are those of that cause |
| Triggers.TriggersAreJustified | pyleaner/watchdog.py:336-470 | in every run a deadline trigger names exactly the workers whose task, by their own messages, has been running for longer than the deadline, a death of the server exactly those with a task, and any other trigger the first worker with evidence against it: over a limit, killed in its scope, or gone for the grace period |
| Triggers.TroubleIsReported | pyleaner/watchdog.py:336-470 | and an awake monitor passes over none of these |
| Triggers.FatalLinesAreReported | pyleaner/watchdog.py:323-330 | what a drain emits is exactly one trigger for each fatal line that reaches an awake monitor in its own generation, naming all that is tracked then |
| Triggers.PollsAreSpaced | pyleaner/watchdog.py:344-354 | polls that find no deadline exceeded are at least one poll interval apart |
| Triggers.DeadWorkerIsDetected | pyleaner/watchdog.py:457-470 | a tracked worker that every pass over at least the grace period finds gone, with no other process for it, makes the last of these passes raise a trigger |
| MonitorLog.MonitorIsItsLog | pyleaner/watchdog.py:284-470 | after every run whether the monitor is paused, which server it watches and which process it guards for each worker are read off the commands taken and events emitted |
| MonitorLog.ReplacementsTakeOver | pyleaner/watchdog.py:404-455 | each replacement announced is a live process found in place of one that was gone, with the scope, if any, and the count of kills of its adoption |
| MonitorLog.ScanScopes | pyleaner/watchdog.py:404-455 | a walk that raises no trigger makes and stops exactly the scopes that what it saw of each worker calls for |
| GuardTables.StaleEventsChangeNothing | pyleaner/watchdog.py:844-876 | receiving replacement events of other generations leaves the table as it is |
| GuardTables.ReplayAppend | pyleaner/watchdog.py:844-876 | receiving one more event commutes with receiving the earlier ones |
| GuardTables.LinkAppend | pyleaner/watchdog.py:442-455 | a new event that replaces what the replayed table records keeps the chain of replacements linked |
| ProtocolProofs.Step | pyleaner/watchdog.py:284-470 | every step of every party keeps the invariant: scopes, their names, chains, queue order, tables, fencing, phases |
| ProtocolProofs.Invariant | pyleaner/watchdog.py:616-1065 | the invariant holds after every interleaving |
| ProtocolTheorems.LiveScopesAreAccountedFor | pyleaner/watchdog.py:404-455 | every live scope is recorded, announced in the queue, in the hands of the step creating it, or was dropped earlier |
| ProtocolTheorems.StepsLoseExactly | pyleaner/watchdog.py:475-517 | in every reachable state, what a step leaves live and unnamed is read off the state before it, and is nothing exactly when the test of that state passes |
| ProtocolTheorems.UnnamedScopesWereDropped | pyleaner/watchdog.py:404-455 | after every run the live scopes nobody names are exactly those its steps dropped |
| ProtocolTheorems.CleanStopLeavesTheDropped | pyleaner/watchdog.py:664-709 | after a clean stop the live scopes are exactly those dropped on the way, none if and only if every step passed the test |
| ProtocolTheorems.DeathCanLeakAScope | pyleaner/watchdog.py:442-455 | a run whose clean stop leaves the scope of an unannounced replacement live |
| ProtocolTheorems.MonitorCanStrandAScope | pyleaner/watchdog.py:410-440 | a run without any death whose clean stop leaves live the scope of a replacement whose creating call raised |
| ProtocolTheorems.AttachCanStrandAScope | pyleaner/watchdog.py:909-932 | the same while the owning process puts the workers under guard |
| ProtocolTheorems.InterruptCanLoseScopes | pyleaner/watchdog.py:909-932 | the same when an interrupt, passing by the handler that stops what was created, ends an attachment by hand |
| ProtocolTheorems.TablesAgreeByReplay | pyleaner/watchdog.py:844-876 | within one generation, replaying the waiting events over the owning process's table gives exactly the monitor's table |
| ProtocolTheorems.OneTriggerPerGeneration | pyleaner/watchdog.py:323-354 | over a run each generation emits at most one trigger and is recovered by a trigger at most once |
| ProtocolTheorems.NoTriggerIsLost | pyleaner/watchdog.py:770-813 | while the monitor lives, every trigger emitted is waiting, has been recovered or is of an older generation, until the process stops |
| ProtocolTheorems.StaleTriggersStartNothing | pyleaner/watchdog.py:797-813 | a trigger starts a recovery only in its own, not yet recovered, generation |
| ProtocolTheorems.CompletedRecoveryRaisesTheGeneration | pyleaner/watchdog.py:990-1065 | a completed recovery opened a new generation exactly when some attempt found the server alive, always so once a pool is armed |
| ProtocolTheorems.UnarmedRecoveryMayNotRaise | pyleaner/watchdog.py:1050-1056 | a run in which an unarmed recovery completes in the old generation |
| ProtocolTheorems.RecoveryCompletesUnderGuard | pyleaner/watchdog.py:909-939 | a recovery that has begun to put workers under guard completes only by recording and publishing them all, and else fails and is tried again |
| Observer.NobodyWatchesTheKill | pyleaner/watchdog.py:727-731 | in every run, from the start of an attempt until the new server is looked for, a pause is the last word to the monitor, and once it is taken the monitor is paused, guards nobody and adopts nobody |
| Observer.NoGuardsSurviveTheKill | pyleaner/watchdog.py:941-947 | from then until new workers are attached no worker is recorded as guarded |
| Observer.MonitorFollows | pyleaner/watchdog.py:711-731 | after every run, once the monitor has taken what is queued it is in the generation of the server announced last, and awake exactly if since then no recovery has paused it and no trigger or fatal line of that generation has |
| ProtocolRefinement.VisitIsARun | pyleaner/watchdog.py:356-470 | what one visit of the loop does is a legal run of the protocol with the same effects |
| ProtocolRefinement.ScanIsARun | pyleaner/watchdog.py:356-470 | so is the walk over all guards |
| ProtocolRefinement.DrainIsARun | pyleaner/watchdog.py:285-330 | so is the drain of the command queue |
| ProtocolRefinement.TurnIsARun | pyleaner/watchdog.py:284-472 | a whole turn of the monitor's outer loop is a legal run, so the theorems about runs hold of the loop |
| Watchdog.Watchdog.SetRootProcess | pyleaner/watchdog.py:711-725 | a new generation, announced in the command queue if there is a monitor process |
| Watchdog.Watchdog.AcceptReplacementGuard | pyleaner/watchdog.py:844-876 | takes over a replacement of the recorded process in the current generation, and stops the scope of any other |
| Watchdog.Watchdog.StopWorkerScopes | pyleaner/watchdog.py:941-947 | empties the table and stops exactly the scopes it named |
| Watchdog.Watchdog.CreateGuards | pyleaner/watchdog.py:909-928 | the guards of all workers, each with its process, scope and count of kills, or those before the first whose scope fails, and every scope made, the one of a call that raised late included |
| Watchdog.Watchdog.AttachWorkerGuards | pyleaner/watchdog.py:882-939 | which of the outcomes comes when: dead server, exactly the missing workers, a failed scope undoing the created ones but not one that its call lost, and success recording and publishing each worker's process, scope and count of kills |
| Watchdog.Watchdog.StopGuards | pyleaner/watchdog.py:687-700 | from a table its queue continues, shutdown stops every scope that table or queue named and nothing else |
| TaskProofs.PlacesInvariant | pyleaner/pool.py:98-172 | in every run each task is where the history says and queues hold no task twice |
| TaskTheorems.TaskIsInExactlyOnePlace | pyleaner/worker.py:117-218 | each submitted task is in exactly one place, once, with at most one reply, and a second exactly after a success whose diagnostics cannot be counted or whose event made the sink raise |
| TaskTheorems.ExitingWorkerHasAnsweredEverything | pyleaner/worker.py:220-248 | when a poisoned worker exits, everything that was ever in its hands or queue has been answered, and once unless such a success |
| TaskTheorems.ToxicReplyIsJustified | pyleaner/watchdog.py:1011-1035 | a toxic reply implies that a restart found that very attempt in the slot of a worker it blames, named by its trigger unless that is a fatal line or the death of the server, and its reason is that of such a restart |
| Restarts.SnapshotMarksTheBlamed | pyleaner/watchdog.py:1013-1026 | a restart begins by noting exactly the tasks in the slots of workers that its trigger names, for deadline, memory, worker death and monitor death, and of all workers of the pool for a fatal line and a dead server |
| Restarts.RestartDoesWhatItSaw | pyleaner/watchdog.py:1013-1035 | in every run, by the time it poisons, it has marked and given its reason to exactly those tasks, and the poison reaches exactly the workers that showed a task |
| Restarts.OnlySeenWorkersAreInterrupted | pyleaner/watchdog.py:1028-1035 | a worker is interrupted only if a restart saw it serve a task or a teardown woke it over the very task it serves |
| Restarts.RestartsLookAtTheNewestPool | pyleaner/watchdog.py:760-770 | a restart looks at the pool made last, whose workers are numbered from 1 to its size |
| Outcomes.CallEndsAsAnswered | pyleaner/client.py:143-198 | in every run a call whose wait expired is late, and any other that has ended was ended by the first reply of its last attempt: returned exactly on a result, and late, rejected or failed exactly on the replies that say so |
| Outcomes.WhatReadsAsDeadline | pyleaner/client.py:161-164 | a reason reads as a deadline if it is one, or is a line with the word in it or with the text in front, in whatever case |
| Outcomes.WhatASecondReplyIs | pyleaner/worker.py:158-213 | which second reply a task gets: an error after an object whose diagnostics are not a text, list or object, else the sink's time-out |
| QueueOrder.NothingOvertakes | pyleaner/pool.py:98-172 | in every run a worker's queue is in order of submission, behind the task in its hands and ahead of what waits in its pool |
| TaskTheorems.ToxicVerdictIsSoundAndFinal | pyleaner/client.py:129-198 | a client reports toxic only for its own blamed last attempt, submits nothing after it, and each earlier attempt was an innocent interruption or a broken pipe |
| Culprits.MarkedTaskIsNeverInnocent | pyleaner/worker.py:220-233 | a task marked before its worker looks for the mark is never told it was innocent, whoever reads the poison |
| Culprits.MarkSettlesInnocence | pyleaner/watchdog.py:1019-1026 | from the moment a task is marked, whether it counts as innocent never changes |
| Culprits.WhenCulpritsAreResubmitted | pyleaner/client.py:160-198 | every marked task is submitted again only after a broken pipe or if it counted as innocent at its marking, and then it is, unless its reply is unread or its wait has expired |
| Culprits.MarkedCulpritCanBeResubmitted | pyleaner/client.py:182-194 | a run in which a marked task is submitted again after a broken pipe |
| Culprits.InnocentCulpritCanBeResubmitted | pyleaner/watchdog.py:824-840 | a run in which it is without one: a repeated restart marks a task that a draining worker has answered as innocent |
| Culprits.ReasonCanBeMissing | pyleaner/client.py:161-169 | a run in which a task blamed for its deadline is rejected as toxic for want of the reason |
| Culprits.ReasonCanBeOverwritten | pyleaner/watchdog.py:1024-1025 | a run in which one is rejected although mark and reason are there: a second restart has written its own reason over the deadline |
| Verdicts.ReasonIsMissingOnlyHalfway | pyleaner/watchdog.py:1024-1025 | in every run a marked task lacks a reason if and only if the restart stands between its two assignments and none was ever given before |
| Verdicts.TellingIsTheFirstReply | pyleaner/worker.py:220-233 | the first reply of a task that its worker answers after a poison is the mark found and the latest reason given before that step |
| Verdicts.ToxicReplyWasTold | pyleaner/worker.py:220-233 | a toxic first reply comes from such a step and from nothing else |
| Verdicts.WhenBlamedTasksAreLate | pyleaner/client.py:160-169 | in every run, a call that reads a toxic reply ends as late if and only if the latest reason given before the one step that told it reads as a deadline, and else is rejected with that reason |
| Attribution.DeadlineHitsTheTrackedTask | pyleaner/watchdog.py:1011-1026 | in every run of workers, monitor and restarts, what the slot of a worker named by a deadline trigger shows is marked, and is the task tracked if and only if that worker is of the current pool and has begun no other since |
| Attribution.AnotherTaskCanBeMarked | pyleaner/watchdog.py:1015-1026 | a run in which the deadline of one task marks another, which its worker has begun in the meantime |
| Culprits.SuccessCanBeAnsweredTwice | pyleaner/worker.py:159-203 | for every result and sink that trouble the bookkeeping, a run that answers the task twice |
| WorkerLoop.DeliverAnswersEach | pyleaner/worker.py:235-248 | draining a queue answers each task as often as it was queued, with that reply, and no other task |
| WorkerLoop.Worker.OnServiceUnavailable | pyleaner/worker.py:220-248 | the slot's task gets its mark, every queued task an innocent reply, and the queue is empty |
| WorkerLoop.Worker.Turn | pyleaner/worker.py:117-218 | one turn of the thread's loop is a run of the transition system of tasks, and the task gets its result, its error, or its mark and reason, with the second reply where there is one, for every way serving can end |
| WorkerLoop.SubmitResilient | pyleaner/client.py:129-198 | every attempt but the last was sent back by a broken pipe or an innocent interruption, and the last decides: a result is returned, a missing pool and other errors fail, expired waits and time-outs are late |
| WorkerLoop.SubmitsWhenReady | pyleaner/client.py:129-143 | each attempt waits for the server and submits to the pool found then, and waits for the restart to begin after a broken pipe only |
| DidChange.Worker.Run | pyleaner/worker.py:321-412 | the answer is the filtered last diagnostics of its own version, at the first read with two completions, some diagnostics and an empty queue; versions only grow |
| DidChange.Worker.Filter | pyleaner/worker.py:397-409 | the filter loop keeps the wanted diagnostics in order up to a malformed one |
| DidChange.ReadyMeans | pyleaner/worker.py:376-395 | the answer is ready exactly after two messages that report its version finished, one that publishes its diagnostics and an empty queue, and is what the last of these published |
| DidChange.KeptIsTheFilter | pyleaner/worker.py:397-409 | without malformed entries exactly those with no severity or one of at most 3 are kept, as often as they came |
| DidChange.OtherVersionsDoNotMatter | pyleaner/worker.py:376-392 | messages about other versions change neither when the answer is ready nor what it is |
| DidChange.Serve | pyleaner/worker.py:274-277 | over any sequence of calls, timed-out and cancelled ones included, versions strictly increase and those sent are those taken |
| Router.WorkerPool.Route | pyleaner/pool.py:98-154 | the task goes to the ready worker with the fewest tasks, queued or being served, and of those to the first going round from the cursor, the cursor moves past it, and without ready workers it is failed |
| Router.ChosenIsUnique | pyleaner/pool.py:132-139 | load and rotation never leave a tie |
| Router.RoundRobin | pyleaner/pool.py:132-140 | from equal loads, all ready, no completions, the k-th task goes to worker (cursor + k) mod n |
| Router.SpreadIsKept | pyleaner/pool.py:132-140 | assignments never widen the spread among ready workers beyond max(1, what it was) |
| Router.AssignmentsLevelTheLoads | pyleaner/pool.py:132-140 | after exactly as many assignments as the ready workers lack to the fullest, they are equally loaded |
| Framing.ReadExact | pyleaner/client.py:357-367 | exactly n bytes whatever the sizes of the partial reads, or end of stream |
| Framing.ReadHeader | pyleaner/client.py:371-378 | reading byte by byte stops at the first blank line, the end of the stream or the length limit |
| Framing.HeaderEndIsFirst | pyleaner/client.py:371-378 | the header ends with the first blank line within 8192 bytes, and without one the error says whether stream or limit ended it |
| Framing.FrameBegins | pyleaner/client.py:480-485 | a frame begins with the field `Content-Length`, the number of characters in decimal digits, and a blank line |
| Framing.EncodeCharIsUtf8 | pyleaner/client.py:483-485 | characters are encoded as in section 3 of RFC 3629 |
| Framing.ReadMessage | pyleaner/client.py:369-396 | the reader on the stream computes the specified first message and leaves the rest |
| Framing.FrameReadBack | pyleaner/client.py:480-485 | reading a frame back takes as many bytes as its text has characters |
| Framing.RoundTrip | pyleaner/client.py:480-485 | reading back gives the whole message and stops at the next frame if and only if the text is ASCII |
| Framing.EncodeIsInjective | pyleaner/client.py:483-485 | the bytes determine the text |
| Senders.StreamIsWholeFrames | pyleaner/client.py:487-498 | after every run of the senders the stream is what they wrote in lock order, and is whole frames and a prefix of the lock holder's if and only if no write was cut short |
| Senders.ReaderGetsWhatWasSent | pyleaner/client.py:369-396 | without short writes the reader gets exactly the sent messages in lock order, the one under way included once it is whole |
| Senders.ReaderNeedsWholeFrames | pyleaner/client.py:487-498 | whenever the lock is free, the reader has got exactly what was sent if and only if no write was cut short |
| Senders.WriteCanBeCutShort | pyleaner/client.py:318-328 | a run in which a short write on the unbuffered pipe loses a message |
| RpcSession.Session.CallWithRecovery | pyleaner/rpc_session.py:348-412 | a call is one conversation of the specified shape, afterwards the live session is the one last granted or called on, or none if that was lost, and the routing table is as before but for connects whose send raised |
| RpcSession.Session.CallOnce | pyleaner/rpc_session.py:283-346 | one send on the live session, its id deregistered however it ends |
| RpcSession.Session.ConnectOnce | pyleaner/client.py:508-536 | a connect deregisters its id unless its send raised |
| RpcSession.Session.Reconnect | pyleaner/rpc_session.py:230-241 | the session afterwards is the one granted, or none |
| RpcSession.ReconnectsOnLostSessions | pyleaner/rpc_session.py:65-86 | a connect follows a call exactly when the caller may retry and the answer has one of the three lost-session codes or says the session is outdated |
| RpcSession.OutcomeIsTheLastAnswer | pyleaner/rpc_session.py:65-86 | how a call ends is told by the answer to its last message, kind by kind, an error response by its code or text |
| RpcSession.CallsUseTheGrantedSession | pyleaner/rpc_session.py:348-412 | every call goes over the session just granted, or else the live one |
| RpcSession.CallIsBounded | pyleaner/rpc_session.py:348-412 | at most two sends of the call and one reconnect, the second only because the first answer asked for it |
| PendingTable.NoLostWakeUp | pyleaner/watchdog.py:973-988 | once a teardown has finished, every caller it found that still waits has an item and cannot give up; each was woken exactly once, others never |
| PendingTable.TakenItemWasMeant | pyleaner/client.py:455-467 | a caller takes the first item put for it, and is told of a teardown only if one found it |
| PendingTable.OnlyRaisingConnectsStay | pyleaner/rpc_session.py:342-346 | a call that has ended is out of the table, except a connect whose send raised, until a teardown |
| PendingTable.RaisingConnectStays | pyleaner/client.py:513-524 | a run in which one does |
| Teardown.SeenIsARun | pyleaner/watchdog.py:951-988 | what the routing table sees of a run with session locks is one of its own runs, so the promises above hold here too |
| Teardown.WhoIsWoken | pyleaner/watchdog.py:951-988 | when a teardown takes the table, every connect that held a lock of its sessions when it began has ended, and of the callers registered then it wakes exactly those that have not left |
| Teardown.CallerCanExpireUnwoken | pyleaner/rpc_session.py:203-228 | a run in which a caller registered when a teardown begins expires while the teardown waits for the lock of a connecting session |
| Journal.Sample.Enter | pyleaner/timeout_policy.py:13-26 | a scope, inside another or not, starts from the file; it is refused exactly when the streak on disk has reached the limit, and a limit below one is an error |
| Journal.Sample.RunTool | pyleaner/timeout_policy.py:46-81 | answer, innermost state and file after one call, inside and outside a scope; a file that held the state still does |
| Journal.RunScope | pyleaner/timeout_policy.py:13-26 | a scope of the program, with any limit and inside any others, answers and leaves the file as the specification of one scope says |
| Journal.ResumingIsNotStopping | pyleaner/timeout_policy.py:13-81 | however the calls are cut into scopes entered below the limit, feedback, streak and receipts are those of one uninterrupted run |
| Journal.RunNested | pyleaner/timeout_policy.py:13-43 | the first call of an outer scope to change its state leaves that state in the file, whatever the scope inside it wrote; a call that changes nothing leaves the inner scope's file |
| Journal.NestingLosesReceipts | pyleaner/timeout_policy.py:35-43 | the receipt of a timeout in the inner scope is then gone, where one uninterrupted run has it |
| Journal.StreakCountsOpenTimeouts | pyleaner/timeout_policy.py:46-81 | the streak is the number of timeouts since the last completed submission, a replay returns the first receipt of its key, and any other call its value or its error |
| Journal.PauseMatchesRefusal | pyleaner/timeout_policy.py:84-88 | a fresh timeout pauses the sample exactly when re-entering would be refused |
| ImportClosure.Imports | pyleaner/observability.py:103-113 | the import lines' modules without repetitions, in order of first occurrence |
| ImportClosure.FirstMentionDecides | pyleaner/observability.py:103-113 | of two modules the one listed first is mentioned at a place by which the other is not |
| ImportClosure.Closure | pyleaner/observability.py:125-143 | the worklist ends with exactly the reachable modules and exactly the local files among them |
| ImportClosure.ChildrenAreImported | pyleaner/observability.py:103-143 | a module imports what the import lines of its local file name |
| ImportClosure.ClosedIsExact | pyleaner/observability.py:125-143 | a closed set of reachable modules is all of them |
| ImportClosure.OrderDoesNotMatter | pyleaner/observability.py:125-143 | what is reached does not depend on the order or repetition of imports |
| ImportClosure.ResultIsDetermined | pyleaner/observability.py:136-143 | the reached modules and the files determine the fingerprint table |
| TopK.InsertionIsExact | LeanLspExtension/Register.lean:1415-1424 | inserting into the best of what came before gives the best of everything |
| TopK.StreamingIsBatch | LeanLspExtension/Register.lean:1437-1446 | streaming any candidates whose keys identify them, repeated or not, gives the first of the whole list sorted, whatever the sort does with ties |
| TopK.BestAreBest | LeanLspExtension/Register.lean:1420-1424 | the best of a list are in order of score and name, as many as the limit allows, and nothing left out is better |
| TopK.LessIsLexicographic | LeanLspExtension/Register.lean:1420-1424 | names are compared at the first character in which they differ |
| TopK.OrderDoesNotMatter | LeanLspExtension/Register.lean:1437-1446 | the result does not depend on the order of insertion |
| TopK.TiesAreUndetermined | LeanLspExtension/Register.lean:1420-1424 | two different items with one key may come out either way |
| TopK.SearchDeclarations | LeanLspExtension/Register.lean:1429-1446 | exact matches, else on request the best of the whole environment, at most 32 |
| BodyRange.SimpleBodiesAgree | LeanLspExtension/Register.lean:725-741 | after `:=` the range exists exactly when the text does, lies in the node and spells the text |
| BodyRange.TrimCutsBlanks | LeanLspExtension/Register.lean:457-464 | trimming cuts off exactly the spaces, tabs, returns and line feeds at the ends |
| BodyRange.WhatStripAssignLeaves | LeanLspExtension/Register.lean:441-446 | stripping takes off leading blanks, one `:=` and the blanks after it, and nothing else |
| BodyRange.WhatStripWhereLeaves | LeanLspExtension/Register.lean:657-666 | the same of one leading `where` |
| BodyRange.StructureBodiesAgree | LeanLspExtension/Register.lean:703-723 | for structures the range spells the text whenever there is one, and stands alone exactly when the body is the word `where` |
| BodyRange.TextCanBeMissing | LeanLspExtension/Register.lean:661-667 | a node text for which there is a range and no text |
| BodyRange.OtherBodiesAgree | LeanLspExtension/Register.lean:457-464 | other bodies: the node's range spells the text if and only if the node has no white space at its ends |
| BodyRange.InductiveBodiesAgree | LeanLspExtension/Register.lean:1147-1150 | inductive types: moreover the node must not begin with `where` |

## Left out

- Process plumbing: `/proc`, signals, `busctl` and `systemctl` and process start-up are observations chosen freely, a creating call that times out after systemd has acted among them; a scope counts as stopped once systemd has been told to stop it, whether or not it obeys.
- Real time: when a wait times out is chosen freely; only the monitor's detection bound and grace period reason about clock readings.
- Liveness: a submission routed to an already exited worker waits for the client's time-out, so no statement says that every submission is answered.
- `stop()` while a recovery is running, and a pool created by hand while the receiver recovers: the owning process's steps are taken one at a time, and guards are attached once per generation. An interrupt of the main thread is modelled while it attaches guards by hand, not while it connects or stops.
- Raising the generation and sending the root command are one step, as are the two halves of taking a task out of the overall queue and putting it into a worker's queue.
- The walk over a dictionary is in any order; the texts of reasons are replaced by a data type, except that the reason of a deadline is read back as the client does.
- The end of the parent process (the monitor returns) and the empty task that ends a worker thread.
- Keep-alive messages, which can invalidate a session between two steps of a call, and the identifier a direct document request shares with the counter (`worker_id + 1000`): request identifiers are taken to be fresh.
- `WorkerLoop.Worker.Turn`: is taken without interruption; the interleavings are in the transition system of `Tasks`.
- `Router.WorkerPool.Route`: reads all loads at one moment; the instant between fetching a task and showing it in the slot, in which it counts for nobody, is not seen.
- `Framing.ReadMessage`: gives the bytes of the content, not their decoding with replacement characters, and reads the announced length only as plain decimal digits where the code also accepts signs, spaces and underscores.
- `Senders`: a write that raises breaks the pipe for good.
- Journal files that cannot be written, and JSON itself: the file holds the state.
- The regular expression of import lines and the search for a module's file: a line is given with the modules it names, a module with its file; fingerprints are an unspecified function of the text.
- `TopK`: the scoring by edit distance and the pretty-printing of types; strings are compared character by character.
- `BodyRange`: positions are character indices, so conversions between UTF-8 and UTF-16 are not modelled; nodes have valid ranges, and the text taken from the children of a node without a range is left out.
- Opening a document, notifications buffered during initialisation, debug logging, and the wrappers of workers and pools that only forward a call.
- Events: what they say is not modelled, and a sink that raises anything but an `Exception`, other than a time-out at the event of a success, which ends the worker's thread.
