# AI Worker Bridge: verified model

The AI Worker Bridge accepts prompts for AI workers, keeps asynchronous tasks in a durable table and
runs them in background coroutines that survive cancels, graceful stops, process crashes, restarts and
configuration reloads. This project models its four hard parts and proves what they promise.

**The durable task lifecycle.** `Protocol` is a labelled transition system over one persistent table; a step
is the code between two suspension points of the event loop, and a run takes any number of crashes, stops,
restarts and reloads. `Invariant` holds what every run keeps, `TaskLife` what a run keeps of one task under
a condition on its own starts, `Theorems`, `Dispatches` and `Accounting` what follows over whole runs.
`Effects` says what each operation does by what can be seen of it: where every record and every request
comes from, whom a cancel, a stop and a restart reach, and what each step leaves. `Unreplayed` holds what
every run keeps of a task the policy refuses to replay, whatever its starts. `Converses` says which
submissions lose a guarantee, from every reachable state: exactly those the theorems exclude; `Paths` builds
the continuations it names. `TaskStores.TaskStore`, `Metrics.MetricsRegistry` and `Managers.TaskManager` are
the objects that change in place; each method of the manager is proved to be the protocol step of the same
name, so the theorems about runs speak of the object.

**The path policy.** `PathText`, `PathMatcher` and `PathPolicy` model the segment matcher, the string
comparisons and the normaliser, on text, and relate all three to the segments a path names.

**The worker gate.** `Breaker`, `Gates` and `Registries` model the semaphore with its line, the active
count, the circuit breaker and what they report to the metrics, under every interleaving of calls;
`Metrics` holds the histogram.

**The watchdog.** `Watchdog` models the polling loop against an arbitrary stream of responses and
durations; `WatchedTasks` composes it with the lifecycle.

## How the pieces are read

- A *run* starts from an empty table and takes any enabled steps (`Protocol.IsRun`). What is said of
  *every run* has no other condition.
- A `start` finds a task *ready* when each live coroutine of its open record is registered in the
  background map, and *clean* when, besides, that record is still Pending. A task that every start of the
  run finds ready, or clean, is called a ready, or clean, task below (`Theorems.OrderlyFor`): the condition
  is on that task alone.
- `Theorems.TimelyIsOrderly` turns it into one that a caller can check: a task is ready when its own
  submission found no `stop` waiting, and clean when it found the manager serving, whatever else the run
  does. `Theorems.StartSafeIffClean` shows that a start keeps coroutine and record in agreement exactly
  when it finds the task clean.
- `uuid4` is a supply of numbers never handed out twice. The clock's `now`, the frontmatter reader's
  result, the worker's reply, request durations and clock readings are parameters of the steps, so every
  statement holds for all of them. Durations, delays and thresholds are `real`; wall-clock times are
  values that are only stored.
- A table is a map from ids to records with one unique key index; each SQL statement is atomic.

## What the proofs found

- **Submissions while `stop` waits.** `call` does not look at `_started`, and `stop` clears the background
  map without looking for newcomers. From every reachable state, a submission accepted while a stop waits,
  and no other, can have its coroutine left behind when the stop returns (`Converses.LeftBehindIffStopping`)
  and get a second one at the next start (`Converses.TwoCoroutinesIffStopping`). Its task can then be sent
  twice though the policy refuses to replay it (`Converses.SentTwiceIffStopping`), and a request for it can
  leave after the caller's cancel, which does not reach the forgotten coroutine
  (`Converses.SentAfterCancelIffStopping`; for every other task a cancel ends the work,
  `Effects.CancelStopsTheWork`). A caller's cancel of it can be undone, when a coroutine asleep on the
  Recovering record has been unregistered by the end of the other and wakes over the Cancelled record
  (`Converses.ReopenedIffStopping`): perhaps after a reload, and with the configuration left alone exactly
  when the policy replays the task and there is a recovery delay (`Converses.ReopenedAsIsIff`).
- **Submissions before `start`.** A start makes a Running record Recovering under the coroutine that works
  on it. From every reachable state, a submission accepted while the manager is not serving, and no other,
  can come to this (`Converses.DisagreesIffNotServing`). Then the worker's reply can be refused, and stored
  as Failed (`Converses.RefusedReplyIffNotServing`, `Effects.RecoveringAnswerFails`), and a timeout, for
  which Recovering has no edge, is swallowed: the coroutine ends and the task stays open
  (`Converses.SwallowedIffNotServing`). So a task can be open while the manager serves with nobody working
  on it and nobody having deferred it: perhaps after a reload (`Converses.LostIffNotServing`), and with the
  configuration left alone exactly when the policy replays the task (`Converses.LostAsIsIff`).
- **Tasks that are not replayed.** In every run, whatever the starts find, a task the policy refuses to
  replay may be sent twice, but it is never lost (`Unreplayed.RefusedNeverLost`) and its record stays as it
  is once over (`Unreplayed.RefusedFrozen`); without a recovery delay so does every record
  (`Unreplayed.UndelayedFrozen`).
- **Capacity needs a start.** Nothing counts the Running rows of a crashed process before the next start.
  From every reachable Idle state, an accepted submission can be followed by as many open records as one
  likes when no per-worker limit is set (`Converses.IdleBreaksCapacity`); with every submission accepted by
  a serving manager the bound holds (`Accounting.ServingCapacity`).
- **The counters.** In every run, a step puts a terminal state's counter ahead of the table exactly when a
  sleeping coroutine wakes over a record that is over in that state (`Accounting.StepExcess`,
  `Accounting.CountedExactlyOnce`).
- **Legacy rows.** Pending has no edge to Failed or TimedOut, so a pre-dispatch failure of a Pending row
  without a directory (its worker is gone, or its prompt no longer resolves) is swallowed and the row stays
  Pending with no coroutine (`Theorems.LegacyRowFailure`); any number of restarts come to the same end
  (`Theorems.LegacyRowStuckForever`). From an empty store that branch is unreachable
  (`Theorems.DirectoryBranchUnreachable`).
- **The empty key.** `create_or_get` treats it as missing while the column's UNIQUE constraint does not: a
  second submission with an empty key is refused, not replayed (`Dispatches.SubmissionIdempotent`,
  `Managers.TaskManager.Call`).
- **A waiting call may send while the breaker is open.** The breaker is read before the wait for the
  semaphore. An admitted call can send while it is open if and only if it has to wait and the failures so
  far, the calls in flight and the calls before it in line reach the threshold together
  (`Gates.SendsOpenExactly`).
- **Wildcard entries ignore the number of leading slashes**, star-free entries do not, and a star inside a
  longer segment matches only itself (`PathPolicy.PolicyMeaning`).
- **A graceful stop cancels sleeping recoveries**: an interrupted recovery delay leaves its task Cancelled
  (`Theorems.InterruptionRecorded`).

## Model

| member | source | states |
|---|---|---|
| Invariant.RunSane | ai_bridge/manager.py:41-218 | in every state of every run: well-shaped records, unique keys, coroutines registered under their own task with snapshots of that task, a stop that has told everything it waits for, and a request log that agrees with the table |
| TaskLife.StepGood | ai_bridge/manager.py:41-238 | each of the thirteen steps keeps the invariant of a task (one coroutine, how it faces the record, fresh attempts, nothing forgotten, ordered requests) and advances its record along at most one allowed edge; a start that does not find the task ready is the only exception |
| Theorems.RunInv | ai_bridge/manager.py:41-218 | the invariant of a task holds in every state of every run whose starts find it ready, or clean |
| Theorems.TimelyIsOrderly | ai_bridge/manager.py:41-59 | a task whose own submission found no stop waiting is found ready by every start of every run; one whose submission found the manager serving, clean |
| Theorems.StartSafeIffClean | ai_bridge/manager.py:41-51 | a start leaves a task with one coroutine that agrees with its record if and only if it finds the task clean |
| Dispatches.AtMostOnce | ai_bridge/manager.py:41-51 | a ready task that the policy in force refuses to replay is sent to its worker at most once: any task without a non-empty key while the policy is never `always`, every task while it is `manual` |
| Converses.SentTwiceIffStopping | ai_bridge/manager.py:53-59 | from every reachable state, an accepted submission whose task the policy refuses to replay can be sent twice, without a reload, if and only if a stop is waiting |
| Converses.ReopenedIffStopping | ai_bridge/manager.py:53-59 | from every reachable state, a caller's cancel of the submitted task can be undone, its Cancelled record made Running again, perhaps after a reload, if and only if a stop is waiting when it is accepted |
| Converses.ReopenedAsIsIff | ai_bridge/manager.py:155-182 | with the configuration left alone, it can be undone if and only if a stop is waiting, the policy replays the task and there is a recovery delay |
| Converses.RefusedReplyIffNotServing | ai_bridge/manager.py:183-187 | from every reachable state, a reply for the submitted task can find it open and not complete it, without a reload, if and only if the manager is not serving when it is accepted; while serving, with no continuation at all |
| Converses.SwallowedIffNotServing | ai_bridge/manager.py:198-218 | from every reachable state, a raising call of the submitted task can end its coroutine and leave the open task open, without a reload, if and only if the manager is not serving when it is accepted |
| Converses.LostIffNotServing | ai_bridge/manager.py:41-51 | from every reachable state, the submitted task can be open while the manager serves, with no registered coroutine and not refused replay by the last start, perhaps after a reload, if and only if the manager is not serving when it is accepted |
| Converses.LostAsIsIff | ai_bridge/manager.py:41-51 | with the configuration left alone, if and only if, besides, the policy replays the task |
| Converses.LeftBehindIffStopping | ai_bridge/manager.py:53-59 | from every reachable state, a stop can return with a coroutine of the submitted task alive, without a reload, if and only if a stop is waiting when it is accepted |
| Converses.StopCanReturn | ai_bridge/manager.py:53-59 | from every reachable state in which a stop waits, it can return without a reply from any worker: each coroutine it waits for ends before it has begun or interrupted where it is |
| Converses.TwoCoroutinesIffStopping | ai_bridge/manager.py:147-153 | from every reachable state, the submitted task can get two live coroutines, without a reload, if and only if a stop is waiting when it is accepted |
| Converses.SentAfterCancelIffStopping | ai_bridge/manager.py:127-145 | from every reachable state, a request for the submitted task can leave after the caller's cancel of it, without a reload, if and only if a stop is waiting when it is accepted |
| Converses.DisagreesIffNotServing | ai_bridge/manager.py:41-51 | from every reachable state, a coroutine of the submitted task in the worker call can face an open record that is not its own, without a reload, if and only if the manager is not serving when it is accepted |
| Unreplayed.RefusedNeverLost | ai_bridge/manager.py:41-51 | in every run, a task that the policy has refused to replay so far is, while open and the manager serves, registered with a live coroutine or was deferred by the last start |
| Unreplayed.RefusedFrozen | ai_bridge/manager.py:155-218 | in every run, the record of such a task keeps every field once terminal, though it may have two coroutines |
| Unreplayed.UndelayedFrozen | ai_bridge/manager.py:155-182 | in every run, while there is no recovery delay any record keeps every field once terminal |
| Theorems.AllowedEdgesOnly | ai_bridge/task_state.py:26-42 | each step leaves the state of a ready task or takes it along one edge of the transition table |
| Theorems.TerminalFrozen | ai_bridge/manager.py:155-218 | the record of a ready task keeps every field once terminal, whatever replies, cancellations, wake-ups and restarts follow, and never loses an attempt |
| Theorems.TaskKept | ai_bridge/store.py:80-105 | in every run no record disappears, and id, worker, prompt, directory, key, creation time and timeout of each stay as submitted |
| Theorems.RecordShape | ai_bridge/task_state.py:70-91 | in every state of every run: Retrying never occurs, completed_at is set iff terminal, result iff Completed, error iff Failed, Cancelled or TimedOut, started_at iff an attempt was taken; Pending means no attempt; the directory is in dispatch form |
| Theorems.CancelIsFinal | ai_bridge/manager.py:127-145 | cancelling an open ready task always succeeds at that time, and no later step changes the record it wrote |
| Theorems.OneCoroutine | ai_bridge/manager.py:147-153 | a ready task has at most one live coroutine |
| Theorems.RunnerRecordAgreement | ai_bridge/manager.py:147-187 | a coroutine of a clean task inside the worker call faces a record that is terminal or Running with exactly its attempt id and number |
| Theorems.CompletionNeverRefused | ai_bridge/manager.py:183-187 | for a clean task the transition to Completed after a reply is never refused: an open task stores the result, a task already over is untouched and not counted again |
| Theorems.FailureRecorded | ai_bridge/manager.py:198-217 | a raising call always settles an open clean task: the message is the exception's own text or, when empty, a name for it; TimedOut iff it was the built-in timeout or the message mentions one in any case, Failed otherwise |
| Theorems.InterruptionRecorded | ai_bridge/manager.py:188-197 | in every run a coroutine interrupted while sleeping or calling leaves an open task Cancelled and a finished one untouched |
| Theorems.NoLostTask | ai_bridge/manager.py:41-51 | while serving, an open clean task has a live coroutine or is Recovering and was refused replay by the last start |
| Theorems.DispatchedRunnerSettles | ai_bridge/manager.py:172-218 | a coroutine of a clean task that reached the worker call leaves a terminal record, however it ends short of a crash |
| Theorems.GracefulStop | ai_bridge/manager.py:53-59 | when `stop` returns, a task that was not itself submitted while a stop waited has no coroutine left and is not Running |
| Theorems.StoreSwitchStrandsNobody | ai_bridge/server.py:242-251 | a reload naming another store is accepted iff no coroutine is registered, and changes nothing when refused; accepted, every task that was submitted while serving has no coroutine left and, if open, was refused replay |
| Theorems.DirectoryBranchUnreachable | ai_bridge/manager.py:162-165 | in every run from an empty store no first step or wake-up depends on reading the prompt again |
| Theorems.LegacyRowFailure | ai_bridge/manager.py:162-165 | for a row without a directory whose worker is unknown or whose prompt no longer resolves: it is Failed with that message iff it is Recovering and the message mentions no timeout; otherwise the failure is swallowed and the row is left open without a coroutine |
| Theorems.LegacyRowStuckForever | ai_bridge/manager.py:41-51 | over any number of restarts (a start, the first step of the coroutine it schedules for the row, the end of the process), with any reading of the prompt that does not resolve each time, such a Pending row stays as it is |
| Dispatches.DispatchEntry | ai_bridge/workers.py:195-223 | in every run each request ever sent carries the worker, prompt, directory, time limit and key of its task's stored record, and an attempt id and number; the directory is in dispatch form |
| Dispatches.DispatchLog | ai_bridge/manager.py:162-182 | of the requests for a ready task: each number is between 1 and the stored count, the recovery flag marks exactly the attempts after the first, numbers and attempt ids strictly increase, and sends never exceed attempts |
| Dispatches.AttemptIdsNameOneTask | ai_bridge/task_state.py:86-91 | in every run two requests with the same attempt id are for the same task |
| Dispatches.KeyNamesOneTask | ai_bridge/store.py:35 | in every state of every run each key, the empty one included, names at most one record |
| Dispatches.SubmissionIdempotent | ai_bridge/store.py:107-132 | in every run, once a key created a task, every later state has the key on that task with the first worker and prompt; a later submission with it creates nothing, and replays iff admitted and the key is not empty |
| Accounting.StepExcess | ai_bridge/manager.py:139-145 | in every sane state each step but a crash, submissions included, moves the counter of each terminal state by what the worker's records gain in that state; it runs ahead by one exactly at a wake-up over a record that is over in that state |
| Accounting.CreatedMeansStored | ai_bridge/manager.py:112-116 | in every run the counter of created tasks is the number of the worker's records now, less those when the process began |
| Accounting.NoneWhileStoppingIsOrderly | ai_bridge/manager.py:53-59 | when no submission for a worker is accepted while a stop waits, all its tasks are ready |
| Accounting.StateConservation | ai_bridge/manager.py:139-145 | for a worker whose tasks are all ready: the counter of each terminal state is the number of its records in that state now, less those when the process began |
| Accounting.MetricConservation | ai_bridge/manager.py:112-116 | for a worker whose tasks are all ready: created plus open at boot equals completed over all terminal states plus open now |
| Accounting.CountedExactlyOnce | ai_bridge/manager.py:139-145 | in every run each step but a crash adds to the counter of a terminal state exactly what the worker's records gain in that state, if and only if it is not a wake-up over a record of the worker that is over in that state; so even when cancel and the cancellation handler both run |
| Accounting.AdmissionLeavesRoom | ai_bridge/manager.py:227-238 | where every Running record is registered, as it is for ready tasks while the manager serves or a stop waits, an admitted submission finds both queues below their limits and at most pending + active - 2 open records |
| Accounting.Capacity | ai_bridge/manager.py:227-238 | under fixed limits, when all tasks are ready and submissions find the manager serving or a stop waiting, open records never exceed pending + active - 1, over crashes and restarts |
| Accounting.ServingCapacity | ai_bridge/manager.py:227-238 | the same bound when every submission is accepted by a serving manager |
| Converses.IdleBreaksCapacity | ai_bridge/manager.py:227-238 | from every reachable state of an idle manager without a per-worker limit, an accepted submission can be followed, with the configuration left alone, by at least n open records, for every n |
| Accounting.QueueWithinLimits | ai_bridge/manager.py:227-233 | in every run an accepted submission leaves the queue within the global and the per-worker pending limit |
| Effects.AcceptedExactly | ai_bridge/manager.py:84-119 | in every run a submission brings in one task, Pending under a new registered coroutine, exactly when the worker is known and may run in the background, its write list admits the declared directory, no limit is reached (queued rows in all and of the worker, live registered coroutines, the worker's rows at work) and nobody has the key; otherwise it changes nothing |
| Effects.RefusedForTheFirst | ai_bridge/manager.py:84-104 | a refusal names something that does stand in the way, and nothing that is checked before it does |
| Effects.RecordAsSubmitted | ai_bridge/manager.py:104-111 | in every run, from the step in which a record appears to every later state: it has the worker, prompt, key and time of that step's submission, the worker's asynchronous limit of that moment, and as directory the normal form of the declared one, which that moment's write list admits |
| Effects.EveryRecordWasSubmitted | ai_bridge/manager.py:104-111 | and every record of every state appeared in such a step |
| Effects.EveryRequestWasSubmitted | ai_bridge/manager.py:172-182 | in every run every request ever sent carries worker, prompt, key, time limit and directory of its task's submission in the same way |
| Effects.ConfigInForce | ai_bridge/server.py:252-255 | in every run the configuration in force, limits and workers included, is that of the last reload |
| Effects.CancelReaches | ai_bridge/manager.py:127-145 | in every run a cancel of an open task makes its record Cancelled at that time and tells exactly its registered coroutine, wherever that is; of any other task, it changes nothing |
| Effects.CancelStopsTheWork | ai_bridge/manager.py:127-145 | after the cancel of an open task whose own submission found no stop waiting: no request for it is sent any more, each of its coroutines has been told, and each such coroutine can only end, in its first step or interrupted |
| Effects.LogGrowsBySending | ai_bridge/workers.py:195-226 | in every run the log grows in the sending steps only, each by one request: the sender's task, with id and number of the attempt it works on and its recovery flag; and it sends no second one |
| Effects.FirstStepStarts | ai_bridge/manager.py:155-182 | in every run a coroutine's first step ends it when it was told or its task is over; else it joins the attempt of a Running record, sleeps on a Recovering one if there is a delay, or takes the next attempt on the record as stored, under an id never seen before |
| Effects.WakeStepTakes | ai_bridge/manager.py:161-182 | in every run a sleeper that wakes takes the next attempt on the Recovering record it went to sleep on; for a ready task that is the record as stored |
| Effects.AttemptsAreCounted | ai_bridge/manager.py:166-171 | a ready task's attempt count is the number of times its coroutines have entered the worker call over a record that was not Running |
| Effects.EveryReplyRecorded | ai_bridge/manager.py:183-217 | in every run, what a reply leaves of the record, by its state: Running becomes Completed, TimedOut or Failed; Recovering becomes Failed unless the message asks for TimedOut; Pending, and Recovering then, stay as they are; a finished record is not touched |
| Effects.RecoveringAnswerFails | ai_bridge/manager.py:183-217 | in every run an answer for a task made Recovering under its coroutine is lost and the task Failed, with the refused transition as its error |
| Effects.EndsItsCoroutine | ai_bridge/manager.py:147-153 | in every run a reply, a failure or an interruption ends that coroutine and no other, and unregisters its id |
| Effects.RestartReplays | ai_bridge/manager.py:41-51 | in every run a start from idle makes every interrupted row Recovering with no attempt in hand, gives one new coroutine to exactly the rows that the policy replays and no live registered coroutine attends to, defers the other interrupted ones, and disturbs no coroutine; on a started manager it changes nothing |
| Effects.StopTellsEveryone | ai_bridge/manager.py:53-59 | in every run a stop tells exactly the registered coroutines to cancel, waits for exactly them, and writes nothing; with none it returns at once |
| Effects.WhatIsForgotten | ai_bridge/manager.py:53-59 | in every run: a stop that returns clears what is registered and nothing else; a switch of the store ends the manager exactly when it serves with nothing registered; the end of the process keeps every record and request; a reload changes the configuration only |
| Effects.LegacyRowResumes | ai_bridge/manager.py:162-182 | a row without a directory whose prompt resolves again gets the normal form of the declared directory, which its worker's write list admits, and its coroutine takes the next attempt on it |
| TaskStates.TaskRecord.Transition | ai_bridge/task_state.py:70-84 | succeeds iff the target is an allowed edge, reaches the target and keeps task and attempt; what it stamps is stated by `StampsOfWalk` |
| TaskStates.EdgesByTarget | ai_bridge/task_state.py:26-42 | the transition table read by target: what may lead to each state, and that exactly the terminal states lead nowhere |
| TaskStates.StampsOfWalk | ai_bridge/task_state.py:70-84 | over any sequence of transitions of an open record: started_at is the time of the first run, completed_at that of the terminal transition, which can only be the last, updated_at that of the last; the last error and result given are kept |
| TaskStates.MentionedInAnyCase | ai_bridge/manager.py:201-205 | a message counts as a timeout exactly when the word occurs in it once its capital letters are made small |
| TaskTable.PutKeepsKeysUnique | ai_bridge/store.py:80-105 | a write that violates no UNIQUE constraint keeps keys unique |
| TaskTable.MarkKeepsKeys | ai_bridge/store.py:186-197 | marking for recovery keeps keys unique |
| TaskStores.TaskStore.constructor | ai_bridge/store.py:26-58 | a store opens with the rows that its file holds, none for a new file, provided that keys are unique and each row is under its id |
| TaskStores.TaskStore.Upsert | ai_bridge/store.py:80-105 | inserts or updates the row, keeping the original creation time, or leaves the table alone when another row holds the key |
| TaskStores.TaskStore.Get | ai_bridge/store.py:154-157 | the row with this id, if any |
| TaskStores.TaskStore.GetByIdempotencyKey | ai_bridge/store.py:159-162 | the row with this key, found iff there is one |
| TaskStores.TaskStore.CreateOrGet | ai_bridge/store.py:107-132 | returns the holder of a non-empty key, inserts otherwise, and reports the constraint error that an empty key can raise |
| TaskStores.TaskStore.ListByStates | ai_bridge/store.py:164-171 | lists each row in the states exactly once and nothing else |
| TaskStores.TaskStore.MarkRecovering | ai_bridge/store.py:186-197 | the loop turns the table into `MarkRecovering` of the old one and returns every open row once, as stored |
| Managers.TaskManager.constructor | ai_bridge/manager.py:20-39 | a new process over the table its predecessor left: no coroutine, not started |
| Managers.TaskManager.ActiveCount | ai_bridge/manager.py:64-65 | the number of ids whose coroutine is not done |
| Managers.TaskManager.EnforceAsyncLimits | ai_bridge/manager.py:227-238 | the first limit reached, in the order of the checks |
| Managers.TaskManager.Admit | ai_bridge/manager.py:84-104 | the checks before the store is touched, in order, with their errors |
| Managers.TaskManager.Schedule | ai_bridge/manager.py:147-153 | a new registered coroutine, unless the id has a live one |
| Managers.TaskManager.Call | ai_bridge/manager.py:74-119 | an asynchronous submission is the protocol's Submit step; the answer is the created record, with what was asked for, the holder of the key, or the error |
| Managers.TaskManager.SettleAs | ai_bridge/manager.py:208-218 | an open record moves to the terminal state and is counted if that edge exists; otherwise nothing changes |
| Managers.TaskManager.Cancel | ai_bridge/manager.py:127-145 | is the Cancel step, leaves the registered coroutine told to cancel and answers with the stored record |
| Managers.TaskManager.ScheduleAll | ai_bridge/manager.py:45-51 | the loop schedules exactly the open records that may be replayed and have no live coroutine, one new coroutine each |
| Managers.TaskManager.Start | ai_bridge/manager.py:41-51 | is the Start step |
| Managers.TaskManager.CancelBackground | ai_bridge/manager.py:54-55 | the loop requests cancellation of every registered coroutine |
| Managers.TaskManager.StopBegin | ai_bridge/manager.py:53-59 | is the StopBegin step; with nothing registered it ends the stop as well; a manager that was not started and has nothing registered stays as it is |
| Managers.TaskManager.StopEnd | ai_bridge/manager.py:57-59 | is the StopEnd step |
| Managers.TaskManager.Reload | ai_bridge/server.py:252-255 | swaps policy, limits and workers, and nothing else |
| Managers.TaskManager.SwitchStore | ai_bridge/server.py:242-251 | is refused while a coroutine is live, otherwise stops this manager |
| Managers.TaskManager.TakeAttempt | ai_bridge/manager.py:166-182 | takes an attempt, persists Running and enters the call |
| Managers.TaskManager.Body | ai_bridge/manager.py:162-182 | fills in a missing directory or fails, then takes an attempt |
| Managers.TaskManager.First | ai_bridge/manager.py:155-182 | is the coroutine's first step |
| Managers.TaskManager.Wake | ai_bridge/manager.py:161-182 | is the step after the recovery delay, on the snapshot taken before it |
| Managers.TaskManager.Send | ai_bridge/workers.py:195-226 | appends the request, with the values of the coroutine's local record, to the log |
| Managers.TaskManager.Receive | ai_bridge/manager.py:183-206 | is the Receive step |
| Managers.TaskManager.Interrupt | ai_bridge/manager.py:188-197 | is the Interrupt step |
| PathMatcher.MatchDecidesCovers | ai_bridge/permissions.py:133-145 | the recursive matcher accepts iff some assignment of possibly empty segment lists to the stars makes the pattern a prefix of the candidate |
| PathMatcher.MatchClosedUnderExtension | ai_bridge/permissions.py:133-145 | what matches keeps matching with more segments |
| PathMatcher.LiteralPatternIsPrefix | ai_bridge/permissions.py:133-145 | without stars the matcher is the segment-prefix test |
| PathMatcher.TrailingStarRedundant | ai_bridge/permissions.py:141-142 | a trailing star changes nothing |
| PathMatcher.AdjacentStarsCollapse | ai_bridge/permissions.py:141-142 | two adjacent stars, wherever they are, mean one |
| PathMatcher.EarlyExitSound | ai_bridge/permissions.py:136-137 | the early exit changes no answer |
| PathText.SplitJoin | ai_bridge/permissions.py:128-129 | splitting undoes joining |
| PathText.NormpathWithoutDotDot | ai_bridge/permissions.py:117-123 | for an absolute path without `..` the `normpath` loop yields one or two leading slashes (section 4.13 of POSIX.1-2017 Base Definitions) and the named segments |
| PathText.NormpathFixed | ai_bridge/permissions.py:123 | normal forms are fixed points of `normpath` |
| PathPolicy.SafeNormalizeForm | ai_bridge/permissions.py:117-123 | a path has a normal form exactly when it is absolute and no part of it is `..`; it is its leading slashes and the segments it names |
| PathPolicy.DispatchedFormIsNormal | ai_bridge/permissions.py:108-123 | the dispatched directory is absolute, has no `..`, `.` or empty inner segment, names the same segments as the requested one, and normalises to itself |
| PathPolicy.DispatchableIffNormalForm | ai_bridge/permissions.py:117-123 | the fixed points of `_safe_normalize` are exactly the rendered normal forms |
| PathPolicy.NormalFormReadBack | ai_bridge/permissions.py:117-123 | from the text of a normal form its slashes and segments are read back |
| PathPolicy.SentPathPassesAgain | ai_bridge/permissions.py:38-49 | the sent path passes the allow list iff the requested one does |
| PathPolicy.FastPathIsSegmentPrefix | ai_bridge/permissions.py:75-80 | for normalised star-free entries the string comparisons accept iff the entry has no segments, or the leading slashes agree and its segments prefix the candidate's |
| PathPolicy.PolicyMeaning | ai_bridge/permissions.py:52-81 | for every candidate and allow list, accepted iff the candidate is absolute without `..` and some entry, absolute without `..`, covers its segments: by the matcher's meaning if the entry holds a star, by segment prefix otherwise |
| PathPolicy.AllowedSubtree | ai_bridge/permissions.py:52-81 | what is allowed is allowed with its whole subtree, in whatever form it is written |
| PathPolicy.ResolveDirectory | ai_bridge/permissions.py:38-49 | succeeds iff a directory is declared and allowed, and then yields its dispatch form |
| PathPolicy.ResolvedIsDispatchable | ai_bridge/permissions.py:38-49 | a resolved directory is the normal form of the declared one, is in dispatch form and passes the same write list again |
| Breaker.BreakerRefinesHistory | ai_bridge/workers.py:154-171 | the breaker refuses at a time iff failures since the last success reach the threshold and the time is before the last failure plus the recovery time |
| Breaker.OpeningsCountEvents | ai_bridge/workers.py:162-171 | `circuit_open` counts exactly the failures that find the breaker closed and leave it open |
| Gates.GateConservation | ai_bridge/workers.py:221-237 | in every interleaving with any failures and cancellations: active plus free permits is the maximum, active is the number in flight, each call that took a permit is in flight or ended and was observed exactly once, failures are the endings that failed |
| Gates.HistoryIsOutcomes | ai_bridge/workers.py:224-237 | in every interleaving the breaker's history is what the calls did, in the order of their ends: a success for an answer, a failure for an error, both for an answer that cannot be read, nothing for a cancellation or any other step |
| Gates.GateBreaker | ai_bridge/workers.py:154-171 | in every interleaving a call is admitted iff the outcomes of the calls before it say the breaker is closed, and openings are their closed-to-open events |
| Gates.AdmittedWhileClosed | ai_bridge/workers.py:186-187 | every call waiting or in flight came in by a step at which the outcomes of the calls before it said the breaker was closed |
| Gates.UndisturbedSendsClosed | ai_bridge/workers.py:186-222 | in every interleaving a call that takes its permit before any further outcome is recorded sends while the breaker is closed, at whatever later time |
| Gates.SendsOpenExactly | ai_bridge/workers.py:186-222 | from every sound state, some continuation lets a newly admitted call take its permit while the breaker is open if and only if no permit is free for it at once and the failures so far, the calls in flight and the calls in line reach the threshold together |
| Registries.WorkerRegistry.constructor | ai_bridge/workers.py:35-52 | one closed gate for each worker, with all its permits free |
| Registries.WorkerRegistry.Balance | ai_bridge/workers.py:47-48 | in every valid registry the calls in flight of a worker and its free permits add up to its maximum |
| Registries.WorkerRegistry.AssertAvailable | ai_bridge/workers.py:154-157 | refuses iff the history says open |
| Registries.WorkerRegistry.ActiveCount | ai_bridge/workers.py:60-63 | the number of this worker's calls in flight, at most its maximum; zero for an unknown worker |
| Registries.WorkerRegistry.BeginCall | ai_bridge/workers.py:173-222 | is the admission step of this worker's gate and leaves the others alone: an unknown worker or an open breaker is an error, a free permit with nobody in line is taken at once, any other call joins the line |
| Registries.WorkerRegistry.TakePermit | ai_bridge/workers.py:222-223 | is the acquiring step of the first call in line |
| Registries.WorkerRegistry.RecordSuccess | ai_bridge/workers.py:159-160 | resets this worker's circuit and no other |
| Registries.WorkerRegistry.RecordFailure | ai_bridge/workers.py:162-171 | counts the failure; the circuit is armed when the threshold is reached, and `circuit_open` moves iff it was closed then |
| Registries.WorkerRegistry.EndCall | ai_bridge/workers.py:224-237 | is the ending step, with one observation: an answer clears the circuit, an error adds a failure to it, an answer that cannot be read leaves one, a cancellation none; the failure and `circuit_open` counters move exactly when the gate's failures and openings do |
| Registries.WorkerRegistry.AbandonCall | ai_bridge/workers.py:222 | a call cancelled while it waits leaves the line and no other trace |
| Metrics.ValidateBuckets | ai_bridge/metrics.py:101-112 | accepts iff non-empty, positive and strictly increasing; the first offender decides the error |
| Metrics.AtMostMonotone | ai_bridge/metrics.py:43-49 | a larger bound counts at least as many observations, and none more than there are |
| Metrics.ShowsOneMore | ai_bridge/metrics.py:43-49 | after one more observation each bucket again equals the number of observations at most its bound, for every worker |
| Metrics.RenderedHistogram | ai_bridge/metrics.py:81-89 | rendered buckets grow with their bound and stay within the count rendered as +Inf |
| Metrics.MetricsRegistry.constructor | ai_bridge/metrics.py:14-25 | every counter starts at zero |
| Metrics.MetricsRegistry.IncTaskCreated | ai_bridge/metrics.py:27-29 | this counter grows by one |
| Metrics.MetricsRegistry.IncTaskCompleted | ai_bridge/metrics.py:31-33 | this counter grows by one |
| Metrics.MetricsRegistry.IncWorkerFailure | ai_bridge/metrics.py:35-37 | this counter grows by one |
| Metrics.MetricsRegistry.IncCircuitOpen | ai_bridge/metrics.py:39-41 | this counter grows by one |
| Metrics.MetricsRegistry.ObserveWorkerCall | ai_bridge/metrics.py:43-49 | leaves count, sum and buckets showing exactly the history with this observation |
| Metrics.MetricsRegistry.FillBuckets | ai_bridge/metrics.py:47-49 | the loop raises exactly the buckets of this worker that bound the observation, by one each |
| Watchdog.WaitForTask | ai_watchdog/watchdog.py:190-220 | for any poll interval the loop ends with the one conclusion of the response stream: checks before the deadline only, and the first deciding response, the refused sleep, or the last state at the deadline |
| Watchdog.SleepUntilNextPoll | ai_watchdog/watchdog.py:223-226 | before the deadline it ends at the next poll or the deadline, the earlier of the two; refused exactly for a negative interval before the deadline; at the deadline it does not sleep |
| Watchdog.ConclusionUnique | ai_watchdog/watchdog.py:190-220 | a response stream has exactly one conclusion: outcome, number of checks and end |
| Watchdog.WaitIsBounded | ai_watchdog/watchdog.py:190-226 | at most ⌈timeout / pace⌉ checks, the pace being the least time of a request and the interval after it, and an end no later than start + timeout + the slowest request; at most one check for a negative interval |
| Watchdog.ExpiredLookedOften | ai_watchdog/watchdog.py:190-226 | a wait that expires has lasted until its deadline and has made at least ⌈timeout / (interval + slowest request)⌉ checks |
| Watchdog.NoticedInTime | ai_watchdog/watchdog.py:190-226 | a task that is over from some moment on is noticed by a check that begins within an interval and a request of it, unless the deadline is no further away than that |
| Watchdog.GivesUpExactly | ai_watchdog/watchdog.py:205-212 | gives up iff the last max + 1 responses were transient errors, and never earlier |
| Watchdog.ReturnsFirstTerminal | ai_watchdog/watchdog.py:214-220 | returns the first terminal response, and only when every earlier one left the wait going |
| Watchdog.ErrorsAreTheLast | ai_watchdog/watchdog.py:200-220 | an error outcome is that of the last check, with its message: a fatal response and a missing state end the wait exactly when they come, and a sleep is refused only before the deadline |
| Watchdog.ExpiredNamesLatest | ai_watchdog/watchdog.py:190-219 | an expired wait names the state of the latest answer, or `unknown` when there was none |
| WatchedTasks.WatchedStatesAgree | ai_watchdog/watchdog.py:14 | the watchdog's terminal names are the bridge's terminal states, and no state has an empty name |
| WatchedTasks.ReturnedRecordIsFinal | ai_watchdog/watchdog.py:214-217 | for a ready task the returned record is what every later state of the bridge holds, so every later check shows it; earlier answers showed the task open |
| WatchedTasks.ExpiredSawOpen | ai_watchdog/watchdog.py:195-220 | against the bridge a wait never ends for a missing state, and one that expires never saw the task over |

## Left out

- HTTP, `httpx`, FastAPI routing, server-sent events, JSON-RPC, tool schemas, authentication: plumbing; a worker call is a nondeterministic reply.
- SQL text, WAL, locking between processes, column migration and the JSON and timestamp text of a row (ai_bridge/store.py:26-78, 134-152): the table is a map and a stored value is read back unchanged.
- The YAML reader of the frontmatter (ai_bridge/permissions.py:15-35): its result is a parameter, so a resumed row may even read differently each time.
- Canonical path mode (`Path.resolve`, ai_bridge/permissions.py:84-105, 113): behaviour of the file system; only lexical mode is modelled. Allow-list entries that are not strings are excluded by the type.
- Audit and logging output, the text of the metrics page, health probes and URL normalisation: they report state, and nothing in the lifecycle, the policy or the gate depends on them.
- The synchronous path of `call` and its limits: it checks and then waits, so its cap is not an invariant.
- `active_count` summed over all workers: only the count of one worker is stated.
- Managers.TaskManager.StopBegin: `stop` called while another `stop` waits, or on a manager that was not started but has coroutines registered, is not modelled; both callers (ai_bridge/server.py:83, 245) stop a manager that was started.
- Done callbacks that have not run yet: a coroutine's end and its callback are one step.
- The refusals of `WorkerRegistry.call` (unknown worker, open breaker) inside a background coroutine: in the lifecycle they are a raising reply of a call that sent nothing, which allows more interleavings than the code has.
- A store switch (ai_bridge/server.py:242-250) is seen from the old store; the new store begins as another run. Metrics shared by both stores are counted for one. The logging and audit reconfiguration that precedes a refusal is not modelled.
- The hand-over inside asyncio's semaphore: a permit counts as free until the first call in line has resumed with it. A newcomer cannot take it from that call, as of the Python version the bridge requires (pyproject.toml:9).
- Text lowering beyond ASCII: no other letter lowers to one of "timeout", so the search for it is unaffected.
- Several event loops or threads over one manager; `WorkerRegistry` without a metrics object.
- Buckets that are not numbers, and the rounding of floating-point clocks.
- Breaker.BreakerRefinesHistory: supposes a clock that never reads below zero, as Python's monotonic clock does not; a new circuit holds 0.0 as its deadline.
- Watchdog.WaitForTask: supposes bounded requests, and with a zero interval requests that take some least time, without which the loop may check without end before the deadline. Only requests and sleeps take time.
- Watchdog argument and dotenv parsing, exit codes, and the mapping from HTTP errors to transient and fatal responses (ai_watchdog/watchdog.py:154-187): the response stream is arbitrary.
