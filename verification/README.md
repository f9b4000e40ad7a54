# Verification of the task runner's queue protocol

The runner takes commands from GitHub comments, keeps them as task records in files, and runs them
with AI tools. One Node process does all of it, and its parts interleave at every `await`: a polling
daemon, the runs it has started, enqueue calls from the webhook server, and the operator's reset of a
rate-limit pause. Crashes followed by a restart are part of the picture. This project models that
protocol as a transition system and proves what holds in every run of it; four smaller components
beside it have a model and a theorem each.

Check it with `dafny verify dfyconfig.toml` (Dafny 4.11).

## How it is laid out

- `Domain`, `Store`: task records, statuses, tools; what each store method does to one record.
- `Scheduling`: the selection rule, its loop, and the greedy choice it computes.
- `Protocol`: the transition system. Every store method on one task is a step, a listing is one step
  per directory and one per file, whether a tick, the boot or an enqueue call reads it; runs, enqueues,
  the clock, the operator and crashes may step in between. Store calls may fail, a tick may throw and
  so end the loop, and a crash may leave any transition under way half done. `Walks` joins finite
  continuations of a state, `TickWalks` builds those of a tick left to itself.
- `Effects`: what each step does to directories, record fields, pauses and saved steps, said without the
  functions the steps are made of.
- `Shape`, `Exclusion`, `Pauses`, `PausesFirst`, `Ownership`, `OwnershipLost`, `OwnershipStuck`,
  `OwnershipExample`, `Supersede`, `SourceBound`, `SourceBoundReached`, `Retention`, `Checkpoints`, `StepsKept`,
  `StepsStranded`: the invariants and the theorems over all behaviours.
- `QueueStore`, `QueueOrder`, `QueueFiles`, `EnqueueService`: the store as a class proved against
  the functions the protocol uses, the order of its listings, the file operations inside a
  transition with a crash between any two, and the enqueue call run alone.
- `RateLimitState`: the pause map and the promise chain that serialises its calls.
- `GithubFetch`: retry budgets, backoff and pauses of the GitHub fetch wrapper (`Retry-After`,
  section 10.2.3 of RFC 9110; status 429, section 4 of RFC 6585).
- `CheckpointStore`, `Toolkit`: the checkpoint files and the cache of `ai.run`.
- `DeliveryDedup`: the webhook delivery cache against a log.
- `Text`, `CommandParser`, `CommandRoundTrip`: the comment command parser.

## What turned out not to hold

Each of these is proved, with the exact condition or a reachable example.

- *Only the live run moves its record.* `runTask(...).finally` deletes the entry in `activeTasks` by
  task id, after the run has wound down. When the task has been requeued and restarted in the
  meantime, that deletes the new run's entry, and the next stale sweep can fail the record of a run
  that is live. `OwnershipLost.ExactlyWhenLost`: between ticks, and in any tick that can still end, a
  live run can lose its record if and only if it is not the registered and only run of its task. A
  tick that throws ends the loop, and with it the sweeps: while a tick is starting tasks, the run can
  lose its record only if everything still to be started is queued, and once the loop has ended it
  cannot (`OwnershipStuck.ExactlyWhenLostWhileStarting`). `OwnershipExample.AnOvertakenRun` reaches a
  state in which it can. For a task that is restarted only after its last run has settled, it cannot
  occur (`Ownership.LiveRunsHoldTheirRecords`), and each of its runs whose store calls succeed moves
  the record exactly once (`Ownership.ExactlyOneEnding`).
- *A crash leaves a self-consistent record.* The comment on `relocate` says so. A start or a supersede
  cut short between its two renames leaves a record in `queued/` that says "running" or
  "superseded", and the recovery does not visit `queued/`. `QueueFiles.RecoveredUnlessTornInQueue` is
  an if-and-only-if; `Exclusion.MutualExclusion` counts such records as running and holds regardless.
- *Links made by supersedes are acyclic.* Two overlapping enqueues on one source can supersede each
  other (`Supersede.OverlappingEnqueuesMakeACycle`). `Supersede.ExactlyWhenLinkedBack`: an insert makes
  a link to an earlier enqueue possible if and only if another enqueue on the source has inserted its
  task and has still to read queued/. `Supersede.ExactlyWhenCycled`: a cycle can then close, without a
  crash or a further enqueue, if and only if the earlier one's task is itself queued, or is in running/
  with a run that may still requeue it.
- *Queued plus running tasks of a source stay within the concurrency plus one.* Whatever happens, they
  stay within that plus the conflicts an enqueue found and that are still unfinished, plus those it
  missed because they were started between its reading of queued/ and of their file, plus what has
  been inserted since (`SourceBound.WaitingIsBounded`). That value is reached for every concurrency and
  every number of both (`SourceBoundReached.BoundIsReached`). A found conflict is left over when
  marking it fails, when it is started before it is marked, or when the call is cut short.
- *Saved steps are lost only when their task ends.* They are also lost when a completion fails, as the
  program drops them all the same (`StepsKept.FailedCompletionForgets`); nothing else loses them
  (`StepsKept.LostOnlyAfterAFailedCompletion`).
- *After the boot's sweep only queued and running tasks have saved steps.* A live run that has lost its
  record can save more. If its strategy returns an outcome, the run drops them itself, although its
  completion throws (`StepsStranded.NotStrandedIsDropped`). They are left behind until the next boot
  exactly when it ends in a rate limit instead (`StepsStranded.ExactlyWhenStranded`).
- *The checkpoint cache covers every input that can affect AI output.* The comments on the fingerprint
  say so. It leaves out the timeout, the workspace path and the installation token, which the runner
  also receives. `Toolkit.TransparentIffDetermined`: the cache makes no difference to any sequence
  of calls if and only if a successful answer depends on the fingerprinted inputs alone.

## Model

| member | source | states |
|---|---|---|
| `Scheduling.SelectNextTasks` | src/domain/rules/scheduling.ts:43-88 | The selection as the program runs it returns the ids of the greedy selection. |
| `Scheduling.SelectFrom` | src/domain/rules/scheduling.ts:70-87 | The loop with its early exit takes exactly the tasks the greedy choice takes, in queue order. |
| `Scheduling.ToolsInFlight` | src/domain/rules/scheduling.ts:63-68 | The loop collects exactly the tools the running tasks declare. |
| `Scheduling.SelectionIsGreedy` | src/domain/rules/scheduling.ts:44-86 | Any choice in which a task is taken if and only if a slot is left and its tools are neither paused nor in flight nor taken earlier is the selection; a paused global tool grounds everything. |
| `Scheduling.GreedyIsUnique` | src/domain/rules/scheduling.ts:71-86 | There is only one such choice. |
| `Scheduling.NoOvertaking` | src/domain/rules/scheduling.ts:27-34 | A task is never taken over an earlier queued one whose tools are among its own. |
| `Scheduling.SelectionExclusive` | src/domain/rules/scheduling.ts:56-87 | Selected tasks are queued, use no paused tool, share no tool with each other or with a listed running task, and fit in the slots left. |
| `Shape.WfStep` | src/infra/queue/file-queue-store.ts:99-210 | Every step of every party, crashes included, keeps which statuses a record may show in which directory, and what memory may hold when. |
| `Exclusion.InvStep` | src/daemon/runner-daemon.ts:198-239 | Every step keeps the tick's grip: what is in flight or about to start is within budget and tool-disjoint, and every flight is on the list being read or still ahead of it. |
| `Exclusion.MutualExclusion` | src/daemon/runner-daemon.ts:198-239 | In every reachable state the records that say "running" number at most the concurrency and declare pairwise disjoint tools. |
| `Exclusion.StatusMatchesDirectory` | src/infra/queue/file-queue-store.ts:236-264 | After the recovery a record's status differs from its directory only in queued/, saying "running" or "superseded". |
| `Pauses.PauseHolds` | src/daemon/runner-daemon.ts:513-553 | Once a run has written a pause until u for a tool its running task declares, no task declaring the tool is started before u without an operator's clear, not even by a tick already under way. |
| `Pauses.GithubPauseKept` | src/infra/queue/rate-limit-state-store.ts:43-62 | A pause the fetch wrapper wrote is never shortened by the daemon's coarser one. |
| `Pauses.GithubPauseGroundsAll` | src/domain/rules/scheduling.ts:46-54 | Every tick that reads the pauses after it and selects before it ends selects nothing. |
| `PausesFirst.AllPausedBeforeRequeue` | src/daemon/runner-daemon.ts:513-541 | In every behaviour a run that a rate limit, returned or thrown, has brought to requeue its task has by then paused every one of the tools it was limited on until the cooldown after it at least, unless the operator cleared the pause. |
| `PausesFirst.LimitedToolsRest` | src/daemon/runner-daemon.ts:513-553 | From that rate limit on, once the task is back in the queue, no task declaring such a tool, that one included, is started before the cooldown is over, without a clear. |
| `Ownership.SoleStep` | src/daemon/runner-daemon.ts:301-349 | No other party's step touches the record of a registered, only run: not the stale sweep, supersedes, ticks, prunes or other runs. |
| `Ownership.OwnStep` | src/daemon/runner-daemon.ts:425-511 | Such a run's own steps leave its record alone until the one that completes it with its outcome or requeues it. |
| `Ownership.GoneStep` | src/daemon/runner-daemon.ts:507-553 | After that the run never touches a queue file again. |
| `Ownership.EndsOnce` | src/daemon/runner-daemon.ts:451-511 | Over a whole behaviour a run attempts at most one completion or requeue. |
| `Ownership.EndingBefore` | src/daemon/runner-daemon.ts:451-553 | A run that is winding down has attempted one, or given up on a pause it could not write. |
| `Ownership.ExactlyOneEnding` | src/daemon/runner-daemon.ts:425-553 | A run that settles, its store calls having succeeded and its task having been restarted only after earlier runs settled, has moved its record exactly once: to succeeded/, saying so, finished now and without a summary, if its strategy returned success; to failed/ with the summary if it returned a failure; back to queued/ with the traces of the run cleared after a rate limit. No other field or file changes with it, no other step of the run touched a queue file, and nobody else touched its record before. |
| `Ownership.EndMatchesResult` | src/daemon/runner-daemon.ts:429-492 | A returned outcome ends in a completion with that outcome, a rate limit or a thrown GitHub limit in a requeue. |
| `Effects.MainFiles` | src/daemon/runner-daemon.ts:198-373 | What each step of the daemon's loop does to the queue files, on directories and fields: recovery, the stale sweep with its condition, starts, prunes; every other step leaves them alone. |
| `Effects.RunFiles` | src/daemon/runner-daemon.ts:425-553 | The same of a run's completion and requeue, for each outcome. |
| `Effects.EnqueueFiles` | src/services/enqueue-service.ts:29-58 | The same of an enqueue: a new queued record, and superseded ones that name it. |
| `Effects.CrashFiles` | src/infra/queue/file-queue-store.ts:246-264 | A crash leaves a transition under way undone or the new record in the old directory. |
| `Effects.PausesAfter` | src/infra/queue/rate-limit-state-store.ts:43-80 | Only the fetch wrapper, a run pausing the tools it was limited on and the operator touch the pauses, each only its tool, and a pause is never shortened by another. |
| `Effects.SavedAfter` | src/daemon/runner-daemon.ts:137-192 | Which steps add, drop or sweep saved steps, and of which tasks. |
| `Effects.TickSelects` | src/daemon/runner-daemon.ts:198-211 | In every behaviour a tick selects from the list it has read, without exactly the tools whose pause, as it read them, is still ahead; without a pause store no tool is held back. |
| `Effects.SweepsTheList` | src/daemon/runner-daemon.ts:301-349 | The stale sweep goes over the list the tick has read, one record after the other, with ages taken at the moment the list was complete. |
| `Ownership.StartIsSole` | src/daemon/runner-daemon.ts:213-238 | A start makes a sole run if and only if no earlier run of the task is still winding down. |
| `Ownership.LiveRunsHoldTheirRecords` | src/daemon/runner-daemon.ts:229-238 | When a task is restarted only after its last run has settled, every live run of it holds its record, alone and registered, at every moment, whatever other tasks do. |
| `Ownership.LiveRunsShareNoTool` | src/domain/rules/scheduling.ts:27-34 | Then the live runs of two such tasks never share a declared tool. |
| `Ownership.SoleCannotLose` | src/daemon/runner-daemon.ts:301-349 | No continuation without a crash makes a sole run lose its record. |
| `OwnershipLost.ExactlyWhenLost` | src/daemon/runner-daemon.ts:229-238 | Between ticks, and in any tick that can still end, some continuation makes a live run lose its record if and only if it is not the registered and only run of its task. |
| `OwnershipLost.StartingEnds` | src/daemon/runner-daemon.ts:229-238 | A tick that is starting tasks can end if and only if all it has yet to start are still queued. |
| `OwnershipStuck.ExactlyWhenLostWhileStarting` | src/daemon/runner-daemon.ts:229-296 | While a tick is starting tasks, or after one has thrown: some continuation makes a live run lose its record if and only if it is not the registered and only run of its task, the loop goes on and everything yet to be started is still queued. |
| `OwnershipExample.AnOvertakenRun` | src/daemon/runner-daemon.ts:234-237 | A state with a live run that can lose its record is reachable from the start. |
| `Supersede.LinksLeadToLater` | src/services/enqueue-service.ts:29-58 | If no enqueue inserts while another on its source has still to read queued/, every link leads to a strictly later enqueue on the same source, never to itself. |
| `Supersede.ExactlyWhenLinkedBack` | src/services/enqueue-service.ts:29-58 | An insert makes a link to an earlier enqueue possible if and only if another enqueue on the source has inserted and has still to read queued/. |
| `Supersede.ExactlyWhenCycled` | src/services/enqueue-service.ts:29-58 | After such an insert some continuation without a crash or a further enqueue makes the two tasks supersede each other if and only if the earlier one is queued, or is in running/ with a run that is executing, pausing or reverting. |
| `Supersede.ChainEnd` | src/infra/queue/file-queue-store.ts:150-166 | Following the links ends, at a task of the same source that is not superseded. |
| `Supersede.OverlappingEnqueuesMakeACycle` | src/services/enqueue-service.ts:29-58 | Overlapping enqueues can supersede each other. |
| `SourceBound.WaitingIsBounded` | src/services/enqueue-service.ts:31-58 | In every behaviour, the queued plus running tasks of a source number at most the concurrency, plus one, plus the conflicts an enqueue found that are still unfinished, plus the tasks started between its reading of queued/ and of their file, plus what has been inserted since that reading, whatever fails, overlaps or crashes. |
| `SourceBound.AtMostOneWaits` | src/services/enqueue-service.ts:29-58 | Once the conflicts an enqueue found are superseded, if it missed none in that way, and until the next insert, they number at most the concurrency plus one, whatever happened before. |
| `SourceBoundReached.BoundIsReached` | src/daemon/runner-daemon.ts:249-263 | The bound is reached, by a walk from the start, for every concurrency, every number of conflicts found and not superseded and every number of tasks missed. |
| `SourceBoundReached.OwnToolEachIsFurnished` | src/domain/rules/scheduling.ts:56-87 | For every concurrency there is a configuration of the kind that walk needs. |
| `SourceBound.FailedMarksBreakTheBound` | src/daemon/runner-daemon.ts:249-263 | If supersedes fail, any number of tasks can wait on one source. |
| `Retention.NeverVanishes` | src/infra/queue/file-queue-store.ts:246-264 | A record on disk stays on disk until a prune removes it. |
| `Retention.NoTaskIsLost` | src/infra/queue/file-queue-store.ts:51-79 | Every task ever enqueued has exactly one place on disk or has been pruned. |
| `Retention.TerminalIsFinal` | src/infra/queue/file-queue-store.ts:177-210 | A terminal record never changes until it is pruned, which is at least the retention after its last change. |
| `Retention.StampedWhenFinished` | src/infra/queue/file-queue-store.ts:236-257 | The modification time of a terminal record is the moment it became terminal. |
| `Retention.NothingKeptTooLong` | src/daemon/runner-daemon.ts:351-373 | Past the prune of a tick begun at T, if the last prune begun did not fail, every terminal record left is newer than T - retention - prune interval, whatever failed before. |
| `Checkpoints.OrphanedOnlyByStrays` | src/daemon/runner-daemon.ts:132-192 | A step leaves saved steps of a task neither queued nor running, not to be swept by the boot and with no drop the next step of anyone, if and only if it saves one for a live run whose record is gone. |
| `Checkpoints.ExactlyWhenOrphaned` | src/daemon/runner-daemon.ts:132-192 | Over whole behaviours, with no assumption: such steps appear if and only if such a save occurred. |
| `StepsStranded.StrandedOnlyByRateLimits` | src/daemon/runner-daemon.ts:451-511 | A step leaves such saved steps behind with no run left to drop them either if and only if it is a rate limit, returned or thrown, of a live run whose record is gone. |
| `StepsStranded.ExactlyWhenStranded` | src/daemon/runner-daemon.ts:451-511 | Over whole behaviours, with no assumption: saved steps are left behind if and only if such a rate limit occurred. |
| `StepsStranded.StrandedUntilACrash` | src/daemon/runner-daemon.ts:137-192 | Saved steps left behind stay until a crash, and so until the next boot. |
| `StepsStranded.NotStrandedIsDropped` | src/daemon/runner-daemon.ts:490-510 | Saved steps nobody is about to drop that are not left behind are dropped when the run that may still save more returns an outcome, its completion throwing; no queue file changes. |
| `Checkpoints.OnlyCurrentTasksHaveSteps` | src/daemon/runner-daemon.ts:137-192 | From the boot's sweep on, a task restarted only after its last run has settled has saved steps only while queued or running, or while its drop is the next thing its ender does. |
| `StepsKept.LosesOnlyByDrop` | src/daemon/runner-daemon.ts:507-510 | A step makes a queued or running task lose saved steps if and only if a run of it drops them. |
| `StepsKept.LostOnlyAfterAFailedCompletion` | src/daemon/runner-daemon.ts:490-510 | In every behaviour, with no assumption, that run's completion had failed before. |
| `StepsKept.FailedCompletionForgets` | src/daemon/runner-daemon.ts:490-510 | A completion that fails can lose them all while the record stays as it is. |
| `StepsKept.StepsSurvive` | src/daemon/runner-daemon.ts:507-510 | While a task is queued or running its saved steps only grow, through requeues, overtaken runs, whatever happens to other tasks, crashes and boots, if none of its own completions has failed. |
| `QueueStore.FileQueueStore.NextCreatedAtMs` | src/infra/queue/file-queue-store.ts:212-217 | Gives out and remembers a stamp above the last and not before now, and now itself when that is ahead. |
| `QueueStore.FileQueueStore.Enqueue` | src/infra/queue/file-queue-store.ts:51-79 | Files a new record under queued/ with the next stamp and none of the optional fields; every other record is as it was. |
| `QueueStore.FileQueueStore.StartTask` | src/infra/queue/file-queue-store.ts:99-109 | Moves a queued record to running/, saying so, started now, with neither finish nor summary, as the protocol's step does, or fails and changes nothing. |
| `QueueStore.FileQueueStore.CompleteTask` | src/infra/queue/file-queue-store.ts:111-128 | Moves a running record to succeeded/ for a success and to failed/ for a failure, saying so, finished now, without a summary or with the one given, or fails and changes nothing. |
| `QueueStore.FileQueueStore.RevertToQueued` | src/infra/queue/file-queue-store.ts:130-140 | Moves a running record back to queued/ with start, finish and summary cleared, or fails and changes nothing. |
| `QueueStore.FileQueueStore.MarkSuperseded` | src/infra/queue/file-queue-store.ts:150-166 | Moves a queued record to superseded/ with its link, finished now, or fails and changes nothing. |
| `QueueStore.FileQueueStore.ListInStatus` | src/infra/queue/file-queue-store.ts:266-292 | Lists each record of the directory once, oldest creation first, whatever order the directory is read in. |
| `QueueStore.FileQueueStore.FindQueuedBySource` | src/infra/queue/file-queue-store.ts:142-148 | Finds exactly the queued records of the source. |
| `QueueStore.FileQueueStore.RecoverRunningTasks` | src/infra/queue/file-queue-store.ts:168-175 | Moves every record under running/ to failed/ with the summary given, finished when it is reached, and changes no other. |
| `QueueStore.FileQueueStore.PruneTerminalTasks` | src/infra/queue/file-queue-store.ts:177-210 | Removes exactly the terminal records at or past the cutoff and counts them. |
| `QueueOrder.StampsIncrease` | src/infra/queue/file-queue-store.ts:39-44 | For any clock readings, stalled or going backwards, the stamps strictly increase; a clock that moves ahead is believed. |
| `QueueOrder.ListedInEnqueueOrder` | src/infra/queue/file-queue-store.ts:287-290 | After any operations, a listing shows the tasks one store instance enqueued in the order it enqueued them, requeued ones in their place. |
| `QueueOrder.RequeuesRestore` | src/infra/queue/file-queue-store.ts:130-140 | Any number of starts undone by requeues leave the record exactly as enqueued. |
| `QueueFiles.OnlyRecordsAreListed` | src/infra/queue/file-queue-store.ts:276-286 | A listing takes a file for a task if and only if it is a record file, and for the right task; no two files of a directory share a name. |
| `QueueFiles.EnqueueCutShort` | src/infra/queue/file-queue-store.ts:228-234 | An enqueue cut short anywhere leaves no record or all of it. |
| `QueueFiles.TransitionCutShort` | src/infra/queue/file-queue-store.ts:236-264 | A transition cut short anywhere leaves the record in exactly one status directory, whole, old or new, and every other record untouched. |
| `QueueFiles.CutShortAgainAndAgain` | src/infra/queue/file-queue-store.ts:246-264 | So does any number of transitions cut short one after another, leftover temporary files and all. |
| `QueueFiles.RecoveredUnlessTornInQueue` | src/infra/queue/file-queue-store.ts:168-175 | After a crash in one transition the recovery makes every status match its directory again if and only if the transition was not a start or a supersede between its two renames. |
| `EnqueueService.EnqueueService.Enqueue` | src/services/enqueue-service.ts:21-61 | Rejects an unknown instruction without effect; otherwise files the new task under queued/ and supersedes by it exactly the queued tasks of its source whose strategies, and whose own, supersede. |
| `EnqueueService.EnqueueService.SupersedeConflicts` | src/services/enqueue-service.ts:38-57 | The loop supersedes every conflict found but the new task and those whose strategy does not supersede. |
| `EnqueueService.OnlyTheNewOneWaits` | src/services/enqueue-service.ts:29-58 | Afterwards the new task is the only queued one of its source that supersedes; replaced records name it; nothing else changes. |
| `RateLimitState.RateLimitStateStore.Pause` | src/infra/queue/rate-limit-state-store.ts:43-62 | Keeps the later of the stored and the new pause; the other tools keep theirs. |
| `RateLimitState.RateLimitStateStore.Clear` | src/infra/queue/rate-limit-state-store.ts:69-80 | Removes the tool's pause and answers it; the other tools keep theirs, and a tool not paused changes nothing. |
| `RateLimitState.RateLimitStateStore.LoadActivePauses` | src/infra/queue/rate-limit-state-store.ts:29-41 | Answers a tool's pause, as stored, if and only if it is later than now; those are the tools a tick holds back. |
| `RateLimitState.SequentialStep` | src/infra/queue/rate-limit-state-store.ts:82-89 | Every file operation of every overlapping call, failing ones included, keeps the file equal to the successful calls applied in call order. |
| `RateLimitState.CallsTakeEffectInOrder` | src/infra/queue/rate-limit-state-store.ts:43-89 | In every run the file, and so every unlocked load, shows the successful calls applied one at a time in call order, each answering as it would there, and a call begins only when those before it have settled. |
| `RateLimitState.SettledStay` | src/infra/queue/rate-limit-state-store.ts:82-89 | Settled calls stay settled, so later loads only build on earlier ones. |
| `RateLimitState.FileHoldsTheMaximum` | src/infra/queue/rate-limit-state-store.ts:45-60 | With no successful clear the stored pause of each tool is the largest ever written. |
| `GithubFetch.ParseRetryAfterMs` | src/infra/github/github-fetch.ts:222-242 | The wait asked for is never negative; seconds take precedence; a wait until a point in time ends exactly then, or at once if that has passed. |
| `GithubFetch.ProactiveUntil` | src/infra/github/github-fetch.ts:185-189 | A proactive pause lasts at least the cooldown and not less than until the quota's reset, and is one of the two. |
| `GithubFetch.StopsAtFirstFinalReply` | src/infra/github/github-fetch.ts:110-160 | The request stops at the first reply that the replies before it do not let it retry, answers what that reply means, and has fetched, slept and paused exactly as the reference adds up. |
| `GithubFetch.GeometricSum` | src/infra/github/github-fetch.ts:170-175 | The backoffs of t retries add up to base (3^t - 1) / 2. |
| `GithubFetch.Bounded` | src/infra/github/github-fetch.ts:110-175 | For all replies and clock readings, at most limit + 2 fetches, and total sleep within the inline threshold plus base (3^limit - 1) / 2. |
| `GithubFetch.BoundsAreReached` | src/infra/github/github-fetch.ts:110-175 | Both bounds are attained. |
| `GithubFetch.OutcomeMeans` | src/infra/github/github-fetch.ts:110-220 | On statuses and headers: no 429, and no 403 with the quota used up or a `Retry-After`, is ever returned; a thrown error, 500, 502, 503 or 504 surfaces only with its budget spent; a rate-limit error comes from such a 429 or 403, past the threshold or after the one retry, and is primary exactly when the quota is used up. |
| `GithubFetch.RetriedExactly` | src/infra/github/github-fetch.ts:116-150 | A reply is followed by another fetch if and only if it is a thrown error, 500, 502, 503 or 504 with budget left, or the first rate limit and asks for a short enough wait. |
| `GithubFetch.OnePausePerLowReply` | src/infra/github/github-fetch.ts:135-192 | The request writes one pause for each reply whose remaining count is below the threshold, save those retried as transient, and one for the rate-limit error it throws; none without a sink. |
| `GithubFetch.RateLimitLeavesAPause` | src/infra/github/github-fetch.ts:149-160 | After a rate-limit error the stored github pause is at least the error's time, which is the throw time plus the longer of the wait and the cooldown. |
| `CheckpointStore.FileCheckpointStore.Read` | src/infra/checkpoint/file-checkpoint-store.ts:59-106 | Answers the readable entry under the key's file name, or none; a broken file is moved aside and nothing readable changes. |
| `CheckpointStore.FileCheckpointStore.Write` | src/infra/checkpoint/file-checkpoint-store.ts:108-126 | Sets the one entry, of the one task. |
| `CheckpointStore.FileCheckpointStore.Drop` | src/infra/checkpoint/file-checkpoint-store.ts:128-131 | Removes all of the task's entries and no other's. |
| `CheckpointStore.FileCheckpointStore.Sweep` | src/infra/checkpoint/file-checkpoint-store.ts:133-164 | Every active task keeps all its entries, every other one whose directory can be removed loses them all, the quarantine stays, and the directories removed are counted. |
| `Toolkit.ToolkitImpl.AiRun` | src/services/toolkit.ts:259-374 | One call adds no invocation or exactly one, which asks the tool named, or the only one declared, for what the options say: each option in its place, the prompt rendered from the cached context in the active workspace, its path and token; the result tells the reply. An unasked call says what is missing, or answers an entry stored for the same inputs. Other tasks' entries are untouched. |
| `Toolkit.RanAsTold` | src/services/toolkit.ts:259-374 | The same of the function the theorems are about, and what it stores: only a keyed success, under its key's file name, with its fingerprint, tool and text. |
| `Toolkit.ToolkitImpl.Prepare` | src/services/toolkit.ts:393-402 | The newest workspace becomes the active one, under a handle of its own. |
| `Toolkit.ToolkitImpl.Dispose` | src/services/toolkit.ts:407-415 | Disposing forgets a workspace only if it is still the active one. |
| `Toolkit.ToolkitImpl.FetchContext` | src/services/toolkit.ts:101-120 | The first context is kept. |
| `Toolkit.TransparentIffDetermined` | src/services/toolkit.ts:41-63 | With an injective fingerprint and any file names, colliding or not, the cache changes no result of any sequence of calls, retries and losses, if and only if a successful answer depends on the fingerprinted inputs alone. |
| `Toolkit.OnlyDeclaredToolsRun` | src/services/toolkit.ts:274-286 | Over any sequence of calls the runner is only asked for tools the strategy declares. |
| `Toolkit.SucceededStepIsReused` | src/services/toolkit.ts:293-329 | After a keyed call succeeded, and through retries and calls that spare its file, a call with the same fingerprinted inputs returns the same text without invoking the runner. |
| `DeliveryDedup.DeliveryDedupCache.MarkSeen` | src/infra/webhook/delivery-dedup.ts:26-51 | One call's answer and the entries it leaves, as the function the theorems are about. |
| `DeliveryDedup.DeliveryDedupCache.EvictExpired` | src/infra/webhook/delivery-dedup.ts:57-65 | The loop drops the leading expired entries. |
| `DeliveryDedup.EvictsExactlyTheExpired` | src/infra/webhook/delivery-dedup.ts:57-65 | With expiries that do not decrease, stopping at the first live entry evicts exactly the expired ones. |
| `DeliveryDedup.AnswersWhatTheLogSays` | src/infra/webhook/delivery-dedup.ts:22-51 | With a clock that does not go back, a call answers true exactly for ids among the last min(cap, unexpired) recordings, and those, in order and without repetition, are what eviction leaves. |
| `DeliveryDedup.CappedAndAscending` | src/infra/webhook/delivery-dedup.ts:40-48 | The cache never exceeds its cap and its expiries never decrease. |
| `CommandParser.ParseCommand` | src/domain/rules/command-parser.ts:13-84 | The parser as it runs returns what the body says by the reference. |
| `CommandParser.FindCommand` | src/domain/rules/command-parser.ts:18-48 | The scanner finds the first line that speaks, or none. |
| `CommandParser.ReadCommandLine` | src/domain/rules/command-parser.ts:50-83 | Verb and instructions of a command line and the lines after it. |
| `CommandParser.KindOnCharacters` | src/domain/rules/command-parser.ts:22-41 | A line that starts, after white space, with three backticks is a fence, one with ">" a quote, and any other that is not blank may be the command. |
| `CommandParser.BlankOnCharacters` | src/domain/rules/command-parser.ts:33-35 | A line is blank if and only if it is white space throughout. |
| `CommandParser.CommandIffAddressed` | src/domain/rules/command-parser.ts:50-62 | A line is a command if and only if, trimmed, it is a slash and "omgr" in any capitalisation, alone or followed by white space and more of the line. |
| `CommandParser.CommandSays` | src/domain/rules/command-parser.ts:64-83 | The verb is there if and only if the next token is "implement" in any capitalisation, and the instructions are the rest of the line and the lines below. |
| `CommandParser.InstructionsSay` | src/domain/rules/command-parser.ts:77-81 | The extra text and the text below, trimmed, on lines of their own if both are there. |
| `CommandParser.CommandLineInTheOpen` | src/domain/rules/command-parser.ts:22-44 | The line taken is the first outside every fence that is no fence, blank or quote line; none is taken only if there is none. |
| `CommandParser.MatchesIffSplits` | src/domain/rules/command-parser.ts:10-11 | The pattern matches exactly the texts that split into a token and, after white space, the rest of one line. |
| `CommandParser.SplitsMatch` | src/domain/rules/command-parser.ts:10-11 | What the pattern captures does not depend on how the split shares out white space. |
| `CommandParser.PrefixIgnorableIffSilent` | src/domain/rules/command-parser.ts:18-48 | Whole lines put in front change no body's result if and only if none of them speaks and every fence they open is closed. |
| `CommandParser.PreambleIsIgnored` | src/domain/rules/command-parser.ts:22-41 | Blank lines, quote lines and closed fenced blocks in front, with either line break, leave the result unchanged. |
| `CommandRoundTrip.WrittenCommandReadsBack` | src/domain/rules/command-parser.ts:50-83 | A command written with keyword, verb, extra text and text below is read back: the verb, and as instructions the extra text, the text below, or the two on lines of their own, however keyword and verb are capitalised. |
| `CommandRoundTrip.JoinedLines` | src/domain/rules/command-parser.ts:77-77 | A text without carriage returns, split into lines and joined again, is itself. |
| `Text.LinesOfPrefix` | src/domain/rules/command-parser.ts:18-18 | Splitting a text that ends in a line break, followed by another, gives the lines of both. |
| `Text.LinesOfWritten` | src/domain/rules/command-parser.ts:18-18 | Reading written lines back gives them again. |
| `Text.TrimOfPadded` | src/domain/rules/command-parser.ts:23-23 | Trimming takes off the white space at both ends and nothing else. |
| `Text.AsciiSpaces` | src/domain/rules/command-parser.ts:23-23 | Of the ASCII characters the space and tab to carriage return are white space, and no others. |
| `Text.LowerSays` | src/domain/rules/command-parser.ts:57-57 | Lower case replaces each ASCII capital by its small letter and no other ASCII character. |

## Left out

- SourceBound.AtMostOneWaits: says nothing while a conflict found is still unfinished, when one was missed or after a new insert; `WaitingIsBounded` covers those and `BoundIsReached` shows they matter.
- OwnershipLost.ExactlyWhenLost: says nothing of a tick that cannot end any more; for one that is starting tasks `ExactlyWhenLostWhileStarting` does.
- Supersede.LinksLeadToLater: assumes that no enqueue inserts while another on the source has still to read queued/; `ExactlyWhenLinkedBack` shows that this is needed.
- Ownership.LiveRunsHoldTheirRecords: assumes that the task is restarted only after its last run has settled, as do `LiveRunsShareNoTool`, `ExactlyOneEnding` and `OnlyCurrentTasksHaveSteps` for the tasks they speak of; `StartIsSole`, `ExactlyWhenLost`, `ExactlyWhenOrphaned` and `ExactlyWhenStranded` say what happens otherwise.
- StepsKept.StepsSurvive: assumes that no completion of the task itself has failed; `FailedCompletionForgets` shows that this is needed. A saved step is a checkpoint file, and its contents are in `CheckpointStore` and `Toolkit`.
- QueueOrder.ListedInEnqueueOrder: speaks of one store instance; a restart sets the creation stamp back to the clock.
- QueueStore.FileQueueStore.Enqueue: takes the id to be new, as generated ids are; an id used again would leave two files.
- GithubFetch.Bounded: rounding of floating-point times is not modelled, and the total-sleep bound is for a base backoff that is not negative.
- Starvation: a task with several tools can be passed over for ever; only first-come-first-served within a tool set holds, and that is what is stated.
- Liveness: no claim is made that a tick completes or that a queued task is ever started.
- Two overlapping store methods on one task, which share a temporary file, are not modelled; each is one step of the protocol, and `QueueFiles` takes one at a time.
- In the protocol a listing yields the files of a directory in any order.
- The modification time of a file and the daemon's clock are one clock in the protocol, and it does not go back.
- The program's strategies are a fixed tool list per instruction, an unknown instruction having none; the program throws for one.
- In the protocol every strategy supersedes on the same source, as the registered ones do; `EnqueueService` has the flag.
- I/O errors are calls that fail without effect, and quarantine of corrupt queue files is not modelled; a broken checkpoint file is always moved aside successfully.
- A clear of the pause map by the operator is one step of the protocol; its file operations are in `RateLimitState`.
- Abort signals, workspaces' contents, rendering of prompts, notifications, log files, console output, the idle warning and the cleanup of orphan workspaces have no part in the state modelled.
- HTTP serving, GitHub REST and GraphQL calls, signatures, tokens, child processes and git are foreign calls; where the protocol consumes their results these are arbitrary.
- JSON text, ISO dates, paths and digests are abstract; the fingerprint is taken to be injective, the file name of a step key is not.
- The summary of a stale record is a fixed text in the protocol; the program adds the age and the start time.
- Task fields that no modelled rule reads (priority, requester, additional instructions, notification anchors) are not in the record.
