# Atlas: the task controller, verified

Atlas takes a goal, has it planned and scored for risk, holds it for human approval where the score
demands it, runs the steps with retries, has the outputs verified, reworks them at most once, and writes
a report. Every event is committed in one transaction with a snapshot of the whole task, so a process can
stop between any two commits and the task continues from its last row. This project models that controller
and everything that writes the same row, and proves what it keeps over whole runs.

## How the project is built

* `Models.dfy` holds the values: task and step snapshots, risk, events, commits.
* `Controller.dfy` is the runner of one task as a small-step machine. A control point says where the runner
  stands; a step either commits the snapshot with one event or is silent. Model answers, exceptions, polls
  and the clock arrive as inputs, so every theorem holds for every oracle.
* `Invariants.dfy` proves what one runner keeps, whatever row it loaded.
* `InProcess.dfy`, `SystemInvariant.dfy`: one process. The runner, reviewers, the approval janitor's thread
  and crashes interleave; a run is a list of labels. `Safety`, `Rounds`, `Frozen`, `Verdict`, `LogView`,
  `Terminal`, `Endings`, `Decisions` and `Cost` prove the theorems about all such runs. `Limits` gives runs on which
  stronger readings fail.
* `Entities.dfy`, `Orchestrator.dfy`: the controller as objects. Classes whose methods update the live task in place,
  loop over steps, attempts, rounds and polls, and commit through `Emit`. Each commit must be one the machine can
  make, so the theorems about runs hold of every history these methods produce.
* `Outside.dfy`, `Conduct.dfy`: what these methods meet and what they owe it. Model replies are arbitrary and recorded,
  and so are polls and the time slept; `Conduct` says which events, step rows and results the recorded replies and
  polls must lead to.
* `Approval.dfy`: the approval claim as an unlocked read and a conditional update, with any number of callers.
* `Celery.dfy`, `CelerySafety.dfy`, `CeleryRuns.dfy`, `CeleryWork.dfy`, `CeleryFloor.dfy`, `CeleryOrder.dfy`,
  `CeleryTurns.dfy`, `CeleryWake.dfy`, `CeleryDenial.dfy`, `CeleryLimits.dfy`, `TaskQueue.dfy`: worker mode. Many
  processes with their own copies of the task, at-least-once messages, and a leased lock; they run the same
  controller.
* `Sse.dfy`, `RateLimit.dfy`, `Memory.dfy`, `Risk.dfy`: the event stream, the rate limiter, episodic memory
  and the risk score.

`dafny verify dfyconfig.toml` checks all of it.

## Where the code does less than its documentation says

The model follows the code. Each difference has a run that shows it, next to the theorem that holds instead.

* The documentation says crash recovery preserves the retry budget. The counter survives a crash, the budget
  does not: a restarted step begins again at attempt 1 (`CrashRefillsRetries`), so no bound holds that does not
  count the restarts (`AttemptsAreUnbounded`). What holds is the budget per round and once more for every restart
  that finds the step running or failed, and for no other (`BudgetPerRoundAndHit`, `AttemptBound`).
* The documentation says competing parties cannot reverse a decision. The compare-and-update alone keeps that
  promise (`SingleWinner`, `Approval.DecisionStands`), if no update reuses the timestamp it has
  read (`FrozenClockTwoWinners`). Over whole runs other writers count. In a single process the waiting runner's own
  timeout neither compares nor polls again (`ApprovalLostToDeadline`); a committed decision stands exactly if no
  deadline passes while an approval is stored (`DecisionStandsUnlessOverridden`). In worker mode a duplicate
  delivery can erase a decision (`DuplicateErasesDecision`); it stands if runs and other writes take turns
  (`CeleryTurns.DecisionStands`).
* `rework.started` is committed before the steps are reset; a crash between the two loses the rework
  (`CrashLosesRework`, reached in `ReworkIsLost`). Without it every step is done again (`ReworkRedoesAll`).
* Redelivery is not always harmless: a stale copy can erase a reviewed plan (`StaleCopyErasesPlan`), and the write
  after enqueueing can undo progress (`QueuedOverwritesProgress`).
* An approved task can fall asleep for good (`AsleepForever`): its wake-up meets a lock that is still held
  (`WakeUpIsDropped`), or the process that stored the approval dies before it has sent the message
  (`CrashBeforeSending`). It stays awake if neither happens and runs and other writes take turns
  (`ApprovedTasksStayAwake`).
* A level of CRITICAL does not imply approval for thresholds above 85 (`LevelAgreesWithGate`).
* A memory write that raises after COMPLETED or DENIED turns the task FAILED (`FaultRevokes`, reached in
  `CompletedIsRevoked`). Statuses absorb exactly if no such write has raised into the handler or the handler has not
  stored its own status yet, whoever denies (`Endings.TerminalAbsorbs`).
* Janitor and waiter can both deny and end the stream (`TwoDenials`); nobody else ends it a third time
  (`StreamEndsAtMostTwice`), and without the janitor it ends once (`StreamEndsOnce`).

## Model

| member | source | states |
|---|---|---|
| Invariants.PlansAreShaped | app/agents/planner.py:15-50 | every accepted proposal yields one to six fresh steps of planner, coder or browser, then the one verifier step, with distinct identifiers |
| Invariants.PlanKeepsProposal | app/agents/planner.py:45-50 | step i of a plan has identifier, title, agent and detail of proposal i; the last step is the verifier's, with its fixed title and detail |
| Invariants.StepKeepsLocal | app/orchestrator.py:237-360 | every step of a runner, from any control point and for any answer, keeps a snapshot that may be restarted from: step shape, rework below the limit, a verdict exactly while all steps are done, and past the gate a permitted task |
| Invariants.SoundRowsRestart | app/orchestrator.py:80-102 | any committed snapshot is a legal starting point for a resumed run |
| Invariants.WorkFrame | app/orchestrator.py:237-286 | working on a step changes that step only, never its identity, counts an attempt exactly with its event, and sets an output exactly with the completion event |
| Invariants.StepsFrame | app/orchestrator.py:163-233 | gate, approval, report and terminal commits leave the steps alone |
| Invariants.ReworkEvent | app/orchestrator.py:339-343 | the runner is between rework announcement and reset exactly after committing `rework.started` |
| SystemInvariant.ApplyKeepsInv | app/orchestrator.py:61-122 | runner, reviewer, janitor and restart transitions keep the relation between row, live task and control point |
| SystemInvariant.OutsiderEffect | app/orchestrator.py:61-122 | reviewers, janitor and restarts commit only approval, denial, recovery and stream events and never touch the work; a restart falls back to the row |
| SystemInvariant.ReachableInv | app/orchestrator.py:319-360 | the system invariant holds after every run with any number of crashes |
| Safety.GateSafety | app/orchestrator.py:214-256 | in every run each committed `step.attempted` carries a snapshot with a risk that needs no approval, or an approval, or `auto_approve` |
| Safety.StepShape | app/orchestrator.py:237-305 | at every commit statuses read COMPLETED*, at most one RUNNING or FAILED, PENDING*; plans keep their shape; rework stays below MAX_ROUNDS |
| Safety.StatusMatchesAgent | app/orchestrator.py:288-298 | at every committed `step.attempted` the task is VERIFYING if the step is the verifier's and RUNNING otherwise |
| Safety.OrderedHasFront | app/orchestrator.py:288-298 | the pairwise definition of that shape is equivalent to one index with done steps before and pending steps after it |
| Safety.DeniedOnlyByDecision | app/orchestrator.py:182-233 | in every run a committed DENIED snapshot has a risk that needs approval, no `auto_approve`, and a decision that is no |
| Rounds.CompletedOncePerRound | app/orchestrator.py:257-305 | the log completes a step at most once per round, over any crashes: reworks plus one if the row has it completed, and never more than MAX_ROUNDS |
| Rounds.BudgetPerRoundAndHit | app/orchestrator.py:247-256 | a step is attempted at most retries + 1 times for the first round, for every rework, and for every restart that finds it RUNNING or FAILED in the row |
| Rounds.AttemptBound | app/orchestrator.py:247-256 | so with k restarts no step is attempted more than (retries + 1) * (MAX_ROUNDS + k) times |
| Rounds.AttemptsAreExact | app/orchestrator.py:249-256 | the persisted counter of a step equals the number of its `step.attempted` events in the log, across crashes and rework |
| Frozen.ApprovedPlanIsExecuted | app/orchestrator.py:307-328 | from the first assessed commit on, every commit has the same risk and the same steps in order: identifier, title, agent, detail |
| Verdict.VerifiedResult | app/orchestrator.py:333-349 | a COMPLETED task is verified with every step done, and each report is written from exactly the outputs the verifier was last asked about |
| Verdict.JudgedOfWork | app/agents/planner.py:52-64 | what the report reads and what the verifier reads agree once all work but the verifier's is the same and done |
| Verdict.ReportInputIsWork | app/agents/planner.py:52-64 | the report reads title and output of a step exactly if it is completed and not the verifier's |
| Verdict.JudgedInputIsWork | app/agents/verifier.py:14-24 | the verifier reads title and output of a step exactly if it has an output |
| Verdict.VerdictFreezes | app/agents/verifier.py:14-24 | outside step work, a verdict that is still there is the old one on unchanged steps |
| LogView.LogExplainsRow | app/orchestrator.py:95-99 | replaying the durable events alone gives exactly the row's status, rework counter and set of completed steps, a recovery cancelling a pending reset |
| LogView.StatusMoves | app/orchestrator.py:163-174 | every status change is announced by the event committed with it |
| Endings.TerminalAbsorbs | app/orchestrator.py:172-184 | in every run, whoever denies: no commit leaves a terminal status exactly if no memory write has raised into the handler or the handler has not stored its own status yet |
| Endings.StreamEndsAtMostTwice | app/orchestrator.py:119-120 | in any run `stream.end` is committed at most twice, at most once by each of runner and janitor, and never before a terminal status |
| Terminal.StreamEndsOnce | app/orchestrator.py:176-184 | with the waiter as the only denying party `stream.end` is committed at most once and nothing follows it |
| Decisions.DecisionStandsUnlessOverridden | app/orchestrator.py:61-78 | a committed decision is in every later commit exactly if no deadline passed while an approval was stored; then the row carries it too |
| Decisions.DecisionStands | app/orchestrator.py:199-212 | in particular it stands in every run without a deadline, whatever reviewers, janitor and crashes do |
| Endings.FaultRevokes | app/orchestrator.py:349-360 | from every world about to close a COMPLETED or DENIED task a memory write that raises leads to FAILED with its message |
| Endings.CompletedIsRevoked | app/orchestrator.py:349-360 | a run in which a COMPLETED task becomes FAILED |
| Terminal.ProviderErrorStops | app/orchestrator.py:271-276 | after a provider error no attempt is committed until a restart recovers the task |
| Cost.StepsDescend | app/orchestrator.py:319-360 | every step of the runner, for any answer, lowers a lexicographic rank of phase, rounds left, steps left and attempts left |
| Cost.NeverStuck | app/orchestrator.py:319-360 | a runner can go on exactly when it has not finished, paused or left the handler by an exception |
| Limits.CrashLosesRework | app/orchestrator.py:339-345 | a crash between `rework.started` and the reset makes every resumed run fail verification at once without working on a step |
| Limits.ReworkIsLost | app/orchestrator.py:339-345 | a run in which that happens |
| Limits.CompletedIsReachable | app/orchestrator.py:333-349 | a run that plans, works, verifies, reports and stores COMPLETED |
| Limits.ReworkRedoesAll | app/orchestrator.py:300-305 | without that crash the rework round starts with every step pending |
| Limits.CrashRefillsRetries | app/orchestrator.py:247-249 | a crash during any agent call leads back to the same call as attempt 1, with the counter one higher |
| Limits.AttemptsAreUnbounded | app/orchestrator.py:247-249 | for every n a run with n restarts attempts a step more than n times |
| Limits.DeadlineOverrides | app/orchestrator.py:199-212 | a stored decision is honoured by a poll and replaced by a denial if the deadline passes first |
| Limits.ApprovalLostToDeadline | app/orchestrator.py:203-212 | a run in which a stored and announced approval is lost to the deadline |
| Limits.TwoDenials | app/orchestrator.py:119-120 | a run in which janitor and waiter both end the stream |
| Entities.Materialize | app/agents/planner.py:45-50 | builds distinct step objects whose snapshots are the plan |
| Entities.Store.SaveTaskAndEvent | app/storage.py:148-153 | snapshot and event are written together, as one commit of the system |
| Entities.Store.Decide | app/storage.py:155-213 | the claim succeeds exactly on a waiting, undecided row and changes only its decision |
| Conduct.PausesAdd | app/orchestrator.py:281 | the closed form of the total pause grows by the capped exponential pause after each failed attempt |
| Conduct.FailureTextIsFirst | app/orchestrator.py:335-336 | the text of a broken round is the error of the first FAILED step, or the default text if no step is FAILED |
| Outside.RepliesAreTakenAsTheyAre | app/orchestrator.py:257-258 | a reply that fits is passed on unchanged, an exception too, and what fails validation becomes an exception that is no provider error |
| Orchestration.Orchestrator.Create | app/orchestrator.py:43-48 | the row and `task.created` are stored before anything runs |
| Orchestration.Orchestrator.Recover | app/orchestrator.py:90-102 | an unfinished task is re-attached from its row with one `task.recovered` and no other change |
| Orchestration.Orchestrator.Emit | app/orchestrator.py:163-170 | stores the live task with one event, as a transition of the system |
| Orchestration.Orchestrator.SetStatus | app/orchestrator.py:172-174 | changes the status alone and commits it as `task.status` |
| Orchestration.Orchestrator.CloseStream | app/orchestrator.py:176-180 | ends the stream with the task's status, or hands the memory write's exception to the caller with nothing committed |
| Orchestration.Orchestrator.ResolveApproval | app/orchestrator.py:61-78 | succeeds exactly on a waiting, undecided row; then live task and row carry the decision and `approval.resolved` is committed; otherwise nothing changes |
| Orchestration.Orchestrator.ExpireApproval | app/orchestrator.py:104-122 | succeeds exactly on a waiting, undecided row whose window has closed; then live task and row are denied with `approval.timeout`, DENIED and, unless its memory write raises, `stream.end`; otherwise nothing changes |
| Orchestration.Orchestrator.Sleep | app/orchestrator.py:210 | the runner sleeps only after a poll that found nothing, and then for some time; meanwhile any number of reviewers and expiries leave it waiting with the same plan and risk, and it makes no step itself |
| Orchestration.Orchestrator.RequestApproval | app/orchestrator.py:188-197 | clears the decision, sets AWAITING_APPROVAL and commits both at once |
| Orchestration.Orchestrator.TimeOut | app/orchestrator.py:211-212 | once the whole window was slept since the wait began, and not before, a denial is stored whatever the row says |
| Orchestration.Orchestrator.Look | app/orchestrator.py:203-207 | a poll reads the stored decision at that moment |
| Orchestration.Orchestrator.WaitForApproval | app/orchestrator.py:199-212 | polls at once and goes on while polls find nothing; the first decision a poll finds is returned at that moment with nothing committed by the runner; only if no poll found one and the whole window was slept does it commit the timeout and deny |
| Orchestration.Orchestrator.Deny | app/orchestrator.py:182-184 | stores the denial result and the terminal status |
| Orchestration.Orchestrator.PassGate | app/orchestrator.py:214-233 | the five cases of the gate, each with its events: open, `approval.auto`, denied and closed, paused in worker mode, or a wait whose outcome decides; no deadline passes unless the whole window was slept, and a stored decision found waiting is honoured |
| Orchestration.Orchestrator.CountAttempt | app/orchestrator.py:248-256 | the attempt is counted and stored before the agent is called |
| Orchestration.Orchestrator.RunVerifier | app/agents/verifier.py:14-24 | one reply is asked for; a judgement with notes of 1 to 4000 characters is written to the task as it was given, anything else leaves verdict and notes as they were |
| Orchestration.Orchestrator.CallAgent | app/orchestrator.py:257-258 | one reply is asked for and passed on as it is; only the verifier touches the task |
| Orchestration.Orchestrator.Settle | app/orchestrator.py:257-286 | what the recorded reply says is what the step's row and the committed event carry: the answer, the provider's error, the error with another attempt exactly while attempts are left, or the final error |
| Orchestration.Orchestrator.CompleteStep | app/orchestrator.py:258-268 | output, cleared error and COMPLETED are stored with `step.completed` |
| Orchestration.Orchestrator.ProviderFails | app/orchestrator.py:271-277 | a provider error fails the step with its message, commits `provider.error` and `step.failed`, and breaks the run without another attempt |
| Orchestration.Orchestrator.RetryLater | app/orchestrator.py:278-281 | an attempt that failed with attempts left is stored and tried again |
| Orchestration.Orchestrator.TryStep | app/orchestrator.py:247-286 | one attempt: it is counted and stored, exactly one reply is asked for, and events, step row, verdict and the choice between done, again and given up are those of this reply |
| Orchestration.Orchestrator.RunStep | app/orchestrator.py:237-286 | one call for each recorded reply, at most retries + 1; it goes on exactly after exceptions that are no provider errors and ends with an answer, which it stores, with a provider error, or with the retries used up; all events are those of the replies; an unknown agent fails its step without a call; the pauses between attempts are exactly the capped exponential ones |
| Orchestration.Orchestrator.Approach | app/orchestrator.py:288-298 | completed steps are skipped with nothing committed; before any other the task is VERIFYING if the step is the verifier's and RUNNING otherwise |
| Orchestration.Orchestrator.ExecuteRound | app/orchestrator.py:288-298 | all steps done or the run broken, with one call for each reply and at most steps * (retries + 1) |
| Orchestration.Orchestrator.ResumeInterrupted | app/orchestrator.py:324-328 | exactly the running and failed steps become pending, in place |
| Orchestration.Orchestrator.ResetForRework | app/orchestrator.py:300-305 | every step becomes pending without output, the verdict is dropped, nothing else changes |
| Orchestration.Orchestrator.FirstFailure | app/orchestrator.py:335-336 | the error reported is that of the first FAILED step, and the default text if there is none |
| Orchestration.Orchestrator.Plan | app/orchestrator.py:307-314 | the planner is asked once; a valid proposal is stored as its plan with exactly the planning events, anything else is thrown as it was raised |
| Orchestration.Orchestrator.Assess | app/orchestrator.py:315-318 | the safety agent is asked once; its assessment is stored as it was given with exactly the assessment events, an exception is thrown as it was raised |
| Orchestration.Orchestrator.Prepare | app/orchestrator.py:319-328 | a task without plan or risk gets the plan the planner proposed and the risk the safety agent gave, with exactly the planning and assessment events, or throws what either raised; any other only has its interrupted steps made pending, with nobody asked and nothing committed |
| Orchestration.Orchestrator.AfterRound | app/orchestrator.py:337-345 | report if verified, one rework if rounds are left, failure otherwise |
| Orchestration.Orchestrator.RunRounds | app/orchestrator.py:333-345 | ends ready for the report or failing, within MAX_ROUNDS rounds of calls |
| Orchestration.Orchestrator.Report | app/orchestrator.py:347-349 | asks for the report once and commits it as it was written, then COMPLETED, then `stream.end`, and nothing else, unless an exception goes to the handler |
| Orchestration.Orchestrator.Fail | app/orchestrator.py:350-360 | the handler stores the error and FAILED with exactly its events: `provider.error` if the provider raised it, `task.failed`, the status, and `stream.end` exactly unless the memory write raises, which leaves the handler |
| Orchestration.Orchestrator.StoreIsSafe | app/orchestrator.py:214-233 | every store these methods leave behind is gate-safe, and COMPLETED means verified with all steps done |
| Orchestration.Orchestrator.Execute | app/orchestrator.py:319-360 | a run ends; it is terminal or paused, gate-safe, verified if COMPLETED, and made at most steps * (retries + 1) * MAX_ROUNDS step calls |
| Approval.SingleWinner | app/storage.py:155-213 | among any interleaved claims whose updates do not reuse the timestamp they have read, at most one returns the task, and only to a caller of its own tenant; the row has exactly its decision; an expiry wins only before its cutoff; no update is lost without a winner |
| Approval.DecisionStands | app/storage.py:155-213 | after a claim no later call changes the row |
| Approval.ForeignCallsChangeNothing | app/storage.py:155-213 | a caller of another tenant is refused at its read, and whatever the timestamps only a claim of the task's own tenant ever changes the row |
| Approval.FrozenClockTwoWinners | app/storage.py:169-182 | if updates may reuse the timestamp they have read, two opposite claims both return the task |
| Approval.WriteSettles | app/storage.py:171-183 | a finished update either left its decision in the row or found the row decided |
| Approval.ApprovalStore.UpdateWhere | app/storage.py:171-183 | the update applies exactly if the row still waits with the timestamp that was read |
| Approval.ApprovalStore.DecideApproval | app/storage.py:155-183 | returns the task with the stored decision only to its own tenant; a caller that gets nothing is of another tenant, too late, or lost to a claim in between |
| Approval.ApprovalStore.ExpireApproval | app/storage.py:185-213 | as above with a denial, and only for rows older than the cutoff |
| CelerySafety.ApplyKeepsInv | app/task_queue.py:34-49 | every transition of every process keeps all copies, rows and runs sound, stale or not |
| CelerySafety.WorkersRespectGate | app/orchestrator.py:214-256 | gate safety in worker mode under every interleaving, stale copy, expired lease and redelivery |
| CelerySafety.WorkersCommitSound | app/orchestrator.py:237-305 | every snapshot any process commits has the step shape, and COMPLETED means verified and done |
| CeleryRuns.RunsStartFromTheRow | app/orchestrator.py:80-88 | each run loaded a row that had not ended, and its commits are exactly those of the controller alone from that row: whole or cut short |
| CeleryRuns.RunsAreSerial | app/task_queue.py:29-49 | while no lease ends under a live holder, at most one process runs the task and runs follow one another in the log; crashed holders, timeouts of their locks and resumed runs are included |
| CeleryRuns.LockStays | app/task_queue.py:29-49 | while no lease ends under a live holder, only the lock holder loads, runs or leaves the task |
| CeleryOrder.ApprovedPlanIsExecuted | app/orchestrator.py:61-78 | in worker mode the assessed plan never changes if leases hold, an unassessed row is loaded only while nobody owes a write, and whoever decides has no copy or one with the row's plan at that moment |
| CeleryTurns.RunsTakeTurns | app/orchestrator.py:61-88 | if leases hold, rows are loaded only while nobody owes a write, and decisions are made only while no run may still commit, there is never more than one writer, and it has the row's decision |
| CeleryTurns.EndedTasksStayEnded | app/orchestrator.py:140-184 | under that condition, with no memory write raising into a handler and however stale the copies, no commit leaves a terminal status and `stream.end` is committed at most once, last |
| CeleryTurns.DecisionStands | app/orchestrator.py:61-78 | under that condition a committed decision is in every later commit and in the row |
| CeleryWake.ApprovedTasksStayAwake | app/task_queue.py:34-49 | an approved task is never left with no message and no active process, if leases hold, runs and outside writes take turns, no message meets a held lock, and no process dies between storing an approval and sending its message |
| CeleryWake.ApprovalIsMinded | app/task_queue.py:34-49 | under that condition, while an approved row awaits execution, a message is waiting or a process is about to send, load or run it |
| CeleryDenial.ScriptsAreFollowed | app/orchestrator.py:61-78 | a process that owes writes outside a run makes them all, in order, however others interleave, unless it dies, the queue is unreachable or a memory write raises |
| CeleryDenial.DenialIsCarriedOut | app/orchestrator.py:61-122 | whoever claims a denial, reviewer or expiry, then commits its event, DENIED with the denial's result, and `stream.end`, in this order and each with the decision no, and is free only after all three |
| CeleryDenial.ApprovalIsCarriedOut | app/orchestrator.py:61-78 | whoever claims an approval commits `approval.resolved` and, with the message sent, `task.queued` |
| CeleryDenial.UnsentTasksFail | app/orchestrator.py:140-152 | a task that cannot be sent is stored as FAILED with the message, announced as failed, and its stream ends |
| CeleryDenial.DenialIsMinded | app/orchestrator.py:61-78 | if runs and outside writes take turns, leases hold, and no process dies in the middle of a denial, a waiting row with the decision no always has a process that is telling or committing the denial |
| CeleryWork.HoldsEverywhere | app/orchestrator.py:61-122 | whatever survives single steps and edits of a copy holds of every row and every copy in every run, stale or not |
| CeleryWork.WorkersReportVerified | app/orchestrator.py:333-349 | in worker mode every report and every COMPLETED row is fully done work with a positive verdict on exactly the outputs a verifier call in the log was asked about |
| CeleryFloor.WorkersEnforceFloor | app/risk.py:34-54 | the risk floor holds of every attempt in worker mode, whatever the safety model answered and whatever copies were written |
| CeleryLimits.StaleCopyErasesPlan | app/orchestrator.py:61-70 | a run in which resolving from a stale copy erases plan and risk and keeps the approval |
| CeleryLimits.DecisionOutlivesPlan | app/orchestrator.py:217-218 | with that approval any later plan passes the gate |
| CeleryLimits.QueuedOverwritesProgress | app/orchestrator.py:140-152 | a run in which the write after enqueueing overwrites a worker's status |
| CeleryLimits.DuplicateErasesDecision | app/orchestrator.py:188-229 | a run, with the lock held throughout, in which a duplicate delivery erases a stored approval |
| CeleryLimits.WakeUpIsDropped | app/task_queue.py:39-42 | a run in which the message after an approval meets the held lock and nothing is left to resume the task |
| CeleryLimits.CrashBeforeSending | app/orchestrator.py:61-78 | a run in which a process dies between storing an approval and sending its message, and nothing is left to resume the task |
| CeleryLimits.AsleepForever | app/task_queue.py:39-42 | from both, no transition of any process changes the row or the log |
| CeleryLimits.CrashIsResumed | app/task_queue.py:29-49 | a run in which a worker dies after a commit, its lock times out, and another process resumes from the row it left, with no lease counted as lost |
| CeleryLimits.LostLeaseOverlaps | app/task_queue.py:29-31 | a run in which an ended lease lets two processes run the task |
| TaskQueue.Cluster.ExecuteTask | app/task_queue.py:34-49 | with the lock held the message is dropped and nothing else changes; otherwise a row that had ended is left alone, and any other is run to its end amid arbitrary other processes: its commits are the controller's own on exactly the replies its agents gave, and worker and lock are free again |
| TaskQueue.Cluster.Finish | app/orchestrator.py:80-88 | a resumed run ends whatever the agents answer and other processes do, having heeded every reply |
| Sse.EventBus.Publish | app/event_bus.py:23-28 | every queue of the task gets the event unless it is full |
| Sse.EventBus.Subscribe | app/event_bus.py:46-51 | adds one new, empty queue for the task and changes no other |
| Sse.EventBus.Unsubscribe | app/event_bus.py:80-88 | removes exactly this queue |
| Sse.ReplayIsSlice | app/storage.py:238-247 | in an ascending log the replay query returns one consecutive run right after the cursor |
| Sse.TakenTracks | app/main.py:218-224 | reading the queue keeps order, completeness and cursor, whether or not the event was replayed before |
| Sse.ReplayedTracks | app/main.py:203-217 | replaying the next stored event does so too |
| Sse.Stream.Gen | app/main.py:183-226 | in every regular history the stream's output stays in step with log and queue; it never repeats an identifier, ends only with its one `stream.end`, and gives its queue back; unless it has ended, each round took one event or sent all a replay found, up to a hundred, and what waited in the queue was sent in as many rounds |
| Sse.Stream.Round | app/main.py:201-224 | a waiting event is taken and sent; if none came, every stored event past the cursor, up to a hundred, is sent and the cursor moves past them |
| Sse.ClientSeesEverything | app/main.py:183-226 | the client gets stored order without duplicates, every event published since the subscription or still queued, and nothing left out before the first `stream.end` |
| RateLimit.RateLimiter.Check | app/rate_limit.py:42-55 | the pruned table never refuses what exact counters admit, and answers and remaining count are exact while no request lags by more than one minute |
| RateLimit.NextTracks | app/rate_limit.py:49-54 | counting and pruning keep the counts a request in step can still hit |
| RateLimit.BucketsAreMinutes | app/rate_limit.py:43 | two moments are counted together exactly if they lie in the same minute of the clock |
| RateLimit.MinuteAdmits | app/rate_limit.py:49-55 | exactly the first `limit` requests of a minute are admitted |
| RateLimit.TwiceTheLimit | app/rate_limit.py:42-55 | with a non-decreasing clock any sixty seconds admit at most twice the limit of an identity |
| RateLimit.LaggingIsMiscounted | app/rate_limit.py:52-54 | the condition is tight: one request two minutes behind can be miscounted |
| Memory.EpisodicStore.StoreMemory | app/storage.py:273-291 | adds the row, keeps at most a hundred per tenant, leaves every other tenant's rows alone |
| Memory.EpisodicStore.RecallMemory | app/storage.py:293-303 | with increasing timestamps, what is recalled is the tail of the tenant's unpruned log in chronological order |
| Memory.NewestIsOrdered | app/storage.py:284-289 | the query order is a descending permutation of the rows |
| Memory.OwnRowsAppended | app/storage.py:284-291 | storing equals appending to the tenant's rows and keeping the last hundred |
| Memory.OwnRowsBounded | app/storage.py:284-291 | the bound holds whatever the timestamps |
| Memory.OthersUntouched | app/storage.py:284-291 | pruning one tenant never changes another's rows |
| RiskScore.HeuristicScore | app/risk.py:21-31 | the loop computes the score and the distinct factors of the matched signals, within 0 to 100 |
| RiskScore.ScoreIsLargestContribution | app/risk.py:25-31 | closed form: the largest of w1 + 8(k-1) and wi + 8(k-i+1), capped at 100 |
| RiskScore.MoreMatchesScoreHigher | app/risk.py:25-31 | more matches never lower the score, for any weight table |
| RiskScore.MatchIsFloor | app/risk.py:25-31 | every matched weight is a floor of the score |
| RiskScore.MergeTakesTheHigher | app/risk.py:34-54 | the agent can raise the deterministic score, never lower it; approval is required exactly if either score reaches the threshold; every factor of either side appears once |
| RiskScore.LevelAgreesWithGate | app/risk.py:34-54 | level HIGH or CRITICAL holds exactly when approval is required, unless 85 <= score < threshold; always for thresholds up to 85 |
| RiskScore.LevelDisagrees | app/risk.py:39-51 | for every higher threshold some answer is CRITICAL without approval |
| RiskScore.LevelBands | app/risk.py:39-46 | the four levels as bands of the score, exactly |
| RiskScore.FactorsAreMatched | app/risk.py:25-31 | the factors are those of the matching signals, or the note that nothing matches |
| RiskScore.TextNamesEverything | app/risk.py:22 | goal and every title and detail of the plan occur in the text that is matched |
| RiskScore.FloorIsEnforced | app/risk.py:34-54 | end to end: a matched weight (capped at 100) at or above the threshold means no step is attempted without approval or `auto_approve`, whatever the safety model answers |
| RiskScore.HeuristicsAreEnforced | app/risk.py:10-18 | the same for the table in force: a matching pattern whose weight is at or above the threshold |
| RiskScore.UniqueIsDistinct | app/risk.py:31 | dropping repeated factors keeps exactly the factors |

## Left out

- Storage faults other than a memory write of a finished task: a failing row or event write is not modelled; transactions either happen or the process stops.
- Atomicity: between two awaits the runner and a reviewer do not interleave within one event loop; the janitor's thread may interleave between commits but not inside one.
- A single process models one task and one database user at a time; several in-process replicas on one database and more than 500 active tasks are not part of this model.
- Liveness in worker mode: only the end of a single run is proved; the code does not guarantee that a task is ever resumed.
- Entities.Store.Decide: the read and the conditional update are one step here; Approval.dfy takes them apart.
- Orchestration.Orchestrator.ExpireApproval: whether the window has closed is a parameter; the comparison with `updated_at` is in Approval.dfy.
- TaskQueue.Cluster.ExecuteTask: the automatic retry on a lost broker connection is one more delivery of the message.
- Tenants: the caller's tenant is compared in Approval.dfy alone; the models of whole runs take every reviewer for one of the task's tenant.
- Orchestration.Orchestrator.RunStep: the clock counts time slept, in quarter seconds; time spent in agent calls is not part of it.
- Fresh identifiers: new step identifiers are distinct by assumption (they are random), and a clash of memory identifiers rolls back.
- Event payloads keep the fields the theorems use; texts, hints and timestamps of events are left out of the controller, and timestamps appear in Approval.dfy and Sse.dfy.
- Verdict.VerifiedResult: speaks of the non-verifier outputs; the live report prompt also repeats the verifier's own step, which adds nothing to prove.
- Sse.Stream.Gen: other subscribers of the same task do not come and go during a stream, and a closing event for a task that had ended before is not part of the log.
- Pattern matching in the risk score: which patterns match a text is a parameter.
- Redis counting, Redis Pub/Sub, model providers, prompts and JSON repair, sandbox, web retrieval, HTTP routing, authentication, metrics, files for audit and memory: no further guarantee of this code depends on them.
- Negative MAX_STEP_RETRIES is excluded by type.
