# Verified model of a digital-employee platform

Dafny 4.11 models of the parts of the platform in which a mistake is silent: the kernel that runs one employee on one
task, the graphs that order work, the text that is cut and framed, and the scheduler. Each module follows one or a few
source files and keeps their branches, constants and error cases. Where the source computes, the model is a function.
Where the source changes things step by step, the model is a method or a class, proved to come to the same as a
function, and the laws are lemmas about that function.

The outside - models, tools, people, clocks, verdicts, exceptions - is a parameter. It is a function of the transcript, of
the number of the stage, try or firing, of the place of a batch, or of the task and the attempt; each is consulted at most
once per argument in a run, so "for every such function" is "whatever the outside does". Costs are reals; moments are whole
microseconds.

`dafny verify dfyconfig.toml` checks everything.

## What is modelled

* **The run kernel.** `Transcripts` (the conversation and its saved form), `Tasks` (status machine, failure kinds),
  `Policies`, `Refusals`, `Approvals`, `Worlds` (limits, the outside, the journal), `Executor` with `ExecutorRuns`,
  `ExecutorRefusals`, `ExecutorResults`, `ExecutorResume` and `ExecutorPolicies` (the tool loop and what every run of it
  keeps and records), `Runtime` with `RuntimeRuns`, `RuntimeVerdicts`, `RuntimeBudgets`, `RuntimeCosts`, `RuntimeCrashes`,
  `RuntimeResumes`, `RuntimeReplays` and `RuntimeRows` (plan, execute, verify, retry once; what a task ends as, every row a
  killed process can leave, what it holds, what it says was spent, and what becomes of the task when another process takes
  it up), `Delegation` (narrowed tools), `TaskRunner` and `TaskFailures` (every run ends the task, and what a failure says).
* **Dependency graphs.** `WorkflowOrder` and `WorkflowEngine` (declared workflows), `Plans` (plans and how the planner
  reads one), `Coordinator` (what one task is told of another), `Supervisor`, `SupervisorRuns` and `SupervisorFacts` (waves
  under a parallel limit, interleaved in any order, and what each task is told).
* **Text.** `Text` (whitespace, joins, subsequences), `Chunking` and `ChunkingBreaks` (passages, and where they are cut),
  `Knowledge` (re-indexing), `Framing`.
* **Scheduling.** `Schedules` (recurrences over many ticks), `Scheduler` (ticks that overlap, step by step, and a tick by
  itself), `SchedulerRuns`, `SchedulerEarly` and `SchedulerWarrants` (what every interleaving keeps, which claims are lost,
  which firings come early, what may fire at all), `SchedulerTicks` (ticks one after another).

## Where the code does not do what one would expect

Each of these is a theorem about the code as it is; the lemma is named.

* A task killed while its result is checked (VERIFYING), or just after it was sent back (PLANNING with the saved stage
  still EXECUTING), is listed as resumable. Resuming it ends at an illegal transition exactly when its first execution
  finishes, uncancelled, without asking anybody (`LateCrashesAreLegalIffAsked`); asking sets the status to RUNNING, and
  from there the verdict is legal again (`AnAnsweredQuestionUnblocks`). Whether that can happen is known before resuming:
  such a task can complete if and only if its employee has an approver, is allowed some registered tool that none of its
  policies forbids, and has steps, money and time left on the saved transcript (`LateCrashesCompleteIffAskable`).
* For the same reason a transient failure of the verifier is not really retried. The try it ends leaves such a row, and
  the second try ends as FAILED with `InvalidStateTransitionError`, hiding the transient failure, if and only if its first
  execution finishes, uncancelled, without asking anybody (`TransientVerdictsAreNotRetried`).
* A run stopped after its final answer is asked for one more answer when it is resumed (`AnswerIsAskedForAgain`).
* Refused tools are counted under their stripped names and withdrawn by their plain ones. The limit on refusals bounds
  the steps that both offer a tool and refuse it if and only if its name is plain - not empty, no whitespace around it - or
  was never granted (`RefusalsAreBoundedIffPlainOrNotGranted`); otherwise every step can be wasted on it
  (`OtherNamesWasteEveryStep`). The other way round a tool nobody was ever refused can be withdrawn (`ATwinIsWithdrawn`):
  a plain name is counted for its own refusals if and only if no other spelling of it was refused (`CountedAsSpelledIff`).
* The row of a task can miss the price of a model call: one reply, at most. It says what was spent if and only if the
  last execution was not cut after a reply was paid and before its step was saved - by a cancellation inside the batch, or
  by an exception - or that reply cost nothing (`RowSaysTheCostIffNotCut`, `CutMeansCutShort`); a cancelled task that
  cost 1.0 and says 0.0 is `ACancelledRowIsTooCheap`.
* A grant that names tools leaves an employee declared with the wildcard without any (`NamedGrantsDisarmTheWildcard`).
* A passage may be `size + overlap + 2` characters long, and that is reached (`PassageLengths`,
  `LongestPassageIsReached`).
* A frame is read back exactly when its origin is one line; a line break in the origin breaks the header
  (`FrameReadsBack`).
* The planner looks for edges only in as many entries as there are tasks, so an entry it skips can cost an edge at the
  end of the list, and tasks meant to follow each other start together (`ASkippedEntryLosesAnEdge`). No stated edge is
  lost if and only if each edge a later entry states is also stated by one of the first (`EdgesAreLostIffLate`).
* A claimed event is lost for good if and only if its schedule is in flight when the tick goes on to fire on it
  (`ClaimIsLostIffInFlight`, `ClaimsCanBeLost`); two ticks and two mails are enough (`AMailIsLost`).
* Ticks that overlap fire a schedule again from an old due list (`OldListsFireTwice`): a firing by the clock comes before
  the schedule's next time after its last saved firing if and only if the stored row is not due when it begins
  (`EarlyIffNoLongerDue`). Of ticks one after another none is early (`TicksFireAsFirings`, `TicksKeepTheirDistance`).
* The store's due list does not ask for a recurrence, as `is_due` does: the two agree if and only if no row without one has
  reached a due time (`DueListIsDueIff`). An event schedule created with a due time is fired by the clock, without an
  event (`AnEventScheduleFiresByTheClock`).
* Several events in one tick move a schedule's count of runs on by one; the count is right if and only if at most one of
  the firings was saved (`RunsMoveOnByOne`).

## Model

| member | source | states |
|---|---|---|
| WorkflowOrder.OrderSteps | application/workflows/engine.py:55-87 | duplicates are reported exactly when there are any, then unknown names, then a cycle exactly when the graph has one, with the names of the steps on a cycle or downstream of one; otherwise a permutation sorted by longest chain and declaration index |
| WorkflowOrder.PlaceInRounds | application/workflows/engine.py:74-87 | the layering loop fails exactly when there is a cycle, and otherwise gives the run order; it terminates |
| WorkflowOrder.TakeRound | application/workflows/engine.py:75-85 | one round splits what remains into the ready steps, in declaration order, and the rest |
| WorkflowOrder.StuckMeansCycle | application/workflows/engine.py:76-81 | when no step is ready, the steps left are exactly those some chain of which enters a cycle |
| WorkflowOrder.RunOrderIsUnique | application/workflows/engine.py:55-62 | the order by depth and declaration index is determined: two orders that satisfy it are equal |
| WorkflowOrder.DependenciesComeFirst | application/workflows/engine.py:55-62 | in the run order every step comes after everything it depends on |
| WorkflowEngine.RunStep | application/workflows/engine.py:152-192 | the retry loop comes to the outcome of the step's attempts |
| WorkflowEngine.OutcomeIsFirstSuccess | application/workflows/engine.py:152-192 | attempts run to the first success or to max(1, max_attempts), and the last one is what is reported, with the task of the last attempt that got as far as one |
| WorkflowEngine.RunInOrder | application/workflows/engine.py:113-150 | recorded steps are a prefix of the order, each run with what the earlier ones produced; FAILED exactly when the last recorded step is the only failed STOP step, otherwise everything is recorded; every state was saved, in order |
| WorkflowEngine.OnlyStoppingFailuresStop | application/workflows/engine.py:126-150 | a run fails exactly when a step that is declared to stop it failed, which is then the last recorded; otherwise every step is recorded |
| WorkflowEngine.Run | application/workflows/engine.py:103-150 | a run is refused exactly for duplicate names, unknown names or a cycle, in this order and naming the steps, and then saves nothing; otherwise it is the recorded run |
| WorkflowEngine.StartedAfterDependencies | application/workflows/engine.py:103-150 | each recorded step has everything it depends on recorded before it, a failed one only if it was declared CONTINUE |
| WorkflowEngine.ReadsEarlierSuccesses | application/workflows/engine.py:120-139 | a step reads exactly the summaries of the earlier steps that succeeded |
| WorkflowEngine.RunIsDetermined | application/workflows/engine.py:103-150 | two concluded runs of one workflow with the same work are the same run |
| Transcripts.MessageComesBack | application/employee_runtime/transcript.py:20-48 | a message is read back without its pictures and without an empty name or call id, and otherwise as it was |
| Transcripts.RunStateComesBack | application/employee_runtime/transcript.py:78-126 | a saved run state is read back exactly, when and only when no message has a picture, an empty name or an empty call id |
| Transcripts.NothingSavedIsAFreshRun | application/employee_runtime/transcript.py:118-126 | the empty state is a run about to be planned for the first time |
| Transcripts.MissingFieldsAreRead | application/employee_runtime/transcript.py:33-126 | what each absent field is read as |
| Transcripts.CompleteAppend | application/employee_runtime/executor.py:202-234 | complete exchanges one after another are a complete conversation |
| Transcripts.CutShortIsIncomplete | application/employee_runtime/executor.py:205-215 | an assistant message with some replies missing is never a complete conversation |
| Tasks.TransitionTo | domain/tasks/task.py:190-200 | it succeeds exactly when some event leads from the status to the other one along the table, its event is such a path, and nothing but the status of the task differs; an illegal move names both statuses |
| RuntimeRuns.EnterFollows | domain/tasks/task.py:190-200 | a transition saves one row that follows the table, or stops the run at that move with nothing saved, exactly as the table has it |
| Tasks.EveryUnfinishedTaskCanEnd | domain/tasks/task.py:28-84 | unfinished tasks can always be failed and cancelled, finished ones go nowhere, and only a task waiting for approval is unfinished and not resumable |
| Tasks.WaysIn | domain/tasks/task.py:44-84 | for each status exactly where it is reached from |
| Tasks.TerminalEventIsLast | domain/tasks/task.py:44-84 | on any path of the table a terminal event is the last one |
| Policies.DecisionTable | domain/policies/rules.py:77-206 | denied exactly when forbidden; otherwise asked about exactly when it changes something and every write is to be approved, or cannot be undone and that is to be approved, or is at HIGH or above; otherwise allowed |
| Policies.RiskyIff | domain/approvals/gate.py:50-66 | a call is at HIGH or above exactly when its tool cannot be undone, or it is assessed so, or it is not assessed and its tool is declared so |
| Policies.EvaluateDecides | domain/policies/rules.py:179-206 | for the rules as they are: DENY exactly when a declared one denies, ALLOW exactly when none denies or asks and the risk is below the threshold |
| Policies.CombineIsMostSevere | domain/policies/rules.py:179-191 | the outcome is somebody's decision and nobody's is more severe, for any catalog |
| Policies.MorePoliciesNeverMilder | domain/policies/rules.py:171-191 | adding policies never lowers the severity of a decision |
| Policies.RiskyCallsAreNeverAllowed | domain/approvals/gate.py:50-61 | a call resolved to HIGH or above, and any call of an irreversible tool, never gets ALLOW, whatever is declared |
| Policies.ReadOnlyDeniesEveryChange | domain/policies/rules.py:113-165 | a read-only employee is denied everything but reading; without policies one is asked about exactly what is risky |
| Policies.DeniedIffForbidden | domain/policies/rules.py:113-206 | a denial depends on the effect of the tool and on what is declared, exactly as listed, and not on what the tool says of the call |
| Refusals.RefusalCounts | domain/tools/refusals.py:42-49 | the counter holds exactly the tools refused, each with how often |
| Refusals.WithheldTools | domain/tools/refusals.py:52-58 | the loop and comprehension give the withheld set |
| Refusals.WithheldIffRefusedTwice | domain/tools/refusals.py:36-58 | a name is withheld exactly when at least two refusals are counted under it, each under the stripped name of the call |
| Refusals.WithheldOnlyGrows | domain/tools/refusals.py:52-58 | more observations never give a tool back |
| Approvals.ApprovalGate.CheckCall | application/employee_runtime/approvals.py:89-157 | the gate comes to its outcome and does exactly what it does on the way, in order |
| Approvals.ApprovalGate.AskPerson | application/employee_runtime/approvals.py:159-174 | the task is waiting while the question is open and running afterwards, whether it is answered or raises |
| Approvals.WhoMayProceed | application/employee_runtime/approvals.py:89-157 | irreversible or HIGH calls pass only on an APPROVED answer, a DENY is put to nobody, and nobody answers unless the engine asked |
| Approvals.WhoIsLetThrough | application/employee_runtime/approvals.py:89-174 | a call passes exactly when nothing forbids it and it needs no approval or gets one; a person is asked exactly when it needs one, is not forbidden and there is an approver; what the assessment or the answer raises is raised |
| Approvals.GateIsOrderly | application/employee_runtime/approvals.py:89-174 | every question follows a decision to ask, and RUNNING is told right after it |
| Executor.Executor.InvokeCall | application/employee_runtime/executor.py:279-319 | permission, gate and tool in this order, with their acts |
| Executor.Executor.RunBatch | application/employee_runtime/executor.py:205-234 | the inner loop comes to the batch: stopped by a cancellation or an exception, or done |
| Executor.Executor.Run | application/employee_runtime/executor.py:118-244 | the while loop terminates and comes to the run of the loop, with everything it did on the journal in order |
| ExecutorRuns.ExchangesAreComplete | application/employee_runtime/executor.py:196-244 | every transcript handed to on_step is a complete conversation, and so is the last one unless the run was cancelled within a batch, which leaves a proper prefix of the replies |
| ExecutorRuns.BatchReplies | application/employee_runtime/executor.py:205-234 | a batch leaves one reply and one observation per call made, same ids, same order, and all of them exactly when it is done |
| ExecutorRuns.CutShortIsNotComplete | application/employee_runtime/executor.py:205-215 | a transcript cut short is never complete, so it was never handed to on_step |
| ExecutorRuns.ObservationsMatchReplies | application/employee_runtime/executor.py:223-234 | in every transcript handed to on_step the replies are the summaries of the observations, one for one |
| ExecutorRuns.RunIsOrderly | application/employee_runtime/executor.py:279-319 | in every run a tool is entered only after ALLOW or APPROVED, questions follow decisions to ask, and the status is RUNNING right after each |
| ExecutorRuns.RunKeepsItsBudget | application/employee_runtime/executor.py:162-194 | at most as many model calls as steps left, each begun below the cap; however the run ends, exceptions included, everything paid stays below the cap plus one call; steps and cost at a finished end are those at the start plus the calls and their prices |
| ExecutorRuns.EndsAreExplained | application/employee_runtime/executor.py:152-215 | a run that finishes was cancelled where it stands, or has used up the first of its budgets there, or was answered without a call; stopped short, it answers with the last thing said |
| ExecutorRuns.BestAnswerIsLastSaid | application/employee_runtime/executor.py:456-466 | the answer at hand is the last assistant message that is not empty, and empty only when there is none |
| ExecutorRefusals.RefusedIffNotExecuted | application/employee_runtime/executor.py:279-319 | a call is flagged refused exactly when the tool was not entered |
| ExecutorRefusals.ObservationsAccountForTools | application/employee_runtime/executor.py:223-234 | over a whole run the observations not flagged refused name exactly the tools executed, in order |
| ExecutorRefusals.RefusedCallsFail | application/employee_runtime/executor.py:279-319 | in every run a refused call is recorded as a failed one |
| ExecutorRefusals.WithheldStaysWithheld | application/employee_runtime/executor.py:185-186 | what is withheld at any point is not offered again in the rest of the run |
| ExecutorRefusals.RefusalsAreBounded | application/employee_runtime/executor.py:185-234 | at most REFUSAL_LIMIT steps both offer a tool and record its refusal, counting those a resumed run starts with |
| ExecutorRefusals.OnlyPlainNamesAreWithheld | domain/tools/refusals.py:42-58 | only names without surrounding whitespace are ever withheld, and those always are after two refusals |
| ExecutorRefusals.RefusalsAreBoundedIffPlainOrNotGranted | domain/tools/refusals.py:42-58 | for whoever has more steps left than the limit, and money and time for them: the limit bounds the steps that both offer a tool and refuse it, in every world, if and only if its name is plain or was never granted |
| ExecutorRefusals.OtherNamesWasteEveryStep | application/employee_runtime/executor.py:185-234 | a granted tool whose name is not plain can be offered and refused at every step left |
| ExecutorRefusals.OfferedIffGranted | application/employee_runtime/executor.py:185-186 | a step offers a tool of a name exactly when one is granted and the name is not withheld |
| ExecutorRefusals.OfferedInOrder | application/employee_runtime/executor.py:185-186 | withholding takes single tools out of the list and leaves the others in order |
| ExecutorRefusals.CountedAsSpelledIff | domain/tools/refusals.py:42-58 | a plain name is counted for its own refusals if and only if no other spelling of it was refused, and then it is withheld exactly when calls to it were refused twice |
| ExecutorRefusals.ATwinIsWithdrawn | domain/tools/refusals.py:42-58 | two refused calls to a name with a space before it withdraw the tool, which was never refused |
| ExecutorResults.ObservationsSayWhatHappened | application/employee_runtime/executor.py:223-234 | over a whole run, call by call: an observation says success exactly when the tool was entered and succeeded, is flagged exactly when it was not entered, and holds the tool's output or its error |
| ExecutorResults.WithdrawalsAreTold | application/employee_runtime/executor.py:387-444 | a refusal says that the tool is gone exactly when its name is withheld from then on |
| ExecutorResults.EmployeesSayTheReplies | application/employee_runtime/executor.py:187-204 | over a whole run the assistant messages are the model's replies, words and calls, one for each that was paid |
| ExecutorPolicies.IrreversibleToolsAreApproved | domain/approvals/gate.py:50-61 | in every run each entry of a tool that is registered as irreversible comes right after an approval of that tool |
| ExecutorPolicies.ForbiddenEffectsNeverHappen | domain/policies/rules.py:113-165 | no run executes a tool whose effect the employee's policies forbid; a read-only employee executes tools that read and no others |
| ExecutorPolicies.ExecutedIffLetThrough | application/employee_runtime/executor.py:279-319 | a tool is entered exactly when it is registered and allowed, nothing forbids what it does, and the call needs no approval or was approved |
| ExecutorPolicies.EveryWriteIsApproved | domain/policies/rules.py:102-110 | when every write is to be approved, each entry of a tool that changes something comes right after an approval of it |
| ExecutorPolicies.NobodyIsAsked | application/employee_runtime/approvals.py:89-157 | without an approver, or an allowed tool that is not forbidden, no run puts a question |
| ExecutorResume.ResumeEqualsContinue | application/employee_runtime/executor.py:152-244 | stopping after any number of steps that went on, saving, reading back in another process and going on gives the outcome and the acts of the run that was never stopped |
| ExecutorResume.RunSplits | application/employee_runtime/executor.py:152-244 | a run is its first steps followed by the run from where they lead |
| ExecutorResume.LastSaved | application/employee_runtime/executor.py:243-244 | what the steps before the stop saved last is the transcript they lead to |
| ExecutorResume.AnswerIsAskedForAgain | application/employee_runtime/executor.py:196-200 | resuming after a final answer asks the model again, unless a budget is used up |
| RuntimeReplays.ResumedRunIsTheWholeRun | application/employee_runtime/runtime.py:215-262 | killed after any number of steps and taken up from its row by another process, a run saves entry for entry what it would have saved, verdicts and retry included, and ends as it would have ended |
| RuntimeReplays.RowHoldsTheStep | application/employee_runtime/runtime.py:223-249 | the row after a step holds the run state with the transcript the steps have reached |
| Runtime.EmployeeRuntime.Run | application/employee_runtime/runtime.py:129-153 | the stage loop terminates and saves exactly the rows of the run, ending as it ends |
| Runtime.EmployeeRuntime.PlanWork | application/employee_runtime/runtime.py:157-213 | planning enters PLANNING if need be, opens with the feedback and the money spent, and saves RUNNING beside EXECUTING |
| Runtime.EmployeeRuntime.ExecuteWork | application/employee_runtime/runtime.py:215-262 | an execution saves a row per step and per change of status, then is verified or cancelled |
| Runtime.EmployeeRuntime.VerifyWork | application/employee_runtime/runtime.py:264-331 | a verdict completes, sends back or fails the task, with the rows each leaves |
| RuntimeVerdicts.ExecutionEnds | application/employee_runtime/runtime.py:250-331 | what one execution comes to, by its answer and the opinion met: cancelled, refused a check, sent back with what is missing, failed, completed, or stopped by what was raised, and the result that is stored |
| RuntimeVerdicts.RunsEndAsJudged | application/employee_runtime/verifier.py:41-80 | over every run of an unfinished task: completed if and only if the last execution said something and the model asked about it said yes; cancelled if and only if that was; failed if and only if it was turned down, also for an answer that cannot be read, with a budget used up or no send-back left; whatever is raised ends the run |
| RuntimeVerdicts.NewTasksEndAsJudged | application/employee_runtime/runtime.py:129-356 | the same for a new task, to which nothing is ever refused and which has two executions at most |
| Runtime.StagesEnd | application/employee_runtime/runtime.py:129-153 | every stage uses up a send-back or brings the run closer to its end |
| RuntimeRuns.RowsAreAPath | application/employee_runtime/runtime.py:129-153 | from any state whatever, the rows saved are a path of allowed transitions; a refused move starts where it ends |
| RuntimeRuns.StatusAfterExecution | application/employee_runtime/runtime.py:239-249 | an execution leaves the status alone unless somebody was asked; then the task is RUNNING |
| RuntimeRuns.IllegalIffBlocked | application/employee_runtime/runtime.py:129-303 | a run makes an illegal move if and only if its first step is blocked by the status and stage it starts from |
| RuntimeRuns.ReturnsIffTerminal | application/employee_runtime/runtime.py:129-356 | a run returns exactly when its rows end in a terminal status; that event is the last and the only terminal one |
| RuntimeBudgets.RunIsDecided | application/employee_runtime/runtime.py:264-331 | at most one execution more than it can be sent back, all but the last finished freely and rejected, so a limit stop is never retried; the last verdict, or its absence, is what the task ends as; nothing said never passes |
| TaskFailures.FailuresAreCountedOnce | application/task_runner.py:118-150 | over all tries the count of failures goes up by one, and an error is written, exactly when the task ends as FAILED |
| TaskFailures.TheSupervisorReadsTheError | application/prometheus/supervisor.py:138-207 | what the runner writes of its last exception is read as somebody else for a permission, the same again for the provider's failures, neither for an illegal move |
| RuntimeBudgets.RunStaysInBudget | application/employee_runtime/runtime.py:187-303 | over the whole run, retry included and however it ends, the model calls are bounded and begun below the cap, and everything costs less than the cap plus the dearest call, unless it costs nothing |
| RuntimeCosts.RowSaysTheCostIffNotCut | application/employee_runtime/runtime.py:223-237 | however a run ends, its last row says what it cost if and only if the last execution did not stop between paying a reply and saving its step, or that reply was free |
| RuntimeCosts.RowsLagOneReply | application/employee_runtime/runtime.py:223-237 | what the last row is short of is exactly the price of that one reply |
| RuntimeCosts.CutMeansCutShort | application/employee_runtime/executor.py:188-244 | for a run that finishes that is a cancellation that leaves calls without a reply, for one that raises an exception after the model had answered |
| RuntimeCosts.SessionsSayTheCost | application/employee_runtime/runtime.py:129-262 | so it is for every process that takes the task up from a row; every row says one cost and one number of steps, on itself and in its saved state |
| RuntimeCosts.ACancelledRowIsTooCheap | application/employee_runtime/executor.py:205-215 | a new task cancelled at its first call costs 1.0 and its last row says 0.0 |
| RuntimeCrashes.NewTaskRuns | application/employee_runtime/runtime.py:129-356 | the run of a new task, whole: legal path from CREATED, one terminal event at its end, at most MAX_ATTEMPTS executions, COMPLETED only on a passing last verdict, at most MAX_ATTEMPTS times the step limit of calls, less than the cap plus one call however it ends, cost on the row of every task that returns uncancelled |
| RuntimeCrashes.CrashPointsStay | application/employee_runtime/runtime.py:157-303 | whatever row a process leaves behind is finished or one of six pairs of status and stage, and so is every row of a run resumed from it |
| RuntimeCrashes.EveryPairIsLeftBehind | application/employee_runtime/runtime.py:157-303 | each of the six pairs is really left behind by one run |
| RuntimeCrashes.EarlyCrashesAreLegal | application/employee_runtime/runtime.py:129-213 | resuming a task that was created, planning or running never makes an illegal move |
| RuntimeCrashes.LateCrashesAreLegalIffAsked | application/employee_runtime/runtime.py:264-303 | resuming from the other three ends at an illegal move if and only if the first execution finishes uncancelled without asking |
| RuntimeCrashes.UnaskedResumesNeverComplete | application/employee_runtime/runtime.py:264-303 | without a question such a task is cancelled or left unfinished, never completed |
| RuntimeCrashes.AnAnsweredQuestionUnblocks | application/employee_runtime/approvals.py:159-174 | after a question and a passing verdict it completes |
| RuntimeResumes.LateCrashesCompleteIffAskable | application/employee_runtime/runtime.py:215-303 | for a given employee, registry and row of that kind: some outside lets the resumed task complete if and only if somebody can be asked about some tool and there is budget left for another step; otherwise it is refused its next move exactly when its loop finishes uncancelled |
| RuntimeResumes.NobodyAskedWhenResumed | application/employee_runtime/executor.py:162-179 | without either the resumed execution asks nobody |
| RuntimeResumes.QuestionedRun | application/employee_runtime/approvals.py:89-174 | with both there is a run that asks once and finishes with an answer, also when the question takes the last step |
| RuntimeRows.RowsAreConversations | application/employee_runtime/runtime.py:187-244 | every row of a run reads back, exactly, as a complete conversation with one observation per reply |
| RuntimeRows.SessionsLeaveConversations | application/employee_runtime/transcript.py:78-126 | so a process that takes a task up from any such row starts from one, and leaves only such rows |
| RuntimeRows.ReturnsTheLastExecution | application/employee_runtime/runtime.py:250-356 | a run that returns gives the result of its last execution and leaves it on the last row, with the error and the count of a failed verification |
| RuntimeRows.TheRetryIsToldWhatIsMissing | application/employee_runtime/runtime.py:187-303 | after a rejection the next opening is instructed with what was missing, or with the reason, starts at step zero without observations and keeps the money spent |
| Delegation.DelegationNeverEscalates | application/employee_runtime/runtime.py:106-127 | in no execution of any run is a tool offered or entered that the declaration or the assignment does not allow |
| Delegation.OfferedIffAllowed | infrastructure/tools/registry.py:49-63 | an employee is offered exactly the registered tools it is allowed and that were not withdrawn |
| Delegation.NarrowingNeverWidens | application/employee_runtime/runtime.py:106-127 | the narrowed set allows nothing either side forbids, and exactly what both name or both leave open |
| Delegation.NamedGrantsDisarmTheWildcard | infrastructure/tools/registry.py:56-63 | a grant of named tools leaves the wildcard with none |
| TaskRunner.TaskRunner.Run | application/task_runner.py:118-150 | the retry loop saves exactly what its tries and the final mark save, and returns the stored row |
| TaskRunner.TaskRunner.Fail | application/task_runner.py:227-245 | the stored task becomes FAILED unless it is finished already |
| TaskRunner.RunnerFinishesTheTask | application/task_runner.py:118-150 | an unfinished task whose stage is not DONE is finished after at most max_attempts tries, retried only after a provider or an integration failed and said so, with the last exception named when it failed by one |
| TaskRunner.TriedAgainIff | application/orchestrator.py:55-85 | try by try: there is a next one if and only if this one raised a provider's or an integration's error marked as transient and tries were left |
| TaskRunner.TerminalIsForGood | application/task_runner.py:227-245 | a finished status is never overwritten, and over all tries there is one terminal event at most, the last |
| TaskRunner.RowsSayExecuting | application/employee_runtime/runtime.py:157-262 | no run writes a saved stage other than EXECUTING, so none writes DONE |
| TaskRunner.TransientVerdictsAreNotRetried | application/task_runner.py:118-150 | whenever a try ends because the verifier raised something transient, the next one starts from VERIFYING beside EXECUTING; it ends at an illegal move if and only if its first execution finishes uncancelled without asking, and then the task is FAILED by that move after two tries |
| TaskRunner.RaisedVerdictsLeaveVerifying | application/employee_runtime/runtime.py:264-303 | from any row a run can be taken up from, a run in which the verifier raised last ends with what it raised and leaves VERIFYING beside EXECUTING |
| TaskRunner.VerifierRaisesOnAnAnswer | application/employee_runtime/verifier.py:41-75 | that is so for a running task whose loop finishes uncancelled with an answer when the verifier cannot be reached |
| Plans.BlockedMeansCycle | domain/workforce/protocols.py:152-161 | a blocked plan with well-formed edges has a cycle |
| Plans.ObjectivePlanner.ReadTasks | application/prometheus/planner.py:166-184 | the loop keeps a task per key with the last goal given for it, and stops at the limit |
| Plans.ObjectivePlanner.ReadEdges | application/prometheus/planner.py:186-197 | the loop finds the edges the first entries state |
| Plans.ObjectivePlanner.Read | application/prometheus/planner.py:144-199 | the plan is made of what the two loops read |
| Plans.PlansAreWellFormed | application/prometheus/planner.py:166-199 | distinct ids, goals that say something, and every edge joins two different tasks of the plan |
| Plans.PlansHoldWhatTheyMay | application/prometheus/planner.py:166-184 | no more tasks than the limit, entries left unread only when it is reached, a task for every entry read that has a goal unless a later one goes by the same key, in the order of the keys |
| Plans.EntriesGoBy | application/prometheus/planner.py:174-174 | an entry goes by its own id, or by a t and its place counted from one |
| Plans.EdgesAreLostIffLate | application/prometheus/planner.py:186-197 | for every answer: the plan has every edge stated if and only if each edge stated by an entry past the number of tasks is also stated by one before it |
| Plans.NoEdgeIsLost | application/prometheus/planner.py:186-197 | so when every entry becomes a task, the plan has exactly the edges stated |
| Plans.ASkippedEntryLosesAnEdge | application/prometheus/planner.py:186-197 | with one skipped entry a stated edge between two planned tasks is not read |
| Plans.ObjectivePlanner.MakePlan | application/prometheus/planner.py:105-140 | there is always a well-formed plan with a task: the plan that was read, or the objective itself exactly when no entry that was read has a goal |
| Coordinator.WorkforceCoordinator.Record | application/workforce/coordinator.py:60-71 | only a completed task with a summary that says something is recorded |
| Coordinator.WorkforceCoordinator.Share | application/workforce/coordinator.py:73-99 | the loop builds the context of a task |
| Coordinator.ContextIsLocal | application/workforce/coordinator.py:73-99 | a context depends on nothing but what the direct dependencies handed over |
| Coordinator.ContextIsWhatWasHanded | application/workforce/coordinator.py:73-99 | beyond the baseline, the facts and files are exactly those of direct dependencies, and no file is named twice |
| Supervisor.JudgeResult | domain/workforce/acceptance.py:52-88 | the count refuses a completed task exactly when it made calls and none succeeded, and says whether one was refused |
| Supervisor.WhatRecoveryMeans | application/prometheus/supervisor.py:138-207 | each recovery exactly in terms of the run's record: cancelled, failed by the provider, out of reach, or none of these |
| Supervisor.AttemptsAreJustified | application/prometheus/supervisor.py:323-356 | between one and max_attempts attempts, each but the last failed in a way to be retried or reassigned, an employee once ruled out stays ruled out, and the last is the last because it succeeded, none was left or nobody could help |
| Supervisor.AttemptsStopIff | application/prometheus/supervisor.py:138-207 | attempt by attempt, by the finished tasks alone: there is a next one if and only if the work is not done, attempts are left, and the provider failed or the work was out of reach; who could not reach it is avoided from then on |
| Supervisor.FirstFailureDecides | application/prometheus/supervisor.py:287-304 | the recovery is what the first failed task of a wave calls for |
| Supervisor.Supervisor.Move | application/prometheus/supervisor.py:253-260 | one step of one task: let in with its context, or an attempt made; it uses up work |
| Supervisor.Supervisor.RunWave | application/prometheus/supervisor.py:253-275 | for every interleaving the limit allows, a wave ends, never has more than the limit in flight, and comes to what each task comes to by itself |
| Supervisor.Supervisor.Run | application/prometheus/supervisor.py:228-319 | for every interleaving the waves and the recovery are those of the plan alone, within the limit |
| SupervisorRuns.DependenciesSucceedFirst | application/prometheus/supervisor.py:248-285 | no task starts before every task it depends on has succeeded in an earlier wave |
| SupervisorRuns.StartedOnce | application/prometheus/supervisor.py:248-304 | each task is in one wave at most |
| SupervisorRuns.UpstreamSucceeded | application/prometheus/supervisor.py:248-304 | everything upstream of a started task, at any distance, succeeded before it |
| SupervisorRuns.NothingOnACycleStarts | application/prometheus/supervisor.py:306-312 | nothing on a cycle or downstream of one is ever started |
| SupervisorRuns.NothingDownstreamOfAFailureStarts | application/prometheus/supervisor.py:287-304 | nothing downstream of a task that did not succeed is ever started |
| SupervisorRuns.WavesFit | application/prometheus/supervisor.py:248-319 | wave by wave: who was ready, what had been handed over, only the last can fail, and the recovery is the first failure's or the blocked plan's |
| SupervisorRuns.RecoveryIffNotAllSucceeded | application/prometheus/supervisor.py:127-131 | recovery is None exactly when there are as many outcomes as tasks and all succeeded |
| SupervisorRuns.ShortfallMeansCycle | application/prometheus/supervisor.py:306-312 | when no task fails, the plan falls short exactly when its edges have a cycle |
| SupervisorRuns.RecordStays | application/prometheus/supervisor.py:280-285 | what a task handed over is recorded after its wave and never changes |
| SupervisorRuns.NothingElseFlowsIn | application/prometheus/supervisor.py:242-285 | two runs in which everything upstream of a task does alike tell it the same, whatever the rest does |
| SupervisorFacts.DependenciesAreTold | application/workforce/coordinator.py:60-99 | of each direct dependency that found something to say a started task is told what it was for, what it found, and every file it left |
| SupervisorFacts.NothingElseIsTold | application/workforce/coordinator.py:73-99 | any other fact and any other file is the baseline's |
| Chunking.Chunk | domain/knowledge/chunking.py:52-81 | a size of zero or less is refused, any other text is cut into the passages |
| Chunking.SplitSentences | domain/knowledge/chunking.py:38-49 | the sentence loop comes to the sentences, long ones cut hard |
| Chunking.Accumulate | domain/knowledge/chunking.py:70-81 | the accumulating loop comes to the passages of the cuts |
| Chunking.PiecesHoldTheText | domain/knowledge/chunking.py:38-69 | the pieces hold the text's characters in order, none blank, none longer than a passage |
| Chunking.ChunkingConservesText | domain/knowledge/chunking.py:63-81 | without the overlaps the passages hold exactly the text's characters, whitespace aside, in order |
| Chunking.OverlapIsThePreviousEnd | domain/knowledge/chunking.py:70-81 | what a passage carries is at most the overlap and is how the passage before it ends |
| Chunking.PassageLengths | domain/knowledge/chunking.py:63-81 | a passage is at most size + overlap + 2 long, and at most size without an overlap |
| Chunking.LongestPassageIsReached | domain/knowledge/chunking.py:63-81 | for every size and overlap some text has a passage of exactly that length |
| Chunking.PiecesStayWhole | domain/knowledge/chunking.py:63-81 | every piece lies whole in some passage, up to whitespace at its ends |
| ChunkingBreaks.ParagraphsAre | domain/knowledge/chunking.py:34-64 | a text is its paragraphs and the whole breaks between them, two line breaks or more, none of which lies within a paragraph |
| ChunkingBreaks.SentencesAre | domain/knowledge/chunking.py:35-41 | a paragraph is its sentences and the whitespace between them, which follows a full stop, an exclamation mark or a question mark there and nowhere else |
| ChunkingBreaks.PiecesEndAtBreaks | domain/knowledge/chunking.py:38-68 | a piece is a whole paragraph when that fits, otherwise a sentence, otherwise a stretch of the full length of a sentence, or its rest |
| ChunkingBreaks.PassagesAreFull | domain/knowledge/chunking.py:70-81 | a new passage is begun only for a piece that does not fit the one before, and begins with the whole overlap |
| Chunking.TextSurvivesReindexing | application/knowledge/service.py:142-158 | cut again any number of times, the passages still hold the original text as a subsequence |
| Knowledge.Embed | application/knowledge/service.py:184-208 | batches give every chunk its own vector in order, or the first batch of the wrong size fails all; the contents stay |
| Knowledge.Index | application/knowledge/service.py:165-208 | the store ends with the text's passages under the document, each with the vector and the document with the status that embedding gives, and nothing else changed; or, exactly when a batch has the wrong size, with nothing changed at all |
| Knowledge.Reindex | application/knowledge/service.py:142-158 | missing documents and blank texts are the two refusals, exactly; otherwise the stored passages are joined and cut again |
| Knowledge.StoredTextSurvives | application/knowledge/service.py:142-182 | over any history of successful reindex calls the stored passages hold the indexed text |
| Framing.NeutralisedHasNoMarker | domain/integrations/untrusted.py:35-43 | no closing marker in the body, not even across replacement boundaries |
| Framing.UnchangedIffNoMarker | domain/integrations/untrusted.py:35-43 | the body is the content exactly when the content holds no marker |
| Framing.OnlyMarkersChange | domain/integrations/untrusted.py:35-43 | the body is the content with its markers replaced and everything else in place |
| Framing.FirstMarkerIsTheLastLine | domain/integrations/untrusted.py:24-43 | after the header the only closing marker is the last line |
| Framing.FrameReadsBack | domain/integrations/untrusted.py:35-43 | a frame is read back to its header and body exactly when the origin is one line |
| Framing.HeaderNamesTheOrigin | domain/integrations/untrusted.py:24-43 | the origin is read back from the header |
| Framing.PlainContentReadsBack | domain/integrations/untrusted.py:35-43 | the content itself is read back exactly when it holds no marker |
| Schedules.MakeRecurrence | domain/scheduling/models.py:76-83 | accepted exactly when one kind is given and an interval is not too short, and then it is the interval or the time given |
| Schedules.CreatedSchedules | domain/scheduling/models.py:127-148 | refused exactly for an empty request or not exactly one trigger; an interval is due at once, a time of day at its next mark, an event schedule never by the clock |
| Schedules.NextIsTheLeastMark | domain/scheduling/models.py:85-91 | a daily schedule is next due at the least mark strictly after the firing, within a day |
| Schedules.FiringsAreDue | domain/scheduling/models.py:154-173 | over any increasing ticks, taken or not: firings are at ticks, never early, due again in between, and counted |
| Schedules.IntervalsApart | domain/scheduling/models.py:85-91 | interval firings are at least the interval apart, so many of them so many intervals |
| Schedules.NothingIsMadeUp | domain/scheduling/models.py:160-173 | at most floor((until - first due) / interval) + 1 firings, however long nobody looked |
| Schedules.OneFiringPerGap | domain/scheduling/models.py:160-173 | a gap yields one firing, and no tick before the next due time another |
| Schedules.DailyFiringsAreSeparated | domain/scheduling/models.py:85-91 | a mark lies between two daily firings, and the due time is always a mark, so it does not drift |
| SchedulerRuns.OverlappingTicksAreSafe | application/scheduling/scheduler.py:85-170 | for every interleaving of ticks: one objective in flight per schedule, the in-flight set is exact, and no event starts two firings |
| SchedulerRuns.NextKeepsSound | application/scheduling/scheduler.py:95-170 | every atomic step of every tick, one for each await, keeps that |
| SchedulerRuns.EveryFiringIsLeft | application/scheduling/scheduler.py:141-170 | whatever becomes of the work, every step of a firing is one step nearer to its end, and the last takes exactly its schedule out of the in-flight set |
| SchedulerRuns.ClaimIsLostIffInFlight | application/scheduling/scheduler.py:101-139 | in every state a run can reach, a claimed event is lost at the step that fires on it if and only if its schedule is in flight; otherwise exactly its firing begins |
| SchedulerRuns.ClaimsCanBeLost | application/scheduling/scheduler.py:98-139 | an event lost that way never leads to a firing, in any continuation |
| SchedulerRuns.AMailIsLost | application/scheduling/scheduler.py:98-139 | a run from rest of two ticks that loses an event |
| SchedulerWarrants.EveryFiringIsWarranted | application/scheduling/scheduler.py:90-139 | over every run from rest every firing is of an enabled schedule, and one on an event of a schedule that waits for events of that kind |
| SchedulerEarly.EarlyIffNoLongerDue | application/scheduling/scheduler.py:90-139 | over every run from rest: a firing by the clock comes before the next time after the last saved firing - for an interval, less than the interval later - if and only if the stored row is not due at that step; a schedule never fired is never early; one without a recurrence is listed no more once fired |
| SchedulerEarly.RunsStaySettled | application/scheduling/scheduler.py:85-170 | over every run: rows keep their settings, each says it last ran at its last saved firing and is next due at the first time after it, and every copy a tick works from is of a row |
| SchedulerEarly.OldListsFireTwice | application/scheduling/scheduler.py:90-93 | a run from rest after which a second tick fires a schedule again that is not due |
| Scheduler.Scheduler.Fire | application/scheduling/scheduler.py:123-170 | the in-flight set is as before on every path; one firing is begun unless the schedule is in flight; the row is overwritten exactly when the objective was received and saved |
| Scheduler.Scheduler.Try | application/scheduling/scheduler.py:142-156 | the request is received, the row saved and the objective handled, as far as that goes |
| Scheduler.Scheduler.FireDue | application/scheduling/scheduler.py:90-93 | the first loop comes to the due list worked off in order |
| Scheduler.Scheduler.FireEvents | application/scheduling/scheduler.py:98-105 | the loop over events comes to each free event claimed and fired on in order, others skipped |
| Scheduler.Scheduler.Tick | application/scheduling/scheduler.py:85-107 | a tick by itself is a run of the step system that leaves nothing of its own in flight, and comes to the due list worked off and then the events of every listed schedule |
| Scheduler.Scheduler.RunForever | application/scheduling/scheduler.py:109-119 | the loop is one tick after another |
| SchedulerTicks.TickOfTimed | application/scheduling/scheduler.py:85-107 | a tick fires a schedule that waits for no event exactly once if it is due, not in flight and its objective is handled, and otherwise changes nothing of it, whatever else it fires |
| SchedulerTicks.TicksFireAsFirings | application/scheduling/scheduler.py:109-119 | over any ticks one after another, the saved firings of such a schedule are those `Schedules.Firings` gives it, and its row is what they leave of it |
| SchedulerTicks.TicksKeepTheirDistance | application/scheduling/scheduler.py:109-119 | so its firings are the interval apart, as many intervals as firings |
| SchedulerTicks.DueListIsFired | application/scheduling/scheduler.py:90-93 | every due schedule that is not in flight fires once, in order, and no other |
| SchedulerTicks.EventsAreFiredOn | application/scheduling/scheduler.py:98-105 | every pending event is claimed and no other changes; each has one firing, in order, unless the schedule is in flight, and then none has |
| SchedulerTicks.OldestEventsFirst | infrastructure/persistence/schedule_repository.py:184-198 | an event is left for a later tick only when twenty older ones of its kind are taken |
| SchedulerTicks.EveryFiringHasItsLine | application/scheduling/scheduler.py:157-190 | a tick writes one event about a finished objective for every firing, whatever became of it, unless it cannot be written |
| SchedulerTicks.RunsMoveOnByOne | application/scheduling/scheduler.py:98-105 | the row is fired once from its listed copy if any firing was saved, so the count of runs is right if and only if at most one was |
| SchedulerTicks.DueListIsDueIff | infrastructure/persistence/schedule_repository.py:143-157 | the due list is what is_due says of every row if and only if no row without a recurrence has reached a due time |
| SchedulerTicks.AnEventScheduleFiresByTheClock | domain/scheduling/models.py:127-158 | an event schedule created with a due time is never due, yet a tick fires it without an event; once that is saved it is in no due list again |

## Left out

- HTTP routes, command line, event stream, SQL, YAML, the window and the wiring: plumbing around what is modelled.
- What models are told and how their answers are parsed: prompts, recalled memory, reasons, notices and other wording; an answer, a verdict or an exception is a parameter. The planner's `needs` and routing are not read.
- Logging, progress, telemetry, audit rows and memory recording: guarded side channels that steer nothing here.
- Storage that fails in the middle of a run. A save always succeeds, except in `Scheduler`, where the row of a firing may not be saved.
- Runtime.EmployeeRuntime.ExecuteWork: calls back after the tool loop instead of during it, because methods are not values here; the rows and their order are the same, since nothing in the loop reads a row.
- asyncio: what happens between two awaits is one step. In `Supervisor` an attempt is one step, and what an attempt comes to depends on the task, the attempt, its context and who is avoided, not on the moment.
- The delegator's `DelegationError`, which escapes a whole supervision: every attempt here finds somebody.
- Supervisor.Supervisor.Run: the shortfall sentences are not built; which tasks failed is in the waves.
- Coordinator.WorkforceCoordinator.Share: the order in which a set of ids is listed is a parameter that may be any listing of the set.
- Workspaces and priorities, parent ids and timestamps of rows, except where something depends on them.
- Regular expressions and Unicode: the two splits of the chunker are cuts at whitespace, with one whitespace predicate.
- Knowledge.Index: adding files and texts, checksums, deletion and search are not modelled.
- `TaskPlan` and its dictionary form, `Region` and the screen constraints, `redact`, and the integration, provider and workspace services: each of these checks, copies or forwards one value at a time, and nothing modelled here depends on it.
- The order of the due list: the SQL store sorts by due time, the list here is in order of creation.
- Memory decay and similarity: real powers and roots.
- Leap seconds and time zones other than UTC; the store keeps a time of day to the minute, which is not modelled.
