# The agent-run engine, modelled and proved in Dafny

lcnc_a2a runs no-code agents behind the A2A protocol. One request starts (or resumes) a *run*: an executor drives
an untrusted language model and fallible tools, stores a run row, step rows and conversation messages, and yields
server-sent events. This project models that engine and proves what it promises for every model reply, tool answer,
embedding, cancel and disconnect.

## How the model is built

* `Trace.dfy` has the stored data (run row, step rows, messages), the events, and the `Action`s by which a run changes
  the world. A `View` is the database as the request's session sees it, the database as committed, and the log of all
  actions. `Session.dfy` is the mutable counterpart: each method performs one action and says so in its contract.
* What is outside the program is a `World`: total functions giving each provider reply, each tool attempt, each
  embedding and each read of the cancel flag. Theorems quantify over all worlds.
* Each executor has a specification (`PlanExecuteSpec`, `ReactSpec`, `SimpleSpec`: pure functions from a stored state and
  a world to the view at the exit) and a class with mutable fields and loops (`PlanExecuteExecutor`, `ReActExecutor`,
  `SimpleExecutor`) whose methods are proved to do what the specification says. The theorems are lemmas about the
  specification, and the `Run` methods carry their conclusions over to the class.
* A disconnect or an exception may strike after any number of actions: an interrupted execution is a prefix of its
  log, followed by the `finally` block, which opens a fresh session and so sees committed data only
  (`Protocol.AfterFinally`).
* The steps of a parallel stage are coroutines with explicit suspension points (`StepRunner.Coroutine`); the event loop is
  an arbitrary list of picks.
* `ReactSpec` states the ReAct loop once with the cached embedding and once without, by a flag.
* A Simple run that pauses is several executions, each with a world of its own, over one stored run
  (`SimpleHistory.History`), each of which may be cut, and between which other runs may write to the conversation. What
  waits for an answer is read off the messages the run itself has added (`SimpleFacts.Owes`), so nothing but the positions is
  assumed of the conversation it finds; from a paired one the same follows for the whole conversation.

* `StepReadings`, `PlanExecuteReadings`, `PlanExecuteRounds`, `ReactReadings`, `SimpleReadings` and `SimpleAnswers` say in words
  of their own, literal texts included and without the functions the specifications compute with, what replies, tools,
  embeddings and answers mean, and prove of every run that its rows, its messages and its ending are what was said.

Files: `Basics`, `Sequences`, `Trace`, `Protocol`, `Invariants`, `Cuts`, `Bills`, `Tools`, `Session` are shared; `PlanValidator`,
`Substitution`, `Stages`, `StepRunner`, `StepReadings`, `Confluence`, `Synthesis` and `PlanExecute*` are Plan & Execute;
`Similarity`, `React*` and `ReActExecutor` are ReAct; `Messages` and `Simple*` are Simple mode and conversation memory;
`Runs` is the life of a run row and `Lives` ties the executors to it. `dafny verify dfyconfig.toml` checks the whole project.

## Where the code falls short of its documentation

* `.agent_docs/a2a_executor.md` says that a cancel finalizes the run as `cancelled` and emits that state. In Simple mode the
  `break` between two tool calls leaves only the loop over the calls: the half-answered batch is committed, and if the
  token budget is spent the run is closed as `failed` before the flag is read again. `SimpleCancel.CancelEndsFailed` gives
  such an input, `SimpleCancel.CancelledExactly` says when this happens, and `SimpleCancel.StoredPairing` when the stored
  conversation is left waiting for a call nothing will answer.
* `services/messages.py` cuts the history to its newest messages by count alone, which can separate an assistant message
  from its tool results. `Messages.TruncationSplitsBlock` gives such a conversation and `Messages.TruncationPairing` the
  exact condition: the first message kept is a tool result.
* A new run may begin in a conversation that waits for tool results: after a cancel broke off a batch, or, through
  `_prepare_run` in `routes/a2a.py`, while another run of the conversation is paused. Its calls and results are paired among
  themselves (`SimpleTheorems.PairedAtEveryAsk`), but its model may be sent an unanswered call: at every provider call of a
  first execution the conversation is paired if and only if it was at the start (`SimpleHistory.PairedIffPairedStart`).
* The `finally` of Simple mode is there so that no run stays `running` forever; it covers the code from its `try` on only.
  `SimpleGate.SettledIffInTheTry` says what every cut leaves: before the `try` a first execution stays `running` until the
  reaper finds it, and a resume stays paused with tool calls already made, or, cut right after the commit of
  `resume_run`, is `running` without its snapshot. When the resume was not committed the next approval
  makes the calls again (`SimpleApprovals.MadeTwice`); `SimpleApprovals.WaitsAgainIff` says that this is the only way.
* A replan may reuse a completed id for another step; the Plan & Execute loop skips it by its id.
  `PlanExecuteReuse.ReplanCanSkip` gives such a run and `PlanExecuteReuse.StepsRanAsPlanned` the exact condition.
* The operations of `services/runs.py` check no status. A paused run that is reaped while another process resumes it
  runs on with `completed_at` set (`Runs.ReapThenResume`); `Runs.CompletedAtIffNeverReopened` says exactly when this
  cannot happen, and `Runs.EveryLifeIsOk` that it does not with one owner per run.

## Model

| member | source | states |
|---|---|---|
| PlanExecuteTheorems.DataflowEndToEnd | src/lcnc_a2a/executors/plan_execute.py:217-399 | for every step started in any run, across replans and in a stage that crashes too: when it begins, each id in its `depends_on` has a recorded output, which a success row holds and which is the one still recorded at the end; if its arguments mention only dependencies, the resolved ones have every placeholder token replaced by that output; an argument that is the placeholder `${step_<d>.output}` of a dependency `d`, with or without leading zeros, becomes the output recorded for `d`; and every `step_result` row is the result of such a start, with those arguments |
| PlanExecuteReadings.RunTold | src/lcnc_a2a/executors/plan_execute.py:655-941 | every step row of a run records a start and what was said to it: status success exactly when the reply decodes to an object whose `status` is the string "success", replan_requested exactly for that string, failure for anything else (other words, non-objects, undecodable text, provider errors); the `output` string said, the reply's tokens, and the tool result its attempts must yield; every start is recorded; no step starts where the cancel flag reads set, and a run is cancelled only at a head or before a stage where it does |
| PlanExecuteReadings.FailureDecided | src/lcnc_a2a/executors/plan_execute.py:290-317 | a run crashes exactly when a started step's `status` is a list or an object; else it ends for a failed step exactly when a started step was told a failure, as `Fails` spells it |
| PlanExecuteReadings.EndingStored | src/lcnc_a2a/executors/plan_execute.py:400-439 | stored `failed` with `step_failed` if and only if some started step was told a failure and none a status that cannot be looked up; `replan_exceeded` and `cancelled` each exactly for its ending, a planner's reason as it is |
| PlanExecuteRounds.RoundsTold | src/lcnc_a2a/executors/plan_execute.py:180-399 | every plan row is the acceptable document of the planner's reply for its pass, of the second one only when the first cannot be used, with the tokens of the replies up to then; the run is stamped with the first; each pass but the last had a step told `replan_requested`, the last had none when the run goes on to its answer, and a fourth request ends it; the planner gives up only when a call raised or both replies cannot be used |
| PlanExecuteRounds.AnswerGiven | src/lcnc_a2a/executors/plan_execute.py:400-569 | a run whose passes end answers with the synthesis reply, as answer, last row and last message after the user's, or fails for what the reason names: over budget, an error, a blank reply by its finish reason; no other run is completed or says anything |
| PlanExecuteCosts.RunCosted | src/lcnc_a2a/executors/plan_execute.py:180-569 | the stored cost is the sum of what the replies behind the rows reported, and of what was charged without a row, and absent exactly when none reported one |
| PlanExecuteCommits.WaitingIsSafe | src/lcnc_a2a/executors/plan_execute.py:180-569 | cut while it waits for the provider, a run leaves everything it has written stored |
| StepReadings.StepTold | src/lcnc_a2a/executors/plan_execute.py:655-941 | a step run alone escapes exactly when its `status` is a list or an object, and otherwise returns the status, output and replan reason said, the tokens and cost of the reply, and the result its tool must yield |
| PlanExecuteTheorems.CompletedWorkIsStable | src/lcnc_a2a/executors/plan_execute.py:217-399 | the completed ids are the keys of `step_outputs`, each output is the content of the one success row of its id, no id has two; `step_failed` exactly when some row failed; finishing without a stop reason means the id of every step of the last plan is completed; `replan_exceeded` only after four plans |
| PlanExecuteReuse.StepsRanAsPlanned | src/lcnc_a2a/executors/plan_execute.py:217-225 | the loop skips steps by id: when a run ends with all steps done, every step of its last plan has a success row of a start of that very step if and only if the plan, when it was adopted, repeated unchanged the steps already completed |
| PlanExecuteReuse.ReplanCanSkip | src/lcnc_a2a/executors/plan_execute.py:222-225 | a run that ends with all steps done although the only step of its last plan never ran: the replan gives the completed id 1 another tool |
| PlanExecuteTheorems.ChatCallsBounded | src/lcnc_a2a/executors/plan_execute.py:217-399 | at most 9 + 4 * `max_steps` provider calls: four planner rounds of two, four passes, one synthesis, whatever the planner and the tools answer |
| PlanExecuteBudget.BoundIsTight | src/lcnc_a2a/executors/plan_execute.py:217-399 | the bound is reached: for every `max_steps` an explicit world makes exactly 9 + 4 * `max_steps` calls |
| PlanExecuteBudget.BusyRun | src/lcnc_a2a/executors/plan_execute.py:217-399 | so does every world in which each round needs its retry, each of the first three passes ends in a replan request, and the budget lets the synthesis go ahead |
| PlanExecuteTheorems.TraceLanguage | src/lcnc_a2a/executors/plan_execute.py:195-287 | rows are numbered 1..n and form (plan step_result*)+ synthesis?, with stages non-decreasing and ids ascending inside a stage of each plan segment; a completed run ends in its synthesis row |
| PlanExecuteTheorems.TraceAtACut | src/lcnc_a2a/executors/plan_execute.py:195-583 | cut after any number of effects, the rows stored once the `finally` block is done are numbered 1..n and in the trace language as well, and are a prefix of the rows the whole run writes; the messages likewise |
| PlanExecuteTheorems.RaisedTotals | src/lcnc_a2a/executors/plan_execute.py:563-583 | a run left to the `finally` block by an exception of its own stores exactly the sums over the rows written, which cover the rows committed when no row counts negative |
| PlanExecuteTheorems.StreamAgreesWithDatabase | src/lcnc_a2a/executors/plan_execute.py:97-583 | `working` first; exactly one final event, last, after the committed terminal row and with its status and reason; an artifact exactly when the run completed, directly before `completed`, equal to `final_answer` |
| PlanExecuteTheorems.OneTerminalWrite | src/lcnc_a2a/executors/plan_execute.py:400-583 | cut after any number of its effects, by a disconnect or an exception: inline write and `finally` block together make exactly one terminal write and the row ends closed |
| PlanExecuteTheorems.TokensConserved | src/lcnc_a2a/executors/plan_execute.py:498-569 | a completed run's totals are exactly the sums over its rows, across planner retries and replans; the answer is the last row, the last message and never blank |
| PlanExecuteTheorems.TotalsExplained | src/lcnc_a2a/executors/plan_execute.py:425-534 | in every inline ending the stored totals are the row sums plus exactly what was spent without a row (a planner that gave up, a synthesis reply that was no answer), hence never below the row sums when no count is negative |
| PlanExecuteTheorems.RunPhases | src/lcnc_a2a/executors/plan_execute.py:83-439 | the invariant of the planning and executing phases holds of every run, with the number of provider calls it allows |
| PlanExecutePasses.PassesKeep | src/lcnc_a2a/executors/plan_execute.py:217-399 | all passes keep the books, the trace language and the dependency order; recorded outputs only grow and none is overwritten; the calls left shrink by a pass and a planner round per replan |
| PlanExecutePasses.StagesKeep | src/lcnc_a2a/executors/plan_execute.py:230-317 | running the pending stages in ascending order keeps the invariant, and each stage starts with its dependencies completed |
| PlanExecutePasses.PassBegins | src/lcnc_a2a/executors/plan_execute.py:222-226 | the first pending stage of a valid plan depends on completed steps only, and no pending id is completed |
| PlanExecutePasses.NextStageReady | src/lcnc_a2a/executors/plan_execute.py:230-230 | once every step of a stage is completed, the next pending stage depends on completed steps only |
| PlanExecutePasses.PassTotal | src/lcnc_a2a/executors/plan_execute.py:222-230 | the stages of one pass hold at most as many steps as the plan |
| PlanExecutePasses.AdoptKeeps | src/lcnc_a2a/executors/plan_execute.py:189-208 | storing a new plan keeps completed work, numbering and totals and opens a new trace segment |
| PlanExecuteStages.StageKeeps | src/lcnc_a2a/executors/plan_execute.py:235-317 | one stage keeps the invariant, whatever its outcomes, and leaves it ready for the next one when it says go on |
| PlanExecuteStages.StageCompletes | src/lcnc_a2a/executors/plan_execute.py:290-314 | a stage that goes on has completed exactly its own ids, besides those completed before |
| PlanExecuteFacts.PersistAllRows | src/lcnc_a2a/executors/plan_execute.py:259-288 | persisting the outcomes of a stage appends one marked row each, in order; each keyed update reaches only its own row |
| PlanExecuteFacts.RecordSuccessesMerges | src/lcnc_a2a/executors/plan_execute.py:307-312 | recording successes adds their outputs to the map and their ids to the completed set, and nothing else |
| Confluence.EachEndsAsIfAlone | src/lcnc_a2a/executors/plan_execute.py:243-257 | under any interleaving of a stage's coroutines, each that ended returned what the step returns when run alone from the outputs the stage began with |
| Confluence.SchedulesAgree | src/lcnc_a2a/executors/plan_execute.py:243-257 | any two interleavings that finish a stage leave the same results |
| Confluence.StageIgnoresPlanOrder | src/lcnc_a2a/executors/plan_execute.py:259-314 | however the plan lists a stage's steps: same rows and numbers, token and cost totals, outputs, completed ids and decision |
| Confluence.DecisionRule | src/lcnc_a2a/executors/plan_execute.py:290-317 | failure beats a replan request, a request beats the token budget, going on means every step succeeded, and the lowest id that asks supplies the reason |
| StepRunner.AdvanceStaysOnTrack | src/lcnc_a2a/executors/plan_execute.py:655-733 | a step coroutine's suspensions lead, in at most five resumptions, to the result of running the step alone |
| StepRunner.RunInterleaved | src/lcnc_a2a/executors/plan_execute.py:243-257 | a stage run under an arbitrary schedule returns the step results in plan order after exactly one provider call per step |
| PlanExecuteExecutorModule.SortOutcomes | src/lcnc_a2a/executors/plan_execute.py:259-260 | the outcomes sorted by id: the same outcomes, ascending |
| PlanExecuteExecutorModule.SortedIsById | src/lcnc_a2a/executors/plan_execute.py:259-260 | sorting the gathered outcomes gives the outcomes of the steps in id order |
| PlanExecuteExecutorModule.FirstWith | src/lcnc_a2a/executors/plan_execute.py:291-296 | the first outcome of a given status, none exactly when there is none; for a replan request, the one whose reason the specification uses |
| PlanExecuteExecutorModule.PlanExecuteExecutor.PersistStage | src/lcnc_a2a/executors/plan_execute.py:261-288 | the loop that persists a stage leaves the specified rows, marks and totals, and commits |
| PlanExecuteExecutorModule.PlanExecuteExecutor.JudgeStage | src/lcnc_a2a/executors/plan_execute.py:290-317 | the decision after a stage and the successes it records, as specified |
| PlanExecuteExecutorModule.PlanExecuteExecutor.RunStage | src/lcnc_a2a/executors/plan_execute.py:235-314 | one stage, gathered under any schedule, sorted, persisted and judged, as specified for one-by-one execution |
| PlanExecuteExecutorModule.PlanExecuteExecutor.RunStageLoop | src/lcnc_a2a/executors/plan_execute.py:230-317 | the stages of a pass until one of them stops it |
| PlanExecuteExecutorModule.PlanExecuteExecutor.PlannerRound | src/lcnc_a2a/executors/plan_execute.py:585-653 | at most two planner calls; an accepted plan, or why there is none, with the tokens of both calls |
| PlanExecuteExecutorModule.PlanExecuteExecutor.AdoptPlan | src/lcnc_a2a/executors/plan_execute.py:189-208 | the totals, the plan row, the plan stamped on the run for the first one, and the commit |
| PlanExecuteExecutorModule.PlanExecuteExecutor.PendingSteps | src/lcnc_a2a/executors/plan_execute.py:222-222 | the steps of the plan whose ids are not completed, in plan order |
| PlanExecuteExecutorModule.PlanExecuteExecutor.Turn | src/lcnc_a2a/executors/plan_execute.py:217-395 | one turn of the loop: a pass and, if asked for and allowed, the next plan |
| PlanExecuteExecutorModule.PlanExecuteExecutor.Execute | src/lcnc_a2a/executors/plan_execute.py:217-399 | the loop terminates with the specified books and finish |
| PlanExecuteExecutorModule.PlanExecuteExecutor.ForceSynthesis | src/lcnc_a2a/executors/plan_execute.py:441-569 | the synthesis phase: skipped over budget, failed on an error or an empty reply, else answered |
| PlanExecuteExecutorModule.PlanExecuteExecutor.Run | src/lcnc_a2a/executors/plan_execute.py:83-583 | for every world and every schedule the run ends closed after one terminal write, and the yielded events agree with the row when no exception escaped |
| PlanValidator.ParseAndValidatePlan | src/lcnc_a2a/services/plan_validator.py:60-153 | accepts exactly the payloads that meet the declarative rules, returning the plan they spell; a rejection names the first rule the payload breaks |
| PlanValidator.ParseSteps | src/lcnc_a2a/services/plan_validator.py:77-139 | every raw step is fine and ids are distinct, with the steps they spell, or the error of the first step that is not |
| PlanValidator.CheckStep | src/lcnc_a2a/services/plan_validator.py:82-132 | finds no error exactly when a raw step meets the field rules and its id is new, else the first rule it breaks |
| PlanValidator.CheckDependencies | src/lcnc_a2a/services/plan_validator.py:141-151 | finds no error exactly when every dependency is an existing step of a strictly lower stage, else the first that is not: unknown, or not lower |
| PlanValidator.AcceptedPlansAreValid | src/lcnc_a2a/services/plan_validator.py:60-153 | an accepted plan has distinct positive ids, positive stages, known tools and dependencies at strictly lower stages |
| PlanValidator.AcceptedPlansAreAcyclic | src/lcnc_a2a/services/plan_validator.py:141-151 | no dependency path of an accepted plan returns to its start |
| PlanValidator.PathLowersStage | src/lcnc_a2a/services/plan_validator.py:141-151 | along a dependency path stages strictly decrease |
| PlanValidator.PayloadRoundTrip | src/lcnc_a2a/services/plan_validator.py:35-57 | validating `to_payload` of a valid plan returns the same plan |
| Stages.GroupByStage | src/lcnc_a2a/executors/plan_execute.py:806-811 | the groups by ascending stage, filled in plan order |
| Stages.GroupsPartition | src/lcnc_a2a/executors/plan_execute.py:806-811 | the groups are a stable partition of the steps into strictly ascending stages |
| Stages.SortKeys | src/lcnc_a2a/executors/plan_execute.py:811-811 | the keys of a dictionary in strictly ascending order |
| Stages.ByIdAscending | src/lcnc_a2a/executors/plan_execute.py:260-260 | id order of steps with distinct ids is strictly ascending |
| Substitution.PrintScan | src/lcnc_a2a/services/plan_substitution.py:8-8 | splitting any string into literals and leftmost tokens and printing it back is the identity |
| Substitution.ScanUnique | src/lcnc_a2a/services/plan_substitution.py:8-8 | there is only one such split: any leftmost segmentation is the one the scanner finds |
| Substitution.ScanTokensValid | src/lcnc_a2a/services/plan_substitution.py:8-8 | the tokens found are exactly of the placeholder form |
| Substitution.ScanLeftmost | src/lcnc_a2a/services/plan_substitution.py:8-8 | no token starts inside a literal of the split |
| Substitution.TokenResolved | src/lcnc_a2a/services/plan_substitution.py:36-48 | `${step_<n>.output}`, its number written out with any leading zeros, alone or anywhere in a string, becomes `outputs[n]` when there is one and stays as it is when not; what stands around it is replaced as if it stood alone |
| Substitution.NamedOnce | src/lcnc_a2a/services/plan_substitution.py:8-41 | every placeholder token is the written-out token of exactly one step, whatever its leading zeros |
| Substitution.ArgumentResolved | src/lcnc_a2a/services/plan_substitution.py:11-33 | an argument that is the written-out placeholder of a step with an output becomes that output |
| Substitution.SubAllIsRender | src/lcnc_a2a/services/plan_substitution.py:43-48 | the substitution callback prints the split once, with known ids replaced; outputs are not scanned again |
| Substitution.ReplaceIsOneRendering | src/lcnc_a2a/services/plan_substitution.py:36-48 | the full-match fast path agrees with the general path: both are that one printing, in which `Substitution.TokenResolved` says what each token becomes |
| Substitution.WalkKeepsShape | src/lcnc_a2a/services/plan_substitution.py:26-33 | the JSON shape, the keys and every non-string leaf are kept |
| Substitution.KnownStepsResolve | src/lcnc_a2a/services/plan_substitution.py:11-48 | when all mentioned steps have outputs, every token is replaced by the output of the one step it is the written-out token of, and nothing else changes |
| ReactTheorems.CacheRefinesNaiveLoop | src/lcnc_a2a/executors/react.py:334-379 | with a deterministic embedding, the loop with the cached vector and the loop that embeds both texts anew give the same rows (similarities included), messages, events, status, stop reason, answer, loops and completion tokens, also across parse errors |
| ReactTheorems.EachCandidateEmbeddedOnce | src/lcnc_a2a/executors/react.py:341-371 | the texts embedded over a run are a prefix of its candidates, in order: none is embedded twice |
| ReactTheorems.CompareAlike | src/lcnc_a2a/executors/react.py:334-379 | with a sound cache, a comparison measures what the naive one measures and leaves the candidate's vector in the cache |
| ReactTheorems.RepeatStops | src/lcnc_a2a/executors/react.py:410-434 | a turn at a head with a sound cache whose candidate's non-zero embedding repeats the previous one ends the run by similarity for any threshold up to 1, answering with the previous candidate |
| ReactTheorems.RepeatEndsTheRun | src/lcnc_a2a/executors/react.py:173-472 | so does every run from its start that comes, head by head, to a head at which the model repeats the previous candidate: the run is stored completed by `similarity` with that candidate as its answer |
| ReactTheorems.EveryRunEndsWell | src/lcnc_a2a/executors/react.py:101-642 | stream and database agree; rows numbered 1..n in (error | thought action observation*)* plus one ending, with one observation per call of every action but the last of a run that a cancel, a similarity or an exception ends, so in a failed run of all actions; `loops` is at most `max_loops` and the number of chats, but for one more: with budget left the chat that raised, else the synthesis, asked only while 2 * (tokens_out + chars / 4) <= 3 * `max_tokens`; a completed run's stop reason says which budget was spent or how it ended, with the last message as its non-blank answer (unless `similarity`) |
| ReactTheorems.OneTerminalWrite | src/lcnc_a2a/executors/react.py:473-642 | cut anywhere, the run settles exactly once and ends closed |
| ReactTheorems.TokensConserved | src/lcnc_a2a/executors/react.py:234-603 | in every inline ending the stored totals are the row sums plus the embeddings plus exactly the reply whose row was never written, if there is one: the last chat, when its answer was blank or its candidate could not be embedded, or the empty synthesis; exact for a completed run; never below the row sums when no count is negative |
| ReactTheorems.TraceAtACut | src/lcnc_a2a/executors/react.py:131-642 | cut after any number of effects, the rows stored once the `finally` block is done are numbered 1..n and in the trace language as well, and are a prefix of the rows the whole run writes, similarities included; the messages likewise |
| ReactTheorems.RaisedTotals | src/lcnc_a2a/executors/react.py:605-642 | a run left to the `finally` block by an exception of its own stores the sums over the rows written plus the embeddings, which cover the rows committed when no count is negative |
| ReactFacts.TurnKeeps | src/lcnc_a2a/executors/react.py:173-472 | one iteration from a head with budget left (rows in the language with every call observed, one chat per loop so far) leaves another such head, or the spent budget it names, or an exit with the trace, the chats and the totals `EveryRunEndsWell` says |
| ReactReadings.RunTold | src/lcnc_a2a/executors/react.py:173-642 | every row of a run says what was said to it: the k-th reply stands as a thought, a final thought or a parse error by its tool calls and its trimmed text, an action holds the reply's calls, each observation what its call must yield by its attempts, none where the flag reads set; each candidate's stored similarity is the dot product over the norms of its embedding and that of the candidate before; a run completed by `similarity` has its last candidate at or above the threshold and answers with the one before, and every other candidate of any run is below it or unmeasured, but the last when the full conversation raises; the answer, the failure or the cancel has the cause its reason names |
| ReactReadings.ReplyRead | src/lcnc_a2a/executors/react.py:62-80 | a reply with tool calls is a tool turn with the text after `Thought:`, or all of it; one without is a final answer exactly when it opens with `Final Answer:` once trimmed, with the trimmed rest, and else an error |
| ReactCosts.RunCosted | src/lcnc_a2a/executors/react.py:228-534 | the stored cost is the sum of what the replies and the embeddings reported, the synthesis of a synthesized answer included, and absent exactly when none reported one |
| ReactBills.WaitingIsSafe | src/lcnc_a2a/executors/react.py:131-603 | cut while it waits for the provider, a run leaves everything it has written stored |
| ReactFacts.CallsObserved | src/lcnc_a2a/executors/react.py:436-460 | the rows a batch adds are one observation per call made, in call order, each with its call's name and the result `Tools.InvokeYields` describes; the calls made are those before the first one a cancel stops, all of them exactly when the loop runs to its end |
| ReactFacts.CallsAt | src/lcnc_a2a/executors/react.py:436-463 | after the calls the trace is back between turns, or, cut by a cancel, still waiting for observations; the books stay balanced |
| ReactFacts.PatchAt | src/lcnc_a2a/executors/react.py:381-399 | the similarity update reaches only the thought row just written and changes no total |
| ReactSpec.AgainMeansBudget | src/lcnc_a2a/executors/react.py:470-472 | an iteration is followed by another only with fewer than `max_loops` loops and fewer than `max_tokens` completion tokens |
| ReActExecutorModule.ReActExecutor.CompareCandidate | src/lcnc_a2a/executors/react.py:334-363 | the cached comparison: the previous vector is fetched only when missing, and both calls are charged |
| ReActExecutorModule.ReActExecutor.RunToolCalls | src/lcnc_a2a/executors/react.py:436-460 | the loop over the calls of a turn, as specified |
| ReActExecutorModule.ReActExecutor.RunTurn | src/lcnc_a2a/executors/react.py:173-472 | one iteration of the loop, as specified |
| ReActExecutorModule.ReActExecutor.Loops | src/lcnc_a2a/executors/react.py:173-496 | the loop is left by a return, an exception or a `break`; after a `break` that is not an exit a stop reason is pending, so the run never falls off the end unfinalized |
| ReActExecutorModule.ReActExecutor.ForceSynthesis | src/lcnc_a2a/executors/react.py:498-625 | the forced synthesis, as specified |
| ReActExecutorModule.ReActExecutor.Run | src/lcnc_a2a/executors/react.py:101-642 | for every world: closed after one terminal write, stream in agreement, and the decisions of the loop that caches nothing |
| Similarity.CosineSimilarity | src/lcnc_a2a/services/similarity.py:8-25 | the accumulation loop computes dot(a, b) over the product of the norms, and 0 for empty, zero or mismatched vectors |
| Similarity.CauchySchwarz | src/lcnc_a2a/services/similarity.py:14-22 | dot * dot <= norm_a_sq * norm_b_sq for vectors of any equal length |
| Similarity.CosineBounded | src/lcnc_a2a/services/similarity.py:8-25 | similarity lies between -1 and 1 |
| Similarity.CosineSelf | src/lcnc_a2a/services/similarity.py:8-25 | a non-zero vector has similarity 1 with itself |
| Synthesis.SkipMeansOverBudget | src/lcnc_a2a/executors/synthesis.py:20-36 | synthesis is skipped exactly when 2 * (tokens_out + chars / 4) > 3 * `max_tokens` |
| Synthesis.FormatStepOutputs | src/lcnc_a2a/executors/plan_execute.py:943-945 | the outputs listed in ascending id order |
| SimpleReadings.ExecutionTold | src/lcnc_a2a/executors/simple.py:61-432 | every row an execution adds says what was said to it: first the calls it was given, made when the text approves and else `user_denied`, then reply by reply its text, calls and tokens and, only when no call of it must be confirmed, what each call must yield; every row has its message, with the same content, calls and call id, but the one that no longer fit; the cost is the sum over the replies charged; and the answer, the failure, the pause, whose request names the first call to confirm, or the open end has the cause it names |
| SimpleReadings.FullConversation | src/lcnc_a2a/executors/simple.py:75-101 | a conversation of 1000 messages takes no new run: it is closed as `context_full` with nothing asked or added |
| SimpleAnswers.ApprovalSpelled | src/lcnc_a2a/executors/simple.py:34-41 | a text approves exactly when it is white space, one of the eight words in any case, and white space |
| SimpleAnswers.ConfirmationSpelled | src/lcnc_a2a/executors/base.py:63-75 | a tool must be confirmed exactly when its descriptor is an object whose `annotations` are an object whose `destructiveHint` is a value that counts as set |
| SimpleBills.WaitingIsSafe | src/lcnc_a2a/executors/simple.py:161-413 | cut while it waits for the provider, an execution leaves everything it has written stored |
| SimplePause.ResumeIsTransparent | src/lcnc_a2a/executors/simple.py:122-159 | pausing on a batch and resuming it with an approval in a fresh executor leaves the same stored run row, step rows and messages, and the same `run_seq`, `loops` and tokens, as executing the batch directly; one runs to its end exactly when the other does |
| SimplePause.DenialKeepsTheShape | src/lcnc_a2a/executors/simple.py:138-157 | a resume whose text is not an approval word in any case between white space leaves rows and messages of the same shape and the same counters, every result `user_denied`, and invokes nothing |
| SimplePause.EveryPauseIsAPausePoint | src/lcnc_a2a/executors/simple.py:338-370 | every pause of a loop that is under way is one the two statements above speak about |
| SimplePause.ExecutionPauses | src/lcnc_a2a/executors/simple.py:75-376 | so is every pause of an execution, from a first start and from a pause |
| SimpleGate.ConfirmationGate | src/lcnc_a2a/executors/simple.py:338-376 | whatever the model asks for, a tool whose descriptor carries the destructive hint is invoked only before the `try` of a resume whose text is an approval word, in any case and between white space, and only as one of the calls the user was asked about |
| SimpleGate.PausedBatchIsUntouched | src/lcnc_a2a/executors/simple.py:338-370 | an execution that pauses ends with the reply, its row, its message, the snapshot of exactly its calls and the request for the first destructive one: no call of the batch was made |
| SimpleGate.OneTerminalWrite | src/lcnc_a2a/executors/simple.py:161-430 | from the `try` on, cut anywhere, whatever the conversation held before: exactly one of inline finalize, pause or orphan finalize, and completed_at set exactly on a terminal row |
| SimpleGate.SettledIffInTheTry | src/lcnc_a2a/executors/simple.py:75-430 | wherever an execution is cut, in any conversation: its run is settled, once, if and only if the cut is in the `try`; a run cut before is stored as it was, `running` or paused, or `running` again without its snapshot when the resume was just committed |
| SimpleGate.CutBeforeTheTry | src/lcnc_a2a/executors/simple.py:75-161 | cut before the last effect ahead of the `try`, the stored run row is the one the execution started from, and nothing settled it |
| SimpleGate.CutResumeStaysPaused | src/lcnc_a2a/executors/simple.py:130-159 | a resume cut anywhere before `resume_run` is committed leaves the paused run, its rows and messages stored as they were |
| SimpleGate.CutWithoutTheTry | src/lcnc_a2a/executors/simple.py:75-157 | an execution that never reaches its `try`: a full conversation closes the run with its first write, and saved results that no longer fit leave the paused run stored as it was |
| SimpleTheorems.ExecutionEndsWell | src/lcnc_a2a/executors/simple.py:61-432 | in any conversation, from a first start or a pause: at every provider call the run has answered, in order, every call it has on record, also after a resume; an execution that settles leaves exact books, a stream that agrees with the row and, unless the token budget closed it, no call of its own unanswered; or a pause whose snapshot a resume can pick up, waiting for exactly the unanswered calls |
| SimpleHistory.HistoryEndsWell | src/lcnc_a2a/executors/simple.py:61-432 | after any chain of executions of a run (approvals, denials, cancels), each cut after any number of its effects or not at all, in any conversation and whatever other runs write to it in between: every row and message stored on the way is still there, unchanged; the run is paused with a snapshot that holds its books, or over, with rows numbered 1..n across pauses, messages at positions 0..n-1 with n <= 1000, and totals of a completed run equal to the sum over all its rows; it is left `running` if and only if its last execution was cut ahead of the `try` where nothing closes it (a first execution, or a resume right after the commit of `resume_run`) |
| SimpleHistory.HistoryInOrder | src/lcnc_a2a/executors/simple.py:61-432 | a run alone in a conversation that was paired when it began: after any such chain no result stands without its call, a paused run's conversation waits for exactly its calls, and a completed run's conversation for nothing |
| SimpleHistory.ExecutionLeaves | src/lcnc_a2a/executors/simple.py:61-432 | the same of one execution, cut or not; and, whatever the conversation held before, of the calls the run has on record a pause waits for exactly those not answered and a completed run has answered all |
| SimpleHistory.CutSound | src/lcnc_a2a/executors/simple.py:61-432 | cut after any number of effects, an execution in any conversation leaves rows numbered 1..n, messages in place and, among the messages its run added, no result without its call, and changes nothing stored before it |
| SimpleHistory.UnsettledTotals | src/lcnc_a2a/executors/simple.py:415-430 | an execution left to the `finally` block by a cancel or an exception stores exactly the sums over the rows written, which cover the rows committed when no row counts negative |
| SimpleApprovals.SavedCallsOnce | src/lcnc_a2a/executors/simple.py:119-159 | before its `try` a resume makes a prefix of the saved calls, in order and each at most once, and none unless its text is an approval word in any case between white space; with such a text all of them when it gets through, as it does when no cancel intervenes and the results fit |
| SimpleApprovals.WaitsAgainIff | src/lcnc_a2a/executors/simple.py:119-161 | after one more execution a paused run waits for the same answer if and only if that execution never committed its resume, and then everything is stored as it was |
| SimpleApprovals.NeverWaitsAgain | src/lcnc_a2a/executors/simple.py:119-432 | once a resume is committed, no chain of executions makes the run wait for that batch again, whatever other runs write in between |
| SimpleApprovals.MadeTwice | src/lcnc_a2a/executors/simple.py:119-159 | an approved resume cut between its first call and its commit, or whose results do not fit, has made that call, and the next approval makes it again, whatever other runs have written since |
| SimpleTheorems.PairedAtEveryAsk | src/lcnc_a2a/executors/simple.py:184-202 | at each provider call of an execution every assistant message with tool calls that its run has added is followed by one tool message per call, in order with its id, whatever the conversation held before; from a paired start, or a pause the conversation still waits for, the same of the whole conversation |
| SimpleHistory.PairedIffPairedStart | src/lcnc_a2a/executors/simple.py:75-202 | at the provider calls of a first execution the whole conversation is paired if and only if it was when the run began |
| SimpleTheorems.ResumeEndsWell | src/lcnc_a2a/executors/simple.py:122-161 | restoring the snapshot and running or denying the saved calls leads back into the loop with the books in order and every saved call answered, whatever was written since the pause |
| SimpleCancel.CancelledExactly | src/lcnc_a2a/executors/simple.py:161-432 | an execution ends cancelled exactly when its loop reads the flag set, unless the first such read is inside a batch with the token budget spent: then, and only then, the run is closed as `failed` with `max_tokens` although the user cancelled |
| SimpleCancel.StoredPairing | src/lcnc_a2a/executors/simple.py:131-413 | what any execution leaves stored, `finally` block included: every call its run has on record answered if and only if the run is not paused and no cancel broke off a batch; from a paired start, exactly then a conversation that waits for nothing; a batch that overflows is rolled back and leaves no half |
| SimpleCancel.CancelEndsFailed | src/lcnc_a2a/executors/simple.py:372-413 | an input: two calls, the flag set before the second, `tokens_out` at the budget; stored `failed`, no `canceled` event, and the conversation waits for a call nothing will answer |
| SimpleCancel.LoopCancelled | src/lcnc_a2a/executors/simple.py:161-413 | the same decision for the loop from any of its states |
| SimpleCancel.LoopStores | src/lcnc_a2a/executors/simple.py:161-413 | the loop from a head with everything answered commits every call of its run answered exactly when no batch is broken off and it does not pause |
| SimpleFacts.TurnKeeps | src/lcnc_a2a/executors/simple.py:162-413 | one iteration keeps numbering, totals and positions and answers every call, or goes on with a half-answered batch only when the flag is set and read next, or ends the execution well |
| SimpleFacts.BatchOpen | src/lcnc_a2a/executors/simple.py:372-395 | a batch answers its calls one by one; one that ran owes none, one that a cancel stopped owes some |
| SimpleCounts.LoopsAreAssistantRows | src/lcnc_a2a/executors/simple.py:161-413 | each execution asks the provider at most fifty times; whenever it settles inline, the stored `loops` (on the row, or in the snapshot a resume goes on from) are the assistant rows written before and after the pauses |
| SimpleSpec.AgainAdvances | src/lcnc_a2a/executors/simple.py:161-181 | an iteration is followed by another at most 50 times and only within the token budget |
| SimpleExecutorModule.SimpleExecutor.FindDestructive | src/lcnc_a2a/executors/simple.py:434-447 | the first call that names a known tool with the hint |
| SimpleExecutorModule.SimpleExecutor.RunCalls | src/lcnc_a2a/executors/simple.py:372-395 | the loop over the calls of a reply: invoke, count, record, answer; stopped by a cancel, left by a full context |
| SimpleExecutorModule.SimpleExecutor.RunSavedCalls | src/lcnc_a2a/executors/simple.py:131-157 | the loop over the saved calls: count, invoke or deny, record, answer |
| SimpleExecutorModule.SimpleExecutor.PauseFor | src/lcnc_a2a/executors/simple.py:338-370 | the snapshot, the pause and the request for input |
| SimpleExecutorModule.SimpleExecutor.Restore | src/lcnc_a2a/executors/simple.py:122-129 | the variables restored from the snapshot, zeros when it is missing |
| SimpleExecutorModule.SimpleExecutor.Iteration | src/lcnc_a2a/executors/simple.py:162-413 | one iteration of the loop, as specified |
| SimpleExecutorModule.SimpleExecutor.Loop | src/lcnc_a2a/executors/simple.py:161-413 | the loop ends with the specified outcome |
| SimpleExecutorModule.SimpleExecutor.Run | src/lcnc_a2a/executors/simple.py:61-432 | for every world and every answer of the user: what is stored is the specified outcome, a paused run a resume can pick up or a run that is over; the stream agrees with it, and a cancelled execution says so last |
| SimpleExecutorModule.Promises | src/lcnc_a2a/executors/simple.py:414-432 | every execution, its `finally` block included, delivers: paused with a usable snapshot or over, its calls answered or waited for, the stream in agreement when it settled inline, `canceled` last when cancelled |
| SimpleSpec.FirstDestructiveFound | src/lcnc_a2a/executors/simple.py:434-447 | none exactly when no call needs confirmation, else the first that does |
| Messages.WellPairedMeansPaired | src/lcnc_a2a/services/messages.py:71-100 | reading left to right accepts exactly the conversations in which every assistant message with calls is followed by its results in order and no result stands elsewhere |
| Messages.BuildLlmPayload | src/lcnc_a2a/services/messages.py:103-120 | the system prompt, then the newest messages up to the soft cap, serialized |
| Messages.PayloadBounded | src/lcnc_a2a/services/messages.py:110-116 | never more than 50 messages, all of them when they fit, exactly 50 when they do not |
| Messages.SerializeFaithful | src/lcnc_a2a/services/messages.py:123-136 | serializing keeps role, content, calls and call ids |
| Messages.TruncationPairing | src/lcnc_a2a/services/messages.py:113-116 | the kept messages of a well-paired conversation are well paired if and only if the first of them is not a tool result |
| Messages.TruncationSplitsBlock | src/lcnc_a2a/services/messages.py:113-116 | a conversation of 52 messages, the user's first, whose payload opens with a result that answers nothing |
| SessionModule.Session.AppendMessage | src/lcnc_a2a/services/messages.py:71-100 | one message at the next position, or the context-full error at 1000 messages with nothing changed |
| Runs.EveryLifeIsOk | src/lcnc_a2a/services/runs.py:96-186 | with one owner at a time, in every reachable state: completed_at set exactly on terminal rows; a snapshot and the stop reason `input_required` while paused, neither while running, and on a closed row only when the reaper closed it; at most one closing write |
| Lives.PlanExecuteLives | src/lcnc_a2a/executors/plan_execute.py:97-583 | every run of Plan & Execute, cut anywhere and with its `finally` block, changes its row by possible steps of such a life, after which nobody owns it |
| Lives.ReactLives | src/lcnc_a2a/executors/react.py:101-642 | every run of ReAct likewise |
| Lives.ExecutionLives | src/lcnc_a2a/executors/simple.py:61-432 | every execution of Simple mode, cut anywhere or not at all, continues the life of its run by possible steps |
| Lives.HistoryLives | src/lcnc_a2a/executors/simple.py:61-432 | every chain of executions likewise |
| Lives.HistoryRowOk | src/lcnc_a2a/executors/simple.py:61-432 | so the row any chain of executions leaves is one of a reachable state, with all that holds of those |
| Runs.TerminalIsFinal | src/lcnc_a2a/services/runs.py:96-257 | terminal states are never left: no step follows one |
| Runs.CompletedAtIffNeverReopened | src/lcnc_a2a/services/runs.py:134-186 | the operations check no status: over any sequence of writes completed_at stays right if and only if no pause and no resume hits a finished run |
| Runs.ReapThenResume | src/lcnc_a2a/services/runs.py:263-293 | a paused run reaped while another process resumes it runs on with completed_at set |
| Runs.ReapClosesExactlyTheStale | src/lcnc_a2a/services/runs.py:263-293 | the reaper closes exactly the stale running and paused runs as failed and abandoned, with their totals and snapshot, keeps all other rows, and a second pass does nothing |
| Runs.ReportedState | src/lcnc_a2a/routes/a2a.py:526-533 | the task state reported after any life is a final one exactly when the row is closed |
| Runs.RunTable.CreateRun | src/lcnc_a2a/services/runs.py:40-62 | a fresh running row under a new id, no other row changed |
| Runs.RunTable.FinalizeRun | src/lcnc_a2a/services/runs.py:96-125 | the terminal columns of one row, nothing when the row is gone |
| Runs.RunTable.PauseRunForInput | src/lcnc_a2a/services/runs.py:134-153 | status, reason and snapshot of one row |
| Runs.RunTable.ResumeRun | src/lcnc_a2a/services/runs.py:173-186 | one row back to running without snapshot |
| Runs.RunTable.ReapAbandonedRuns | src/lcnc_a2a/services/runs.py:263-293 | the rows hit and their number |
| SessionModule.Session.AppendRunStep | src/lcnc_a2a/services/runs.py:65-93 | one more row, nothing else |
| SessionModule.Session.UpdateRunStep | src/lcnc_a2a/executors/plan_execute.py:280-287 | the keyed update, over every row with that number |
| SessionModule.Session.OrphanFinalize | src/lcnc_a2a/services/runs.py:189-257 | the row closed on committed data with the triaged status and reason; uncommitted work is lost |
| Trace.PatchHitsOnlyTheNewRow | src/lcnc_a2a/executors/plan_execute.py:266-287 | with rows numbered 1..n an insert at n+1 and the update keyed by it change the new row only |
| Protocol.ExactlyOneTerminalWrite | src/lcnc_a2a/services/runs.py:189-257 | a log that settles once, cut anywhere: inline write plus orphan write is one; an orphan write leaves the run cancelled by request when the flag is set, cancelled by the lost client when that ended it, failed with an internal error otherwise, without an answer and with the totals in hand |
| Protocol.ClosedStreamAgrees | src/lcnc_a2a/a2a/sse.py:136-166 | an inline exit of an announced run: one final event, last, agreeing with the committed row |
| Cuts.StoredAtACut | src/lcnc_a2a/executors/plan_execute.py:266-298 | with every UPDATE right after its insert and rows numbered 1..n: what is committed at any cut is a prefix, rows and messages, of what is there later |
| Cuts.WaitingLosesNothing | src/lcnc_a2a/services/runs.py:189-257 | a log whose provider calls find everything committed loses nothing when it is cut at one |
| Cuts.OrphanCovers | src/lcnc_a2a/services/runs.py:189-257 | the orphan write stores the totals in hand; if they cover the rows written at the cut they cover the rows committed |
| SimpleBills.ExecutionBilled | src/lcnc_a2a/executors/simple.py:161-413 | each provider call of an execution finds everything committed; each row that counts tokens counts those of the reply before it, and no reply is counted twice |
| SimpleBills.TurnBills | src/lcnc_a2a/executors/simple.py:161-413 | at every head of the loop everything is committed, and the totals are what the run had spent before, pauses included, and every reply since |
| SimpleBills.CutTotals | src/lcnc_a2a/executors/simple.py:161-430 | cut anywhere before it settled: with totals in hand that count every reply received, no count being negative, the orphan write covers the rows committed |
| ReactBills.RunBilled | src/lcnc_a2a/executors/react.py:173-603 | each provider call of a run finds everything committed; each row that counts tokens counts those of the reply before it, synthesis included, and no reply is counted twice |
| ReactBills.TurnBills | src/lcnc_a2a/executors/react.py:173-472 | at every head of the loop everything is committed, and the totals are every reply so far and the embeddings |
| ReactBills.CutTotals | src/lcnc_a2a/executors/react.py:173-642 | cut anywhere before it settled: with totals in hand that count every reply received, no count being negative, the orphan write covers the rows committed |
| Invariants.CutAnywhere | src/lcnc_a2a/services/runs.py:189-257 | any execution of an open run, cut anywhere, ends closed after one terminal write, the orphan write among the three endings as triaged |
| Invariants.ExitSettles | src/lcnc_a2a/executors/plan_execute.py:570-583 | a returning execution settled its run once; a raising one left that to the `finally` block |
| Tools.InvokeMcpTool | src/lcnc_a2a/executors/base.py:76-126 | of a live tool the content of its first answer without an error among at most three attempts, none made after it, else an error with the message of the third; of an unknown tool or transport an error that names it |
| Tools.InvokeYields | src/lcnc_a2a/executors/base.py:76-126 | what a call yields meets that description, with the fallbacks for empty messages |
| Tools.ReasoningSays | src/lcnc_a2a/executors/base.py:176-187 | a reply's reasoning goes out as one `working` update without the white space at its ends, and not at all when it is white space |
| Tools.EmptyReasonSays | src/lcnc_a2a/executors/base.py:149-173 | a reply is no answer exactly when all of it is white space, and the reason follows its finish reason |
| Tools.FirstSuccessFound | src/lcnc_a2a/executors/base.py:99-124 | the least successful attempt, or none |
| Basics.StripTrims | src/lcnc_a2a/executors/simple.py:34-41 | stripping takes away white space at both ends, all of it, and nothing else |
| Basics.TrimIsStrip | src/lcnc_a2a/executors/simple.py:34-41 | and a text without white space at its ends, wrapped in white space, is what stripping that leaves |
| Trace.CostsMerged | src/lcnc_a2a/executors/plan_execute.py:261-265 | charging keeps the total the sum of the costs reported, and absent while none was |
| Basics.BlankMeansAllSpace | src/lcnc_a2a/executors/base.py:149-173 | the emptiness test of replies holds exactly of strings of white space |

## Left out

- SimplePause.ResumeIsTransparent: does not speak about the cost, which the snapshot does not carry, nor about the next
  step of the loop: the program checks the token budget only after a batch of the same execution.
- SimpleGate.OneTerminalWrite: from the `try` on only; before it the program has no `finally` block, and
  `SimpleGate.SettledIffInTheTry` says what a cut leaves there.
- Cuts.OrphanCovers: what the totals in hand count at a cut between two effects is a hypothesis: for Simple and ReAct, of
  `CutTotals`, that they count every reply received, which is proved at every head of the loops; for Plan & Execute, that
  they count the rows written, each of which it charges right before it writes the row.
- Runs.EveryLifeIsOk: one owner per run; the reaper acts on runs nobody is executing. Reaping a run that another process
  executes is covered by the sequences of writes only (`Runs.CompletedAtIffNeverReopened`, `Runs.ReapThenResume`).
- HTTP, FastAPI, SQLAlchemy, Alembic, MCP transports, provider clients, tracing and key encryption: replies, tool
  attempts and embeddings are arbitrary functions of the world; the tool list is a lookup by name.
- JSON text: parsing and printing are functions of the world (`loads`, `dumps`, `show`, `repr`); the model starts from a
  decoded document. The placeholder pattern's digits are ASCII digits, and `int()` has no digit limit.
- Malformed tool-call dictionaries: a call has an id, a name and arguments, absent ones being empty strings; parsed
  arguments are the tool's business.
- `create_run` and `_prepare_run` beyond the row they leave: request parsing, provider keys, and the cancellation
  registry, whose flag is an oracle (in Simple mode one that is never cleared once set).
- A resume that names another context than the run it resumes: the conversation is assumed to be the run's own.
- Finding a run by its task id, which the program does not keep unique: a request is handed the run it creates or resumes.
- Two requests resuming one run, or writing to one conversation, at the same time: a single owner is assumed.
- Wall-clock facts: backoff, durations, heartbeats and the reaper's age cutoff, which is an arbitrary set of runs.
- Floating-point rounding: similarity is over the reals with an exact square root; `int(max_tokens * 1.5)` is integer
  arithmetic.
- A failure between `finalize_run` or `pause_run_for_input` and the commit that follows: the two are one action.
- After an exception in one coroutine of a stage the others go on unobserved in the program; here they have made their
  one chat each and leave nothing behind.
- The notes of `working` updates (phase, stage, step ids): the model emits them where the program does, and the theorems about
  the stream speak of their number and place only.
- The prompts sent to the model in ReAct and Plan & Execute (`_build_*`): replies do not depend on them in the model.
- UI routes, templates, forms, API keys and themes.
