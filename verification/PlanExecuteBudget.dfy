/** The bound on provider calls is tight: for every `max_steps` some run makes all 9 + 4 * `max_steps` of them. */
module PlanExecuteBudget {
  import opened Basics
  import opened Sequences
  import opened Trace
  import opened Protocol
  import opened Invariants
  import opened Tools
  import opened PlanValidator
  import opened Stages
  import opened Substitution
  import opened Synthesis
  import opened StepRunner
  import opened PlanExecuteSpec
  import opened Confluence
  import Facts = PlanExecuteFacts
  import Stage = PlanExecuteStages
  import PlanExecutePasses
  import Theorems = PlanExecuteTheorems

  // ----- plans that use the whole budget ---------------------------------------------------

  /** The last id of the plans before this pass. */
  function Base(pass: nat, n: nat): nat {
    if pass == 0 then 0 else Base(pass - 1, n) + n
  }

  function StepAt(pass: nat, n: nat, i: nat): PlanStep {
    PlanStep(Base(pass, n) + i + 1, 1, "", SYNTHESIZE, map[], "", [])
  }

  function StepsAt(pass: nat, n: nat): seq<PlanStep> {
    seq(n, i requires 0 <= i < n => StepAt(pass, n, i))
  }

  /** The plan of a pass: `n` new steps, one stage, no dependencies. */
  function PlanFor(pass: nat, n: nat): Plan {
    Plan("", StepsAt(pass, n))
  }

  /** The last step of every pass but the fourth asks for another plan. */
  function StatusAt(pass: nat, n: nat, i: nat): StepStatus {
    if pass < MAX_REPLANS && i + 1 == n then ReplanRequested else Success
  }

  function OutcomeAt(pass: nat, n: nat, i: nat): StepOutcome {
    StepOutcome(StepAt(pass, n, i), StatusAt(pass, n, i), "", "", NO_USAGE, None, map[], None)
  }

  function OutcomesAt(pass: nat, n: nat): seq<StepOutcome> {
    seq(n, i requires 0 <= i < n => OutcomeAt(pass, n, i))
  }

  /** The outputs recorded before this pass. */
  function OutputsAt(pass: nat, n: nat): map<int, string> {
    if pass == 0 then map[] else Facts.Merge(OutputsAt(pass - 1, n), OutcomesAt(pass - 1, n))
  }

  lemma {:induction false} OldIds(pass: nat, n: nat)
    ensures forall id :: id in OutputsAt(pass, n) ==> id <= Base(pass, n)
  {
    if pass > 0 {
      OldIds(pass - 1, n);
      Facts.MergeHolds(OutputsAt(pass - 1, n), OutcomesAt(pass - 1, n));
    }
  }

  /** The replies such a run needs; nothing costs a completion token. */
  ghost predicate Busy(w: World, cfg: Config, n: nat) {
    && (forall pass: nat, stage: int :: !w.cancelled(pass, stage))
    && (forall pass: nat :: pass <= MAX_REPLANS ==> RoundBusy(w, cfg, pass, PlanFor(pass, n)))
    && (forall pass: nat :: pass <= MAX_REPLANS ==> StageBusy(w, n, pass))
    && w.synthesis.Reply?
  }

  /** The replies of the steps of a pass. */
  ghost predicate StageBusy(w: World, n: nat, pass: nat) {
    forall i: nat :: i < n ==> StepBusy(w, n, pass, i)
  }

  predicate Free(o: ChatOutcome) {
    o.Reply? && o.reply.usage == NO_USAGE && o.reply.cost == None
  }

  /** The first planner call of a round yields nothing usable, the second this plan. */
  predicate RoundBusy(w: World, cfg: Config, pass: nat, plan: Plan) {
    CallYields(w, cfg, pass, 0, None) && CallYields(w, cfg, pass, 1, Some(plan))
  }

  /** A call without completion tokens that is no plan, or is this one. */
  predicate CallYields(w: World, cfg: Config, pass: nat, attempt: nat, plan: Option<Plan>) {
    && w.planner(pass, attempt).Reply? && w.planner(pass, attempt).reply.usage.tokensOut == 0
    && Validated(w.loads(w.planner(pass, attempt).reply.content), cfg.maxSteps, cfg.tools) == plan
  }

  predicate StepBusy(w: World, n: nat, pass: nat, i: nat) {
    && Free(w.step(pass, Base(pass, n) + i + 1))
    && ParseStepResponse(w, w.step(pass, Base(pass, n) + i + 1).reply.content) == Parsed(StatusAt(pass, n, i), "", "")
  }

  /** A token budget the synthesis prompt of the run does not exceed. */
  ghost predicate Fits(cfg: Config, n: nat) {
    cfg.maxTokens >= |FormatOutputs(OutputsAt(MAX_REPLANS + 1, n))|
  }

  // ----- one stage -------------------------------------------------------------------------

  lemma {:induction false} NothingDone(steps: seq<PlanStep>, completed: set<int>)
    requires forall i :: 0 <= i < |steps| ==> steps[i].id !in completed
    ensures NotDone(steps, completed) == steps
  {
    if steps != [] {
      NothingDone(steps[..|steps| - 1], completed);
      InitLast(steps);
    }
  }

  lemma {:induction false} OneStageNumber(steps: seq<PlanStep>)
    requires steps != [] && forall i :: 0 <= i < |steps| ==> steps[i].stage == 1
    ensures StageNumbers(steps) == [1]
  {
    if |steps| > 1 {
      OneStageNumber(steps[1..]);
    } else {
      assert steps[1..] == [];
    }
  }

  lemma {:induction false} AllOfStage(steps: seq<PlanStep>)
    requires forall i :: 0 <= i < |steps| ==> steps[i].stage == 1
    ensures OfStage(steps, 1) == steps
  {
    if steps != [] {
      AllOfStage(steps[..|steps| - 1]);
      InitLast(steps);
    }
  }

  lemma SortedSteps(pass: nat, n: nat)
    ensures ById(StepsAt(pass, n)) == StepsAt(pass, n)
  {
    var steps := StepsAt(pass, n);
    ByIdElements(steps);
    ByIdAscending(steps);
    AscendingIdsUnique(ById(steps), steps);
  }

  /** The plan of a pass is one group. */
  lemma OneGroup(pass: nat, n: nat)
    requires n >= 1
    ensures Groups(StepsAt(pass, n)) == [Group(1, StepsAt(pass, n))]
  {
    OneStageNumber(StepsAt(pass, n));
    AllOfStage(StepsAt(pass, n));
  }

  lemma StepReturns(w: World, n: nat, pass: nat, i: nat, outputs: map<int, string>)
    requires StepBusy(w, n, pass, i)
    ensures StepRun(w, pass, StepAt(pass, n, i), outputs) == Returned(OutcomeAt(pass, n, i))
  {
    assert SubstituteArgs(map[], outputs) == map[];
  }

  lemma StageReturns(w: World, n: nat, pass: nat, outputs: map<int, string>)
    requires StageBusy(w, n, pass)
    ensures !SomeEscape(w, pass, StepsAt(pass, n), outputs)
    ensures OutcomesOf(w, pass, StepsAt(pass, n), outputs) == OutcomesAt(pass, n)
  {
    var steps := StepsAt(pass, n);
    forall i | 0 <= i < n ensures StepRun(w, pass, steps[i], outputs) == Returned(OutcomeAt(pass, n, i)) {
      StepReturns(w, n, pass, i, outputs);
    }
  }

  lemma {:induction false} AskTimesAsks(v: View, n: nat)
    ensures Asks(AskTimes(v, n).log) == Asks(v.log) + n
  {
    if n > 0 {
      AskTimesAsks(v, n - 1);
      AsksSnoc(AskTimes(v, n - 1).log, Ask);
    }
  }

  lemma {:induction false} PersistFree(b: Books, outs: seq<StepOutcome>)
    requires forall i :: 0 <= i < |outs| ==> outs[i].usage.tokensOut == 0
    ensures PersistAll(b, outs).tally.usage.tokensOut == b.tally.usage.tokensOut
    ensures PersistAll(b, outs).outputs == b.outputs && PersistAll(b, outs).completed == b.completed
    ensures PersistAll(b, outs).replans == b.replans
    decreases |outs|
  {
    if outs != [] {
      PersistFree(PersistOne(b, outs[0]), outs[1..]);
    }
  }

  /** `n` calls were made, nothing was spent, and nothing is recorded yet. */
  predicate OnlyAsked(b: Books, b': Books, n: nat) {
    && Asks(b'.view.log) == Asks(b.view.log) + n
    && b'.tally.usage.tokensOut == b.tally.usage.tokensOut && b'.outputs == b.outputs && b'.completed == b.completed
    && b'.replans == b.replans
  }

  /** Books with a stage launched and stored. */
  lemma StoredStage(b: Books, g: Group, outs: seq<StepOutcome>)
    requires forall i :: 0 <= i < |outs| ==> outs[i].usage.tokensOut == 0
    ensures OnlyAsked(b, Persisted(Launch(b, g), outs), |g.steps|)
  {
    var e := Emit(Working(Executing(g.stage, PlanExecuteSpec.IdsOf(g.steps))));
    AsksSnoc(b.view.log, e);
    AskTimesAsks(Do(b.view, e), |g.steps|);
    Stage.PersistAllAsks(Launch(b, g), outs);
    PersistFree(Launch(b, g), outs);
    AsksSnoc(PersistAll(Launch(b, g), outs).view.log, Commit);
  }

  lemma {:induction false} RecordKeepsReplans(b: Books, outs: seq<StepOutcome>)
    ensures RecordSuccesses(b, outs).replans == b.replans
    decreases |outs|
  {
    if outs != [] {
      var o := outs[0];
      var b1 := b.(completed := b.completed + {o.step.id}, outputs := b.outputs[o.step.id := o.output]);
      RecordKeepsReplans(if o.status.Success? then b1 else b, outs[1..]);
    }
  }

  /** Books that have spent nothing, with these outputs recorded. */
  predicate Idle(b: Books, replans: nat, outputs: map<int, string>) {
    b.replans == replans && b.tally.usage.tokensOut == 0 && b.outputs == outputs && outputs.Keys == b.completed
  }

  /** The loop's books at the head of a pass. */
  predicate AtPass(b: Books, pass: nat, n: nat) {
    Idle(b, pass, OutputsAt(pass, n)) && b.plan == PlanFor(pass, n)
  }

  /** What a stage that used its budget leaves. */
  predicate StageDone(b: Books, b': Books, pass: nat, n: nat) {
    Idle(b', pass, OutputsAt(pass + 1, n)) && Asks(b'.view.log) == Asks(b.view.log) + n
  }

  lemma VerdictAt(pass: nat, n: nat)
    requires n >= 1 && pass <= MAX_REPLANS
    ensures !SomeStatus(OutcomesAt(pass, n), Failure)
    ensures SomeStatus(OutcomesAt(pass, n), ReplanRequested) <==> pass < MAX_REPLANS
  {
    if pass < MAX_REPLANS {
      assert OutcomesAt(pass, n)[n - 1].status == ReplanRequested;
    }
  }

  lemma JudgeIs(cfg: Config, b: Books, outs: seq<StepOutcome>)
    requires !SomeStatus(outs, Failure) && b.tally.usage.tokensOut < cfg.maxTokens
    ensures Judge(cfg, b, outs) ==
            (RecordSuccesses(b, outs), if SomeStatus(outs, ReplanRequested) then AskReplan(ReplanReason(outs)) else GoOn)
  {
  }

  /** A stage that used its budget and says what its pass needs. */
  predicate StageResult(b: Books, r: (Books, Verdict), pass: nat, n: nat) {
    StageDone(b, r.0, pass, n) && (if pass < MAX_REPLANS then r.1.AskReplan? else r.1.GoOn?)
  }

  lemma BusyJudge(cfg: Config, n: nat, pass: nat, b: Books, b1: Books)
    requires n >= 1 && cfg.maxTokens >= 1 && pass <= MAX_REPLANS && AtPass(b, pass, n)
    requires OnlyAsked(b, b1, n)
    ensures StageResult(b, Judge(cfg, b1, OutcomesAt(pass, n)), pass, n)
  {
    var outs := OutcomesAt(pass, n);
    VerdictAt(pass, n);
    JudgeIs(cfg, b1, outs);
    Facts.RecordSuccessesMerges(b1, outs);
    RecordKeepsReplans(b1, outs);
  }

  lemma StageIs(w: World, cfg: Config, n: nat, pass: nat, b: Books)
    requires StageBusy(w, n, pass)
    ensures var g := Group(1, StepsAt(pass, n));
            StageStep(w, cfg, pass, b, g) == Judge(cfg, Persisted(Launch(b, g), OutcomesAt(pass, n)), OutcomesAt(pass, n))
  {
    SortedSteps(pass, n);
    StageReturns(w, n, pass, b.outputs);
  }

  lemma FreeOutcomes(pass: nat, n: nat)
    ensures forall i :: 0 <= i < |OutcomesAt(pass, n)| ==> OutcomesAt(pass, n)[i].usage.tokensOut == 0
  {
  }

  lemma BusyStored(n: nat, pass: nat, b: Books)
    ensures OnlyAsked(b, Persisted(Launch(b, Group(1, StepsAt(pass, n))), OutcomesAt(pass, n)), n)
  {
    FreeOutcomes(pass, n);
    StoredStage(b, Group(1, StepsAt(pass, n)), OutcomesAt(pass, n));
  }

  lemma BusyStage(w: World, cfg: Config, n: nat, pass: nat, b: Books)
    requires StageBusy(w, n, pass) && n >= 1 && cfg.maxTokens >= 1 && pass <= MAX_REPLANS && AtPass(b, pass, n)
    ensures StageResult(b, StageStep(w, cfg, pass, b, Group(1, StepsAt(pass, n))), pass, n)
  {
    var b1 := Persisted(Launch(b, Group(1, StepsAt(pass, n))), OutcomesAt(pass, n));
    StageIs(w, cfg, n, pass, b);
    BusyStored(n, pass, b);
    BusyJudge(cfg, n, pass, b, b1);
  }

  // ----- the planner -----------------------------------------------------------------------

  /** A call that is no plan leads to the next. */
  lemma UselessCall(w: World, cfg: Config, pass: nat, attempt: nat, agg: Tally, v: View)
    requires attempt <= MAX_PLANNER_RETRIES && CallYields(w, cfg, pass, attempt, None)
    ensures var r := w.planner(pass, attempt).reply;
            CallPlanner(w, cfg, pass, attempt, agg, v)
            == CallPlanner(w, cfg, pass, attempt + 1, Charge(agg, r.usage, r.cost), Do(v, Ask))
  {
  }

  /** What a planner round comes to: the calls made, this plan, nothing spent. */
  predicate RoundEnds(r: (View, PlannerEnd), v: View, plan: Plan) {
    r.0 == v && r.1.Planned? && r.1.plan == plan && r.1.spent.usage.tokensOut == 0
  }

  lemma PlanCall(w: World, cfg: Config, pass: nat, attempt: nat, agg: Tally, v: View, plan: Plan)
    requires attempt <= MAX_PLANNER_RETRIES && CallYields(w, cfg, pass, attempt, Some(plan)) && agg.usage.tokensOut == 0
    ensures RoundEnds(CallPlanner(w, cfg, pass, attempt, agg, v), Do(v, Ask), plan)
  {
  }

  lemma BusyRound(w: World, cfg: Config, pass: nat, first: nat, agg: Tally, v: View, plan: Plan)
    requires first + 1 <= MAX_PLANNER_RETRIES && agg.usage.tokensOut == 0
    requires CallYields(w, cfg, pass, first, None) && CallYields(w, cfg, pass, first + 1, Some(plan))
    ensures RoundEnds(CallPlanner(w, cfg, pass, first, agg, v), Do(Do(v, Ask), Ask), plan)
  {
    var r := w.planner(pass, first).reply;
    UselessCall(w, cfg, pass, first, agg, v);
    PlanCall(w, cfg, pass, first + 1, Charge(agg, r.usage, r.cost), Do(v, Ask), plan);
  }

  /** A whole round, from its first call. */
  lemma FullRound(w: World, cfg: Config, pass: nat, v: View, plan: Plan)
    requires RoundBusy(w, cfg, pass, plan)
    ensures RoundEnds(CallPlanner(w, cfg, pass, 0, ZERO_TALLY, v), Do(Do(v, Ask), Ask), plan)
  {
    BusyRound(w, cfg, pass, 0, ZERO_TALLY, v, plan);
  }

  lemma StoredPlanAsks(v: View, row: StepRow, payload: Json, first: bool)
    ensures Asks(StoredPlan(v, row, payload, first).log) == Asks(v.log)
  {
    var u := Do(v, AddRow(row));
    AsksSnoc(v.log, AddRow(row));
    AsksSnoc(u.log, Commit);
    AsksSnoc(u.log, SetPlan(payload));
    AsksSnoc(Do(u, SetPlan(payload)).log, Commit);
  }

  lemma AdoptIdle(b: Books, replans: nat, outputs: map<int, string>, plan: Plan, payload: Json, spent: Tally, first: bool)
    requires Idle(b, replans, outputs) && spent.usage.tokensOut == 0
    ensures Idle(Adopt(b, plan, payload, spent, first), replans, outputs) && Adopt(b, plan, payload, spent, first).plan == plan
    ensures Asks(Adopt(b, plan, payload, spent, first).view.log) == Asks(b.view.log)
  {
    StoredPlanAsks(b.view, PlanRow(b.runSeq + 1, plan, payload, spent.usage), payload, first);
  }

  lemma TwoAsks(v: View)
    ensures Asks(Do(Do(v, Ask), Ask).log) == Asks(v.log) + 2
  {
    AsksSnoc(v.log, Ask);
    AsksSnoc(Do(v, Ask).log, Ask);
  }

  /** What taking on a plan after a round comes to. */
  predicate Adopted(b: Books, b': Books, replans: nat, outputs: map<int, string>, plan: Plan) {
    Idle(b', replans, outputs) && b'.plan == plan && Asks(b'.view.log) == Asks(b.view.log) + 2
  }

  lemma AdoptRound(b: Books, r: (View, PlannerEnd), replans: nat, outputs: map<int, string>, plan: Plan, first: bool)
    requires Idle(b, replans, outputs) && RoundEnds(r, Do(Do(b.view, Ask), Ask), plan)
    ensures Adopted(b, Adopt(b.(view := r.0), r.1.plan, r.1.payload, r.1.spent, first), replans, outputs, plan)
  {
    TwoAsks(b.view);
    AdoptIdle(b.(view := r.0), replans, outputs, plan, r.1.payload, r.1.spent, first);
  }

  // ----- one turn of the loop --------------------------------------------------------------

  lemma RunOneStage(w: World, cfg: Config, pass: nat, b: Books, g: Group)
    requires !w.cancelled(pass, g.stage)
    ensures RunStages(w, cfg, pass, b, [g]) == StageStep(w, cfg, pass, b, g)
  {
    assert [g][1..] == [];
  }

  /** A turn over a plan of one stage, unfolded. */
  lemma TurnIs(w: World, cfg: Config, b: Books, g: Group, r: (Books, Verdict))
    requires !w.cancelled(b.replans, 0) && !w.cancelled(b.replans, g.stage)
    requires NotDone(b.plan.steps, b.completed) == g.steps && g.steps != [] && Groups(g.steps) == [g]
    requires r == StageStep(w, cfg, b.replans, b, g)
    ensures PassTurn(w, cfg, b) ==
              if r.1.AskReplan? && b.replans < MAX_REPLANS then NextPlan(w, cfg, Replanning(r.0, b.replans))
              else Stops(r.0, FinishOf(r.1))
  {
    RunOneStage(w, cfg, b.replans, b, g);
    PassTurnIs(w, cfg, b, r.0, r.1);
  }

  lemma PendingAll(b: Books, pass: nat, n: nat)
    requires AtPass(b, pass, n)
    ensures NotDone(b.plan.steps, b.completed) == StepsAt(pass, n)
  {
    OldIds(pass, n);
    assert forall id :: id in b.completed ==> id in b.outputs;
    NothingDone(StepsAt(pass, n), b.completed);
  }

  /** What a turn of a busy run comes to. */
  predicate TurnEnds(b: Books, t: Turn, pass: nat, n: nat) {
    if pass < MAX_REPLANS then
      t.Continues? && AtPass(t.books, pass + 1, n) && Asks(t.books.view.log) == Asks(b.view.log) + n + 2
    else
      t.Stops? && t.finish.AllDone? && StageDone(b, t.books, pass, n)
  }

  lemma ReplanningIdle(b: Books, replans: nat, outputs: map<int, string>)
    requires Idle(b, replans, outputs)
    ensures Idle(Replanning(b, replans), replans + 1, outputs) && Asks(Replanning(b, replans).view.log) == Asks(b.view.log)
  {
    AsksSnoc(b.view.log, Emit(Working(Planning)));
  }

  lemma NextPlanIs(w: World, cfg: Config, b: Books, r: (View, PlannerEnd))
    requires CallPlanner(w, cfg, b.replans, 0, ZERO_TALLY, b.view) == r && r.1.Planned?
    ensures NextPlan(w, cfg, b) == Continues(Adopt(b.(view := r.0), r.1.plan, r.1.payload, r.1.spent, false))
  {
  }

  /** What a planner round between two passes comes to. */
  predicate NextEnds(b: Books, t: Turn, replans: nat, outputs: map<int, string>, plan: Plan) {
    t.Continues? && Adopted(b, t.books, replans, outputs, plan)
  }

  lemma BusyNextPlan(w: World, cfg: Config, b: Books, replans: nat, outputs: map<int, string>, plan: Plan)
    requires RoundBusy(w, cfg, replans, plan) && Idle(b, replans, outputs)
    ensures NextEnds(b, NextPlan(w, cfg, b), replans, outputs, plan)
  {
    var r := CallPlanner(w, cfg, replans, 0, ZERO_TALLY, b.view);
    FullRound(w, cfg, replans, b.view, plan);
    NextPlanIs(w, cfg, b, r);
    AdoptRound(b, r, replans, outputs, plan, false);
  }

  /** A pass that asked for a replan is followed by the next plan. */
  lemma BusyReplan(w: World, cfg: Config, n: nat, pass: nat, b: Books, b1: Books)
    requires pass < MAX_REPLANS && StageDone(b, b1, pass, n)
    requires RoundBusy(w, cfg, pass + 1, PlanFor(pass + 1, n))
    ensures TurnEnds(b, NextPlan(w, cfg, Replanning(b1, pass)), pass, n)
  {
    ReplanningIdle(b1, pass, OutputsAt(pass + 1, n));
    BusyNextPlan(w, cfg, Replanning(b1, pass), pass + 1, OutputsAt(pass + 1, n), PlanFor(pass + 1, n));
  }

  lemma TurnFollows(w: World, cfg: Config, n: nat, pass: nat, b: Books, r: (Books, Verdict), t: Turn)
    requires pass <= MAX_REPLANS && b.replans == pass && StageResult(b, r, pass, n)
    requires pass < MAX_REPLANS ==> RoundBusy(w, cfg, pass + 1, PlanFor(pass + 1, n))
    requires t == if r.1.AskReplan? && b.replans < MAX_REPLANS then NextPlan(w, cfg, Replanning(r.0, b.replans))
                  else Stops(r.0, FinishOf(r.1))
    ensures TurnEnds(b, t, pass, n)
  {
    if pass < MAX_REPLANS {
      BusyReplan(w, cfg, n, pass, b, r.0);
    }
  }

  /** A busy pass, up to what its verdict leads to. */
  lemma BusyPass(w: World, cfg: Config, n: nat, pass: nat, b: Books, r: (Books, Verdict))
    requires StageBusy(w, n, pass) && n >= 1 && cfg.maxTokens >= 1 && pass <= MAX_REPLANS && AtPass(b, pass, n)
    requires !w.cancelled(pass, 0) && !w.cancelled(pass, 1) && r == StageStep(w, cfg, pass, b, Group(1, StepsAt(pass, n)))
    ensures StageResult(b, r, pass, n)
    ensures PassTurn(w, cfg, b) == if r.1.AskReplan? && b.replans < MAX_REPLANS then NextPlan(w, cfg, Replanning(r.0, b.replans))
                                   else Stops(r.0, FinishOf(r.1))
  {
    PendingAll(b, pass, n);
    OneGroup(pass, n);
    BusyStage(w, cfg, n, pass, b);
    TurnIs(w, cfg, b, Group(1, StepsAt(pass, n)), r);
  }

  lemma BusyTurn(w: World, cfg: Config, n: nat, pass: nat, b: Books)
    requires Busy(w, cfg, n) && n >= 1 && cfg.maxTokens >= 1 && pass <= MAX_REPLANS && AtPass(b, pass, n)
    ensures TurnEnds(b, PassTurn(w, cfg, b), pass, n)
  {
    var r := StageStep(w, cfg, pass, b, Group(1, StepsAt(pass, n)));
    BusyPass(w, cfg, n, pass, b, r);
    TurnFollows(w, cfg, n, pass, b, r, PassTurn(w, cfg, b));
  }

  // ----- the run ---------------------------------------------------------------------------

  /** Provider calls from the head of a pass to the end of the phase. */
  function CallsFrom(pass: nat, n: nat): nat
    decreases MAX_REPLANS + 1 - pass
  {
    if pass >= MAX_REPLANS then n else n + 2 + CallsFrom(pass + 1, n)
  }

  /** What the phase leaves: every call made, every output recorded, nothing spent. */
  predicate PhaseEnds(b: Books, r: (Books, PlanExecuteSpec.Finish), pass: nat, n: nat) {
    && r.1.AllDone? && r.0.tally.usage.tokensOut == 0 && r.0.outputs == OutputsAt(MAX_REPLANS + 1, n)
    && Asks(r.0.view.log) == Asks(b.view.log) + CallsFrom(pass, n)
  }

  lemma LastTurn(b: Books, t: Turn, r: (Books, PlanExecuteSpec.Finish), pass: nat, n: nat)
    requires pass == MAX_REPLANS && TurnEnds(b, t, pass, n) && t.Stops? && r == (t.books, t.finish)
    ensures PhaseEnds(b, r, pass, n)
  {
  }

  lemma MoreTurns(b: Books, t: Turn, r: (Books, PlanExecuteSpec.Finish), pass: nat, n: nat)
    requires pass < MAX_REPLANS && TurnEnds(b, t, pass, n) && PhaseEnds(t.books, r, pass + 1, n)
    ensures PhaseEnds(b, r, pass, n)
  {
  }

  lemma {:induction false} BusyPasses(w: World, cfg: Config, n: nat, pass: nat, b: Books)
    requires Busy(w, cfg, n) && n >= 1 && cfg.maxTokens >= 1 && pass <= MAX_REPLANS && AtPass(b, pass, n)
    ensures PhaseEnds(b, Passes(w, cfg, b), pass, n)
    decreases MAX_REPLANS - pass
  {
    var t := PassTurn(w, cfg, b);
    BusyTurn(w, cfg, n, pass, b);
    PlanExecutePasses.PassesUnfold(w, cfg, b);
    if pass < MAX_REPLANS {
      BusyPasses(w, cfg, n, pass + 1, t.books);
      MoreTurns(b, t, Passes(w, cfg, t.books), pass, n);
    } else {
      LastTurn(b, t, Passes(w, cfg, b), pass, n);
    }
  }

  lemma OpeningAsks(cfg: Config, start: Db)
    ensures Asks(Opening(cfg, start).log) == 0
  {
    OpeningLog(start, cfg.userText);
    AsksSnoc(OpeningView(start, cfg.userText).log, Emit(Working(Planning)));
  }

  lemma PlanAndExecuteIs(w: World, cfg: Config, start: Db, r: (View, PlannerEnd))
    requires CallPlanner(w, cfg, 0, 0, ZERO_TALLY, Opening(cfg, start)) == r && r.1.Planned?
    ensures PlanAndExecute(w, cfg, start)
            == Passes(w, cfg, Adopt(EmptyBooks(r.0), r.1.plan, r.1.payload, r.1.spent, true))
  {
  }

  /** The first planner round leads to the head of the first pass. */
  lemma FirstPass(w: World, cfg: Config, n: nat, start: Db, r: (View, PlannerEnd))
    requires RoundEnds(r, Do(Do(Opening(cfg, start), Ask), Ask), PlanFor(0, n))
    ensures var b := Adopt(EmptyBooks(r.0), r.1.plan, r.1.payload, r.1.spent, true);
            AtPass(b, 0, n) && Asks(b.view.log) == 2
  {
    var b := EmptyBooks(Opening(cfg, start));
    OpeningAsks(cfg, start);
    AdoptRound(b, r, 0, OutputsAt(0, n), PlanFor(0, n), true);
    assert b.(view := r.0) == EmptyBooks(r.0);
  }

  /** The planning and executing phases make all calls but one. */
  predicate AllButOne(r: (Books, PlanExecuteSpec.Finish), n: nat) {
    && r.1.AllDone? && r.0.tally.usage.tokensOut == 0 && r.0.outputs == OutputsAt(MAX_REPLANS + 1, n)
    && Asks(r.0.view.log) == 8 + 4 * n
  }

  lemma CallsInAll(n: nat)
    ensures CallsFrom(0, n) == 6 + 4 * n
  {
    assert CallsFrom(3, n) == n;
    assert CallsFrom(2, n) == n + 2 + CallsFrom(3, n);
    assert CallsFrom(1, n) == n + 2 + CallsFrom(2, n);
  }

  lemma BusyPhases(w: World, cfg: Config, n: nat, start: Db)
    requires Busy(w, cfg, n) && n >= 1 && cfg.maxTokens >= 1
    ensures AllButOne(PlanAndExecute(w, cfg, start), n)
  {
    var r := CallPlanner(w, cfg, 0, 0, ZERO_TALLY, Opening(cfg, start));
    FullRound(w, cfg, 0, Opening(cfg, start), PlanFor(0, n));
    PlanAndExecuteIs(w, cfg, start, r);
    FirstPass(w, cfg, n, start, r);
    var b := Adopt(EmptyBooks(r.0), r.1.plan, r.1.payload, r.1.spent, true);
    BusyPasses(w, cfg, n, 0, b);
    CallsInAll(n);
  }

  lemma AnsweredAsks(b: Books, r: ChatReply, hitTokens: bool)
    ensures Asks(Answered(b, r, hitTokens).view.log) == Asks(b.view.log)
  {
    var row := TextRow(b.runSeq + 1, Trace.Synthesis, r.content, r.usage);
    var v := Do(b.view, AddRow(row));
    var a := AddMessage(AssistantSpeaker, r.content, [], None);
    AsksSnoc(b.view.log, AddRow(row));
    AsksSnoc(v.log, a);
    CloseViewDb(Do(v, a), Closing(Completed, if hitTokens then Some(MaxTokens) else None, Some(r.content), b.tally, 1));
  }

  lemma SynthesizedAsks(b: Books, r: ChatReply, hitTokens: bool)
    ensures Asks(Synthesized(b, r, hitTokens).view.log) == Asks(b.view.log)
  {
    if EmptyReason(r).Some? {
      CloseViewDb(b.view, Closing(Failed, EmptyReason(r), None, b.tally, 1));
    } else {
      AnsweredAsks(b, r, hitTokens);
    }
  }

  /** The synthesis is not skipped, and is one more call. */
  lemma BusySynthesis(w: World, cfg: Config, n: nat, b: Books)
    requires w.synthesis.Reply? && Fits(cfg, n) && cfg.maxTokens >= 1
    requires b.tally.usage.tokensOut == 0 && b.outputs == OutputsAt(MAX_REPLANS + 1, n)
    ensures Asks(Synthesize(w, cfg, b, false).view.log) == Asks(b.view.log) + 1
  {
    var chars := |FormatOutputs(b.outputs)|;
    SkipMeansOverBudget(0, cfg.maxTokens, chars);
    var r := w.synthesis.reply;
    var v := Do(Do(b.view, Emit(Working(Synthesizing))), Ask);
    AsksSnoc(b.view.log, Emit(Working(Synthesizing)));
    AsksSnoc(Do(b.view, Emit(Working(Synthesizing))).log, Ask);
    AsksSnoc(v.log, Emit(Working(Reasoning(Strip(r.reasoning)))));
    SynthesizedAsks(b.(view := WithReasoning(v, r), tally := Charge(b.tally, r.usage, r.cost)), r, false);
  }

  /** In any such world the run makes every call the bound allows. */
  lemma BusyRun(w: World, cfg: Config, n: nat, start: Db)
    requires Busy(w, cfg, n) && Fits(cfg, n) && n >= 1 && cfg.maxTokens >= 1 && |start.messages| < HARD_CAP
    ensures Asks(RunResult(w, cfg, start).view.log) == 9 + 4 * n
  {
    BusyPhases(w, cfg, n, start);
    BusySynthesis(w, cfg, n, PlanAndExecute(w, cfg, start).0);
  }

  // ----- such a world ----------------------------------------------------------------------

  function PassText(pass: nat): string {
    if pass == 0 then "0" else if pass == 1 then "1" else if pass == 2 then "2" else "3"
  }

  /** The documents a busy run reads: four plans and two step envelopes. */
  function Document(n: nat, text: string): Option<Json> {
    if text == "0" then Some(PlanPayload(PlanFor(0, n)))
    else if text == "1" then Some(PlanPayload(PlanFor(1, n)))
    else if text == "2" then Some(PlanPayload(PlanFor(2, n)))
    else if text == "3" then Some(PlanPayload(PlanFor(3, n)))
    else if text == "r" then Some(JObj(map["status" := JStr("replan_requested")]))
    else if text == "s" then Some(JObj(map["status" := JStr("success")]))
    else None
  }

  function Saying(text: string): ChatOutcome {
    Reply(ChatReply(text, [], NO_USAGE, None, "", Stop))
  }

  function StepText(n: nat, pass: nat, id: int): string {
    if pass < MAX_REPLANS && id == Base(pass, n) + n then "r" else "s"
  }

  /** A planner that answers every round at its second attempt, and a last step of each pass that asks for more. */
  function BusyWorld(n: nat): World {
    World((text: string) => Document(n, text), (j: Json) => "", (j: Json) => "", (j: Json) => "",
          (pass: nat, attempt: nat) => Saying(if attempt == 0 then "?" else PassText(pass)),
          (name: string) => UnknownTarget, (pass: nat, id: int, k: nat) => Threw(""),
          (pass: nat, id: int) => Saying(StepText(n, pass, id)), Saying("s"), (pass: nat, stage: int) => false)
  }

  /** A token budget the settings form accepts, and large enough for the synthesis. */
  ghost function BusyConfig(n: nat): Config {
    var enough := |FormatOutputs(OutputsAt(MAX_REPLANS + 1, n))| + 1;
    Config(n, if enough < 100 then 100 else enough, {}, "go")
  }

  lemma PlanForValid(pass: nat, n: nat, tools: set<string>)
    requires n >= 1
    ensures ValidPlan(PlanFor(pass, n), n, tools)
  {
  }

  lemma Documents(n: nat, pass: nat)
    requires pass <= MAX_REPLANS
    ensures Document(n, "?") == None && Document(n, PassText(pass)) == Some(PlanPayload(PlanFor(pass, n)))
  {
    assert '?' == "?"[0] && '0' == "0"[0] && '1' == "1"[0] && '2' == "2"[0] && '3' == "3"[0] && 'r' == "r"[0] && 's' == "s"[0];
  }

  lemma RoundIsBusy(n: nat, cfg: Config, pass: nat)
    requires n >= 1 && cfg.maxSteps == n && pass <= MAX_REPLANS
    ensures RoundBusy(BusyWorld(n), cfg, pass, PlanFor(pass, n))
  {
    var w := BusyWorld(n);
    Documents(n, pass);
    PlanForValid(pass, n, cfg.tools);
    PayloadRoundTrip(PlanFor(pass, n), n, cfg.tools);
    assert w.planner(pass, 0) == Saying("?") && w.planner(pass, 1) == Saying(PassText(pass));
    assert w.loads("?") == None && w.loads(PassText(pass)) == Some(PlanPayload(PlanFor(pass, n)));
    assert CallYields(w, cfg, pass, 0, None) && CallYields(w, cfg, pass, 1, Some(PlanFor(pass, n)));
  }

  lemma EnvelopeReads(w: World, text: string, word: string, status: StepStatus)
    requires Strip(text) == text != "" && w.loads(text) == Some(JObj(map["status" := JStr(word)]))
    requires StatusNamed(word) == Some(status)
    ensures ParseStepResponse(w, text) == Parsed(status, "", "")
  {
    var fields := map["status" := JStr(word)];
    assert "output"[0] != "status"[0] && "reason"[0] != "status"[0];
    assert Field(fields, "status") == JStr(word);
    assert FieldOr(fields, "output", JStr("")) == JStr("") && FieldOr(fields, "reason", JStr("")) == JStr("");
  }

  lemma StepIsBusy(n: nat, pass: nat, i: nat)
    requires i < n && pass <= MAX_REPLANS
    ensures StepBusy(BusyWorld(n), n, pass, i)
  {
    var w := BusyWorld(n);
    assert Strip("r") == "r" && Strip("s") == "s";
    if pass < MAX_REPLANS && i + 1 == n {
      EnvelopeReads(w, "r", "replan_requested", ReplanRequested);
    } else {
      EnvelopeReads(w, "s", "success", Success);
    }
  }

  lemma StageIsBusy(n: nat, pass: nat)
    requires pass <= MAX_REPLANS
    ensures StageBusy(BusyWorld(n), n, pass)
  {
    forall i: nat | i < n ensures StepBusy(BusyWorld(n), n, pass, i) {
      StepIsBusy(n, pass, i);
    }
  }

  /** The bound is reached: for every `max_steps` this run makes all the calls `ChatCallsBounded` allows. */
  lemma BoundIsTight(n: nat, start: Db)
    requires n >= 1 && |start.messages| < HARD_CAP
    ensures BusyConfig(n).maxSteps == n
    ensures Asks(RunResult(BusyWorld(n), BusyConfig(n), start).view.log) == 9 + 4 * n
  {
    var w, cfg := BusyWorld(n), BusyConfig(n);
    forall pass: nat | pass <= MAX_REPLANS ensures RoundBusy(w, cfg, pass, PlanFor(pass, n)) {
      RoundIsBusy(n, cfg, pass);
    }
    forall pass: nat | pass <= MAX_REPLANS ensures StageBusy(w, n, pass) {
      StageIsBusy(n, pass);
    }
    BusyRun(w, cfg, n, start);
  }
}
