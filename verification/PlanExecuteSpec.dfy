/** What a Plan & Execute run does, with each stage's steps taken one at a time in id order. */
module PlanExecuteSpec {
  import opened Basics
  import opened Trace
  import opened Protocol
  import opened Invariants
  import opened Tools
  import opened PlanValidator
  import opened Stages
  import opened Substitution
  import opened Synthesis
  import opened StepRunner

  datatype Config = Config(maxSteps: int, maxTokens: int, tools: set<string>, userText: string)

  const MAX_REPLANS: nat := 3
  const MAX_PLANNER_RETRIES: nat := 1

  /** A step that began: in which pass, and with the outputs its arguments were resolved against. */
  datatype Start = Start(step: PlanStep, pass: nat, outputs: map<int, string>)

  /** The executor's variables, and the view it has produced so far. */
  datatype Books = Books(
    view: View, tally: Tally, runSeq: nat, plan: Plan, replans: nat,
    outputs: map<int, string>, completed: set<int>, starts: seq<Start>)

  // ----- one stage -------------------------------------------------------------------------

  function RowFor(seqNo: nat, o: StepOutcome): StepRow {
    StepRow(seqNo, StepResult, Some(o.output), Some(o.step.tool), JsonArgs(JObj(o.args)), o.result, Some(o.usage), None, None)
  }

  function MarkOf(o: StepOutcome): StepMark {
    StepMark(o.step.stage, o.step.id, o.status)
  }

  function StoredOutcome(v: View, n: nat, o: StepOutcome): View {
    Do(Do(v, AddRow(RowFor(n, o))), PatchRow(n, SetMark(MarkOf(o))))
  }

  /** Totals, row and keyed update of one outcome. */
  function PersistOne(b: Books, o: StepOutcome): Books {
    var n := b.runSeq + 1;
    b.(tally := Charge(b.tally, o.usage, o.cost),
       runSeq := n,
       view := StoredOutcome(b.view, n, o))
  }

  function PersistAll(b: Books, outs: seq<StepOutcome>): Books
    decreases |outs|
  {
    if outs == [] then b else PersistAll(PersistOne(b, outs[0]), outs[1..])
  }

  /** Successful outcomes become recorded outputs. */
  function RecordSuccesses(b: Books, outs: seq<StepOutcome>): Books
    decreases |outs|
  {
    if outs == [] then b
    else if outs[0].status.Success? then
      RecordSuccesses(
        b.(completed := b.completed + {outs[0].step.id}, outputs := b.outputs[outs[0].step.id := outs[0].output]), outs[1..])
    else RecordSuccesses(b, outs[1..])
  }

  predicate SomeStatus(outs: seq<StepOutcome>, s: StepStatus) {
    exists i :: 0 <= i < |outs| && outs[i].status == s
  }

  /** The reason given by the lowest-id step that asks for a replan. */
  function ReplanReason(outs: seq<StepOutcome>): string {
    if outs == [] then ""
    else if outs[0].status.ReplanRequested? then (if outs[0].reason != "" then outs[0].reason else "replan_requested")
    else ReplanReason(outs[1..])
  }

  datatype Verdict = GoOn | StopCancelled | StopFailed | AskReplan(reason: string) | StopTokens | StopCrashed

  /** Failure beats a replan request; only a stage without either is checked against the token budget. */
  function Judge(cfg: Config, b: Books, outs: seq<StepOutcome>): (Books, Verdict) {
    if SomeStatus(outs, Failure) then (b, StopFailed)
    else
      var b' := RecordSuccesses(b, outs);
      if SomeStatus(outs, ReplanRequested) then (b', AskReplan(ReplanReason(outs)))
      else if b.tally.usage.tokensOut >= cfg.maxTokens then (b', StopTokens)
      else (b', GoOn)
  }

  function IdsOf(steps: seq<PlanStep>): seq<int> {
    seq(|steps|, i requires 0 <= i < |steps| => steps[i].id)
  }

  function StartsOf(steps: seq<PlanStep>, pass: nat, outputs: map<int, string>): seq<Start> {
    seq(|steps|, i requires 0 <= i < |steps| => Start(steps[i], pass, outputs))
  }

  /** Announces a stage and runs its steps; nothing is recorded yet. */
  function Launch(b: Books, g: Group): Books {
    b.(view := AskTimes(Do(b.view, Emit(Working(Executing(g.stage, IdsOf(g.steps))))), |g.steps|),
       starts := b.starts + StartsOf(g.steps, b.replans, b.outputs))
  }

  predicate SomeEscape(w: World, pass: nat, steps: seq<PlanStep>, outputs: map<int, string>) {
    exists i :: 0 <= i < |steps| && StepRun(w, pass, steps[i], outputs).Escaped?
  }

  function OutcomesOf(w: World, pass: nat, steps: seq<PlanStep>, outputs: map<int, string>): seq<StepOutcome>
    requires !SomeEscape(w, pass, steps, outputs)
  {
    seq(|steps|, i requires 0 <= i < |steps| => StepRun(w, pass, steps[i], outputs).outcome)
  }

  function Persisted(b: Books, outs: seq<StepOutcome>): Books {
    var b' := PersistAll(b, outs);
    b'.(view := Do(b'.view, Commit))
  }

  function StageStep(w: World, cfg: Config, pass: nat, b: Books, g: Group): (Books, Verdict) {
    var b1 := Launch(b, g);
    if SomeEscape(w, pass, g.steps, b.outputs) then (b1, StopCrashed)
    else
      ByIdEscapes(w, pass, g.steps, b.outputs);
      var outs := OutcomesOf(w, pass, ById(g.steps), b.outputs);
      Judge(cfg, Persisted(b1, outs), outs)
  }

  lemma ByIdEscapes(w: World, pass: nat, steps: seq<PlanStep>, outputs: map<int, string>)
    ensures SomeEscape(w, pass, steps, outputs) <==> SomeEscape(w, pass, ById(steps), outputs)
  {
    var sorted := ById(steps);
    ByIdElements(steps);
    if i :| 0 <= i < |steps| && StepRun(w, pass, steps[i], outputs).Escaped? {
      assert steps[i] in sorted;
      var j :| 0 <= j < |sorted| && sorted[j] == steps[i];
    }
    if i :| 0 <= i < |sorted| && StepRun(w, pass, sorted[i], outputs).Escaped? {
      assert sorted[i] in sorted;
      assert sorted[i] in steps;
      var j :| 0 <= j < |steps| && steps[j] == sorted[i];
    }
  }

  // ----- one pass over a plan --------------------------------------------------------------

  function RunStages(w: World, cfg: Config, pass: nat, b: Books, groups: seq<Group>): (Books, Verdict)
    decreases |groups|
  {
    if groups == [] then (b, GoOn)
    else if w.cancelled(pass, groups[0].stage) then (b, StopCancelled)
    else
      var (b', v) := StageStep(w, cfg, pass, b, groups[0]);
      if v.GoOn? then RunStages(w, cfg, pass, b', groups[1..]) else (b', v)
  }

  function NotDone(steps: seq<PlanStep>, completed: set<int>): seq<PlanStep> {
    if steps == [] then []
    else NotDone(steps[..|steps| - 1], completed)
         + (if steps[|steps| - 1].id !in completed then [steps[|steps| - 1]] else [])
  }

  lemma {:induction false} NotDoneElements(steps: seq<PlanStep>, completed: set<int>)
    ensures forall s :: s in NotDone(steps, completed) <==> s in steps && s.id !in completed
    ensures |NotDone(steps, completed)| <= |steps|
  {
    if steps != [] {
      NotDoneElements(steps[..|steps| - 1], completed);
      assert forall s :: s in steps <==> s == steps[|steps| - 1] || s in steps[..|steps| - 1];
    }
  }

  // ----- the planner -----------------------------------------------------------------------

  datatype PlannerEnd = Planned(plan: Plan, payload: Json, spent: Tally) | PlannerFailed(reason: Reason, spent: Tally)

  /** `_call_planner` from a given attempt on. */
  function CallPlanner(w: World, cfg: Config, pass: nat, attempt: nat, agg: Tally, v: View): (View, PlannerEnd)
    decreases MAX_PLANNER_RETRIES + 1 - attempt
  {
    if attempt > MAX_PLANNER_RETRIES then (v, PlannerFailed(PlanningFailed, agg))
    else
      match w.planner(pass, attempt)
      case ProviderError => (Do(v, Ask), PlannerFailed(LlmProviderError, agg))
      case Reply(r) =>
        var spent := Charge(agg, r.usage, r.cost);
        var data := w.loads(r.content);
        match Validated(data, cfg.maxSteps, cfg.tools)
        case Some(plan) => (Do(v, Ask), Planned(plan, data.value, spent))
        case None => CallPlanner(w, cfg, pass, attempt + 1, spent, Do(v, Ask))
  }

  function PlanRow(seqNo: nat, plan: Plan, payload: Json, usage: Usage): StepRow {
    StepRow(seqNo, PlanRole, Some(plan.goal), None, JsonArgs(payload), None, Some(usage), None, None)
  }

  /** The plan row, the stamp on the run for the first plan, and the commit. */
  function StoredPlan(v: View, row: StepRow, payload: Json, first: bool): View {
    if first then Do(Do(Do(v, AddRow(row)), SetPlan(payload)), Commit) else Do(Do(v, AddRow(row)), Commit)
  }

  /** Books the planner's tokens and stores the plan row; the first plan is also stamped onto the run. */
  function Adopt(b: Books, plan: Plan, payload: Json, spent: Tally, first: bool): Books {
    Booked(b, plan, spent).(
      view := StoredPlan(b.view, PlanRow(b.runSeq + 1, plan, payload, spent.usage), payload, first))
  }

  function Booked(b: Books, plan: Plan, spent: Tally): Books {
    b.(tally := Charge(b.tally, spent.usage, spent.cost), runSeq := b.runSeq + 1, plan := plan)
  }

  // ----- the passes ------------------------------------------------------------------------

  datatype Finish =
    | AllDone | HitTokens | WasCancelled | StepFailure | TooManyReplans | PlannerGaveUp(reason: Reason, spent: Tally) | Escape

  /** `replan_count += 1` and the announcement of a new planning phase. */
  function Replanning(b: Books, replans: nat): Books {
    b.(replans := replans + 1, view := Do(b.view, Emit(Working(Planning))))
  }

  /** What one turn of the loop comes to: the phase is over, or a new plan is in place. */
  datatype Turn = Stops(books: Books, finish: Finish) | Continues(books: Books)

  /** The planner round after a pass asked for a replan. */
  function NextPlan(w: World, cfg: Config, b: Books): (t: Turn)
    ensures t.books.replans == b.replans
  {
    var (view, end) := CallPlanner(w, cfg, b.replans, 0, ZERO_TALLY, b.view);
    match end
    case PlannerFailed(reason, spent) => Stops(b.(view := view), PlannerGaveUp(reason, spent))
    case Planned(plan, payload, spent) => Continues(Adopt(b.(view := view), plan, payload, spent, false))
  }

  /** The end of the phase when a pass does not lead to another plan. */
  function FinishOf(v: Verdict): Finish {
    match v
    case GoOn => AllDone
    case StopCancelled => WasCancelled
    case StopFailed => StepFailure
    case StopTokens => HitTokens
    case StopCrashed => Escape
    case AskReplan(_) => TooManyReplans
  }

  /** One turn of the loop: the pending stages of the plan, and a new plan if one is asked for and allowed. */
  function PassTurn(w: World, cfg: Config, b: Books): (t: Turn)
    ensures t.Continues? ==> b.replans < MAX_REPLANS && t.books.replans == b.replans + 1
  {
    if w.cancelled(b.replans, 0) then Stops(b, WasCancelled)
    else
      var remaining := NotDone(b.plan.steps, b.completed);
      if remaining == [] then Stops(b, AllDone)
      else
        var (b1, v) := RunStages(w, cfg, b.replans, b, Groups(remaining));
        if v.AskReplan? && b.replans < MAX_REPLANS then NextPlan(w, cfg, Replanning(b1, b.replans))
        else Stops(b1, FinishOf(v))
  }

  /** A turn whose pass runs, unfolded. */
  lemma PassTurnIs(w: World, cfg: Config, b: Books, b1: Books, v: Verdict)
    requires !w.cancelled(b.replans, 0) && NotDone(b.plan.steps, b.completed) != []
    requires RunStages(w, cfg, b.replans, b, Groups(NotDone(b.plan.steps, b.completed))) == (b1, v)
    ensures PassTurn(w, cfg, b) ==
              if v.AskReplan? && b.replans < MAX_REPLANS then NextPlan(w, cfg, Replanning(b1, b.replans))
              else Stops(b1, FinishOf(v))
  {
  }

  function Passes(w: World, cfg: Config, b: Books): (Books, Finish)
    decreases MAX_REPLANS + 1 - b.replans
  {
    match PassTurn(w, cfg, b)
    case Stops(b', f) => (b', f)
    case Continues(b') => Passes(w, cfg, b')
  }

  // ----- the whole run ---------------------------------------------------------------------

  function FailedWith(b: Books, reason: Reason, loops: nat): Exit {
    Left(CloseView(b.view, Closing(Failed, Some(reason), None, b.tally, loops)))
  }

  ghost function Synthesize(w: World, cfg: Config, b: Books, hitTokens: bool): Exit {
    if SkipSynthesis(b.tally.usage.tokensOut, cfg.maxTokens, |FormatOutputs(b.outputs)|) then
      FailedWith(b, GuardrailNoSynthesis, 0)
    else
      var v := Do(Do(b.view, Emit(Working(Synthesizing))), Ask);
      match w.synthesis
      case ProviderError => FailedWith(b.(view := v), LlmProviderError, 0)
      case Reply(r) =>
        Synthesized(b.(view := WithReasoning(v, r), tally := Charge(b.tally, r.usage, r.cost)), r, hitTokens)
  }

  /** What a synthesis reply, already charged, leads to. */
  function Synthesized(b: Books, r: ChatReply, hitTokens: bool): Exit {
    match EmptyReason(r)
    case Some(reason) => FailedWith(b, reason, 1)
    case None => Answered(b, r, hitTokens)
  }

  /** The synthesis row, the assistant message (which may find the context full), the completed run. */
  function Answered(b: Books, r: ChatReply, hitTokens: bool): Exit {
    var v := Do(b.view, AddRow(TextRow(b.runSeq + 1, Trace.Synthesis, r.content, r.usage)));
    if |v.db.messages| >= HARD_CAP then Raised(v, b.tally, 1)
    else
      Left(CloseView(Do(v, AddMessage(AssistantSpeaker, r.content, [], None)),
                     Closing(Completed, if hitTokens then Some(MaxTokens) else None, Some(r.content), b.tally, 1)))
  }

  ghost function Conclude(w: World, cfg: Config, b: Books, finish: Finish): Exit {
    match finish
    case WasCancelled => Left(CloseView(b.view, Closing(Cancelled, Some(CancelRequested), None, b.tally, 0)))
    case StepFailure => FailedWith(b, StepFailed, 0)
    case TooManyReplans => FailedWith(b, ReplanExceeded, 0)
    case PlannerGaveUp(reason, spent) => FailedWith(b.(tally := Charge(b.tally, spent.usage, spent.cost)), reason, 0)
    case Escape => Raised(b.view, b.tally, 0)
    case AllDone => Synthesize(w, cfg, b, false)
    case HitTokens => Synthesize(w, cfg, b, true)
  }

  /** Up to the first planner call. */
  function Opening(cfg: Config, start: Db): View {
    Do(OpeningView(start, cfg.userText), Emit(Working(Planning)))
  }

  function EmptyBooks(v: View): Books {
    Books(v, ZERO_TALLY, 0, Plan("", []), 0, map[], {}, [])
  }

  /** Books and finish of the planning and executing phases. */
  function PlanAndExecute(w: World, cfg: Config, start: Db): (Books, Finish) {
    var (v, end) := CallPlanner(w, cfg, 0, 0, ZERO_TALLY, Opening(cfg, start));
    match end
    case PlannerFailed(reason, spent) =>
      (EmptyBooks(v), PlannerGaveUp(reason, spent))
    case Planned(plan, payload, spent) =>
      Passes(w, cfg, Adopt(EmptyBooks(v), plan, payload, spent, true))
  }

  ghost function RunResult(w: World, cfg: Config, start: Db): Exit {
    if |start.messages| >= HARD_CAP then Left(ContextFullView(View(start, start, [])))
    else
      var (b, finish) := PlanAndExecute(w, cfg, start);
      Conclude(w, cfg, b, finish)
  }
}
