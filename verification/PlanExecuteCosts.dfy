/** What a Plan & Execute run stores as its cost: the sum of what the replies behind its rows reported. */
module PlanExecuteCosts {
  import opened Basics
  import opened Sequences
  import opened Trace
  import opened Protocol
  import opened Invariants
  import opened Tools
  import opened PlanValidator
  import opened Stages
  import opened Synthesis
  import opened StepRunner
  import opened StepReadings
  import opened PlanExecuteSpec
  import opened PlanExecuteFacts
  import opened PlanExecuteStages
  import opened PlanExecutePasses
  import opened PlanExecuteReuse
  import opened PlanExecuteReadings
  import opened PlanExecuteRounds
  import Theorems = PlanExecuteTheorems

  /** The costs of a planner round: of its first reply, and of the second when the first could not be used. */
  function RoundCosts(w: World, cfg: Config, pass: nat): seq<Option<real>> {
    if Unusable(w, cfg, w.planner(pass, 0)) then [ReplyCost(w.planner(pass, 0)), ReplyCost(w.planner(pass, 1))]
    else [ReplyCost(w.planner(pass, 0))]
  }

  /** The costs behind a row, given the rows before it. */
  function CostsBehind(w: World, cfg: Config, before: seq<StepRow>, row: StepRow): seq<Option<real>> {
    match row.role
    case PlanRole => RoundCosts(w, cfg, PlanRows(before))
    case StepResult =>
      if row.mark.Some? && PlanRows(before) > 0 then [ReplyCost(w.step(PlanRows(before) - 1, row.mark.value.id))] else []
    case Synthesis => [ReplyCost(w.synthesis)]
    case _ => []
  }

  function RowCosts(w: World, cfg: Config, rows: seq<StepRow>): seq<Option<real>> {
    if rows == [] then []
    else RowCosts(w, cfg, rows[..|rows| - 1]) + CostsBehind(w, cfg, rows[..|rows| - 1], rows[|rows| - 1])
  }

  lemma RowCostsSnoc(w: World, cfg: Config, rows: seq<StepRow>, row: StepRow)
    ensures RowCosts(w, cfg, rows + [row]) == RowCosts(w, cfg, rows) + CostsBehind(w, cfg, rows, row)
  {
    Snoc(rows, row);
  }

  /** The total in hand is the sum over the rows so far. */
  predicate Costed(w: World, cfg: Config, b: Books) {
    CostsAddUp(b.tally.cost, RowCosts(w, cfg, b.view.db.rows))
  }

  // ----- the planner -----------------------------------------------------------------------

  lemma SecondCost(w: World, cfg: Config, pass: nat, attempt: nat, agg: Tally, v: View)
    requires attempt == 1 && w.planner(pass, attempt).Reply?
    ensures CallPlanner(w, cfg, pass, attempt, agg, v).1.spent.cost == AddCost(agg.cost, w.planner(pass, attempt).reply.cost)
  {
  }

  lemma RoundCosted(w: World, cfg: Config, pass: nat, attempt: nat, agg: Tally, v: View)
    requires attempt == 0 && agg == ZERO_TALLY
    ensures CostsAddUp(CallPlanner(w, cfg, pass, attempt, agg, v).1.spent.cost, RoundCosts(w, cfg, pass))
  {
    var c, d := w.planner(pass, attempt), w.planner(pass, attempt + 1);
    OneCost(ReplyCost(c));
    if c.Reply? {
      assert AddCost(agg.cost, c.reply.cost) == c.reply.cost;
      if Unusable(w, cfg, c) {
        CostAdded(c.reply.cost, [c.reply.cost], ReplyCost(d));
        assert [c.reply.cost] + [ReplyCost(d)] == RoundCosts(w, cfg, pass);
        if d.Reply? {
          SecondCost(w, cfg, pass, attempt + 1, Charge(agg, c.reply.usage, c.reply.cost), Do(v, Ask));
        }
      }
    }
  }

  lemma AdoptCosted(w: World, cfg: Config, b: Books, plan: Plan, payload: Json, spent: Tally, first: bool)
    requires Costed(w, cfg, b) && PlanRows(b.view.db.rows) == b.replans && CostsAddUp(spent.cost, RoundCosts(w, cfg, b.replans))
    ensures Costed(w, cfg, Adopt(b, plan, payload, spent, first))
  {
    var row := PlanRow(b.runSeq + 1, plan, payload, spent.usage);
    AdoptedDb(b, plan, payload, spent, first);
    RowCostsSnoc(w, cfg, b.view.db.rows, row);
    CostsMerged(b.tally.cost, RowCosts(w, cfg, b.view.db.rows), spent.cost, RoundCosts(w, cfg, b.replans));
  }

  // ----- one stage -------------------------------------------------------------------------

  function OutcomeCosts(outs: seq<StepOutcome>): seq<Option<real>> {
    seq(|outs|, i requires 0 <= i < |outs| => outs[i].cost)
  }

  lemma {:induction false} PersistCosts(b: Books, outs: seq<StepOutcome>, costs: seq<Option<real>>)
    requires CostsAddUp(b.tally.cost, costs)
    ensures CostsAddUp(PersistAll(b, outs).tally.cost, costs + OutcomeCosts(outs))
    decreases |outs|
  {
    if outs == [] {
      assert costs + OutcomeCosts(outs) == costs;
    } else {
      CostAdded(b.tally.cost, costs, outs[0].cost);
      PersistCosts(PersistOne(b, outs[0]), outs[1..], costs + [outs[0].cost]);
      assert (costs + [outs[0].cost]) + OutcomeCosts(outs[1..]) == costs + OutcomeCosts(outs);
    }
  }

  /** Step rows add one cost each. */
  lemma {:induction false} StepRowCosts(w: World, cfg: Config, pass: nat, rows: seq<StepRow>, more: seq<StepRow>,
                                        costs: seq<Option<real>>)
    requires PlanRows(rows) == pass + 1 && |costs| == |more|
    requires forall i :: 0 <= i < |more| ==>
               more[i].role.StepResult? && more[i].mark.Some? && costs[i] == ReplyCost(w.step(pass, more[i].mark.value.id))
    ensures RowCosts(w, cfg, rows + more) == RowCosts(w, cfg, rows) + costs
    decreases |more|
  {
    if more == [] {
      assert rows + more == rows && RowCosts(w, cfg, rows) + costs == RowCosts(w, cfg, rows);
    } else {
      var init, last := more[..|more| - 1], more[|more| - 1];
      StepRowCosts(w, cfg, pass, rows, init, costs[..|costs| - 1]);
      NoMorePlans(rows, init);
      LastRowCost(w, cfg, pass, rows + init, last);
      assert rows + more == (rows + init) + [last];
      CostsSnoc(RowCosts(w, cfg, rows), costs);
    }
  }

  lemma LastRowCost(w: World, cfg: Config, pass: nat, rows: seq<StepRow>, row: StepRow)
    requires PlanRows(rows) == pass + 1 && row.role.StepResult? && row.mark.Some?
    ensures RowCosts(w, cfg, rows + [row]) == RowCosts(w, cfg, rows) + [ReplyCost(w.step(pass, row.mark.value.id))]
  {
    RowCostsSnoc(w, cfg, rows, row);
  }

  lemma CostsSnoc(first: seq<Option<real>>, costs: seq<Option<real>>)
    requires costs != []
    ensures (first + costs[..|costs| - 1]) + [costs[|costs| - 1]] == first + costs
  {
  }

  lemma StageRowCosts(w: World, cfg: Config, pass: nat, rows: seq<StepRow>, n: nat, steps: seq<PlanStep>, outputs: map<int, string>)
    requires PlanRows(rows) == pass + 1 && !SomeEscape(w, pass, steps, outputs)
    ensures var outs := OutcomesOf(w, pass, steps, outputs);
            RowCosts(w, cfg, rows + MarkedRows(n, outs)) == RowCosts(w, cfg, rows) + OutcomeCosts(outs)
  {
    var outs := OutcomesOf(w, pass, steps, outputs);
    MarkedRowsAt(n, outs);
    forall i | 0 <= i < |outs| ensures outs[i].cost == ReplyCost(w.step(pass, outs[i].step.id)) {
      assert StepRun(w, pass, steps[i], outputs).Returned?;
      StepTold(w, pass, steps[i], outputs);
    }
    StepRowCosts(w, cfg, pass, rows, MarkedRows(n, outs), OutcomeCosts(outs));
  }

  lemma JudgedTally(cfg: Config, b: Books, outs: seq<StepOutcome>)
    ensures Judge(cfg, b, outs).0.tally == b.tally
  {
    RecordKeepsTally(b, outs);
  }

  lemma LaunchCosts(start: Db, b: Books, g: Group)
    requires Calm(start, b.view)
    ensures Launch(b, g).tally == b.tally && Launch(b, g).view.db == b.view.db
  {
    LaunchView(start, b, g);
  }

  lemma StageCosted(start: Db, w: World, cfg: Config, b: Books, g: Group, replans: nat)
    requires Good(start, b, replans) && StageReady(g, b.completed) && Costed(w, cfg, b) && replans == b.replans
    ensures Costed(w, cfg, StageStep(w, cfg, b.replans, b, g).0)
  {
    LaunchCosts(start, b, g);
    if SomeEscape(w, b.replans, g.steps, b.outputs) {
    } else {
      ByIdEscapes(w, b.replans, g.steps, b.outputs);
      var outs := OutcomesOf(w, b.replans, ById(g.steps), b.outputs);
      StageRows(start, w, cfg, b.replans, b, g, replans);
      StageRowCosts(w, cfg, b.replans, b.view.db.rows, b.runSeq, ById(g.steps), b.outputs);
      PersistCosts(Launch(b, g), outs, RowCosts(w, cfg, b.view.db.rows));
      JudgedTally(cfg, Persisted(Launch(b, g), outs), outs);
    }
  }

  // ----- the passes ------------------------------------------------------------------------

  lemma {:induction false} StagesCosted(start: Db, w: World, cfg: Config, b: Books, groups: seq<Group>, replans: nat)
    requires PassPoint(start, b, groups, replans) && Costed(w, cfg, b) && replans == b.replans
    ensures var b' := RunStages(w, cfg, b.replans, b, groups).0;
            Costed(w, cfg, b') && b'.replans == b.replans && PlanRows(b'.view.db.rows) == b.replans + 1
    decreases |groups|
  {
    if groups != [] && !w.cancelled(b.replans, groups[0].stage) {
      var (b1, v1) := StageStep(w, cfg, b.replans, b, groups[0]);
      FirstStage(start, w, cfg, b.replans, b, groups, replans);
      FirstStageReady(b.plan.steps, b.completed, groups);
      StageCosted(start, w, cfg, b, groups[0], replans);
      StageKeepsReplans(w, cfg, b.replans, b, groups[0]);
      var more := StageAddsNoPlan(start, w, cfg, b.replans, b, groups[0], replans);
      NoMorePlans(b.view.db.rows, more);
      if v1.GoOn? {
        NextPoint(start, b, groups, b1, replans);
        StagesCosted(start, w, cfg, b1, groups[1..], replans);
      }
    }
  }

  /** What was charged when the phase ended: the rows, and the last round of a planner that gave up is still to come. */
  predicate PhaseCosted(w: World, cfg: Config, b: Books, f: Finish) {
    Costed(w, cfg, b) && (f.PlannerGaveUp? ==> CostsAddUp(f.spent.cost, RoundCosts(w, cfg, b.replans)))
  }

  predicate TurnCosted(w: World, cfg: Config, t: PlanExecuteSpec.Turn) {
    match t
    case Stops(b, f) => PhaseCosted(w, cfg, b, f)
    case Continues(b) => Costed(w, cfg, b)
  }

  lemma NextPlanCosted(w: World, cfg: Config, b: Books)
    requires Costed(w, cfg, b) && PlanRows(b.view.db.rows) == b.replans
    ensures TurnCosted(w, cfg, NextPlan(w, cfg, b))
  {
    RoundCosted(w, cfg, b.replans, 0, ZERO_TALLY, b.view);
    RoundKeepsDb(w, cfg, b.replans, 0, ZERO_TALLY, b.view);
    var (view, end) := CallPlanner(w, cfg, b.replans, 0, ZERO_TALLY, b.view);
    if end.Planned? {
      AdoptCosted(w, cfg, b.(view := view), end.plan, end.payload, end.spent, false);
    }
  }

  lemma ReplanningCosted(w: World, cfg: Config, b: Books, replans: nat)
    requires Costed(w, cfg, b) && PlanRows(b.view.db.rows) == replans + 1
    ensures TurnCosted(w, cfg, NextPlan(w, cfg, Replanning(b, replans)))
  {
    assert Replanning(b, replans).view.db == b.view.db;
    NextPlanCosted(w, cfg, Replanning(b, replans));
  }

  lemma FinishCosted(w: World, cfg: Config, b: Books, v: Verdict)
    requires Costed(w, cfg, b)
    ensures PhaseCosted(w, cfg, b, FinishOf(v))
  {
  }

  lemma PassCosted(w: World, cfg: Config, b: Books, r: (Books, Verdict))
    requires !w.cancelled(b.replans, 0) && NotDone(b.plan.steps, b.completed) != []
    requires r == RunStages(w, cfg, b.replans, b, Groups(NotDone(b.plan.steps, b.completed)))
    requires Costed(w, cfg, r.0) && PlanRows(r.0.view.db.rows) == b.replans + 1
    ensures TurnCosted(w, cfg, PassTurn(w, cfg, b))
  {
    PassTurnIs(w, cfg, b, r.0, r.1);
    if r.1.AskReplan? && b.replans < MAX_REPLANS {
      ReplanningCosted(w, cfg, r.0, b.replans);
    } else {
      FinishCosted(w, cfg, r.0, r.1);
    }
  }

  lemma TurnIsCosted(start: Db, w: World, cfg: Config, b: Books)
    requires PassStart(start, cfg, b) && Costed(w, cfg, b)
    ensures TurnCosted(w, cfg, PassTurn(w, cfg, b))
  {
    if !w.cancelled(b.replans, 0) && NotDone(b.plan.steps, b.completed) != [] {
      var groups := Groups(NotDone(b.plan.steps, b.completed));
      var r := RunStages(w, cfg, b.replans, b, groups);
      PassPointAt(start, cfg, b);
      StagesCosted(start, w, cfg, b, groups, b.replans);
      PassCosted(w, cfg, b, r);
    }
  }

  lemma {:induction false} PassesCosted(start: Db, w: World, cfg: Config, b: Books)
    requires PassStart(start, cfg, b) && Costed(w, cfg, b)
    ensures PhaseCosted(w, cfg, Passes(w, cfg, b).0, Passes(w, cfg, b).1)
    decreases MAX_REPLANS + 1 - b.replans
  {
    var t := PassTurn(w, cfg, b);
    TurnIsCosted(start, w, cfg, b);
    TurnKeeps(start, w, cfg, b);
    PassesUnfold(w, cfg, b);
    if t.Continues? {
      PassesCosted(start, w, cfg, t.books);
    }
  }

  // ----- the run ---------------------------------------------------------------------------

  lemma PhasesCosted(start: Db, w: World, cfg: Config)
    requires Theorems.FreshStart(start) && cfg.maxSteps >= 1
    ensures PhaseCosted(w, cfg, PlanAndExecute(w, cfg, start).0, PlanAndExecute(w, cfg, start).1)
  {
    var v0 := Opening(cfg, start);
    RoundCosted(w, cfg, 0, 0, ZERO_TALLY, v0);
    RoundKeepsDb(w, cfg, 0, 0, ZERO_TALLY, v0);
    Theorems.OpeningCalm(start, cfg);
    PlannerKeeps(start, w, cfg, 0, 0, ZERO_TALLY, v0);
    var (v, end) := CallPlanner(w, cfg, 0, 0, ZERO_TALLY, v0);
    assert Costed(w, cfg, EmptyBooks(v));
    if end.Planned? {
      AdoptCosted(w, cfg, EmptyBooks(v), end.plan, end.payload, end.spent, true);
      Theorems.FirstPlan(start, cfg, v, end.plan, end.payload, end.spent);
      PassesCosted(start, w, cfg, Adopt(EmptyBooks(v), end.plan, end.payload, end.spent, true));
    }
  }

  /** What was charged without a row: the round of a planner that gave up, and a synthesis reply that was no answer. */
  ghost function UnrecordedCosts(w: World, cfg: Config, b: Books, f: Finish): seq<Option<real>> {
    match f
    case PlannerGaveUp(_, _) => RoundCosts(w, cfg, b.replans)
    case AllDone => UnusedCosts(w, cfg, b)
    case HitTokens => UnusedCosts(w, cfg, b)
    case _ => []
  }

  ghost function UnusedCosts(w: World, cfg: Config, b: Books): seq<Option<real>> {
    if cfg.maxTokens > 0 && 2 * (b.tally.usage.tokensOut + |FormatOutputs(b.outputs)| / 4) > 3 * cfg.maxTokens then []
    else if SynthesisBlank(w) then [ReplyCost(w.synthesis)] else []
  }

  /** The totals of an exit are the sum over its rows and what was charged without one. */
  ghost predicate ExitCosted(w: World, cfg: Config, e: Exit, extra: seq<Option<real>>) {
    CostsAddUp(ExitTally(e).cost, RowCosts(w, cfg, e.view.db.rows) + extra)
  }

  lemma ClosedCosted(w: World, cfg: Config, v: View, c: Closing, extra: seq<Option<real>>)
    requires WellFormed(c) && CostsAddUp(c.tally.cost, RowCosts(w, cfg, v.db.rows) + extra)
    ensures ExitCosted(w, cfg, Left(CloseView(v, c)), extra)
  {
    CloseViewDb(v, c);
  }

  lemma NothingExtra(costs: seq<Option<real>>)
    ensures costs + [] == costs
  {
  }

  lemma PlainCosted(w: World, cfg: Config, b: Books, c: Closing)
    requires Costed(w, cfg, b) && WellFormed(c) && c.tally == b.tally
    ensures ExitCosted(w, cfg, Left(CloseView(b.view, c)), [])
  {
    NothingExtra(RowCosts(w, cfg, b.view.db.rows));
    ClosedCosted(w, cfg, b.view, c, []);
  }

  lemma AnsweredTally(b: Books, r: ChatReply, hitTokens: bool)
    ensures var e := Answered(b, r, hitTokens);
            && ExitTally(e) == b.tally
            && e.view.db.rows == b.view.db.rows + [TextRow(b.runSeq + 1, Trace.Synthesis, r.content, r.usage)]
  {
    var v := Do(b.view, AddRow(TextRow(b.runSeq + 1, Trace.Synthesis, r.content, r.usage)));
    CloseViewDb(Do(v, AddMessage(AssistantSpeaker, r.content, [], None)),
                Closing(Completed, if hitTokens then Some(MaxTokens) else None, Some(r.content), b.tally, 1));
  }

  lemma AnsweredCosted(w: World, cfg: Config, b: Books, r: ChatReply, hitTokens: bool)
    requires w.synthesis == Reply(r) && CostsAddUp(b.tally.cost, RowCosts(w, cfg, b.view.db.rows) + [r.cost])
    ensures ExitCosted(w, cfg, Answered(b, r, hitTokens), [])
  {
    AnsweredTally(b, r, hitTokens);
    RowCostsSnoc(w, cfg, b.view.db.rows, TextRow(b.runSeq + 1, Trace.Synthesis, r.content, r.usage));
    NothingExtra(RowCosts(w, cfg, Answered(b, r, hitTokens).view.db.rows));
  }

  lemma SynthesizeCosted(w: World, cfg: Config, b: Books, hitTokens: bool)
    requires Costed(w, cfg, b)
    ensures ExitCosted(w, cfg, Synthesize(w, cfg, b, hitTokens), UnusedCosts(w, cfg, b))
  {
    SkipRead(cfg, b);
    var rows := b.view.db.rows;
    if SkipSynthesis(b.tally.usage.tokensOut, cfg.maxTokens, |FormatOutputs(b.outputs)|) {
      PlainCosted(w, cfg, b, Closing(Failed, Some(GuardrailNoSynthesis), None, b.tally, 0));
    } else {
      var v := Do(Do(b.view, Emit(Working(Synthesizing))), Ask);
      match w.synthesis {
        case ProviderError => PlainCosted(w, cfg, b.(view := v), Closing(Failed, Some(LlmProviderError), None, b.tally, 0));
        case Reply(r) =>
          CostAdded(b.tally.cost, RowCosts(w, cfg, rows), r.cost);
          ReplyCosted(w, cfg, b.(view := WithReasoning(v, r), tally := Charge(b.tally, r.usage, r.cost)), r, hitTokens);
      }
    }
  }

  lemma ReplyCosted(w: World, cfg: Config, b: Books, r: ChatReply, hitTokens: bool)
    requires w.synthesis == Reply(r) && CostsAddUp(b.tally.cost, RowCosts(w, cfg, b.view.db.rows) + [r.cost])
    ensures ExitCosted(w, cfg, Synthesized(b, r, hitTokens), if SynthesisBlank(w) then [r.cost] else [])
  {
    EmptyReasonSays(r);
    BlankMeansAllSpace(r.content);
    match EmptyReason(r) {
      case Some(reason) => ClosedCosted(w, cfg, b.view, Closing(Failed, Some(reason), None, b.tally, 1), [r.cost]);
      case None => AnsweredCosted(w, cfg, b, r, hitTokens);
    }
  }

  /** The cost a run stores, or hands to the `finally` block, is the sum of what the replies behind its rows reported and of
      what was charged without a row, and absent exactly when none of them reported one. */
  lemma RunCosted(start: Db, w: World, cfg: Config)
    requires Theorems.FreshStart(start) && cfg.maxSteps >= 1 && |start.messages| < HARD_CAP
    ensures var (b, f) := PlanAndExecute(w, cfg, start);
            ExitCosted(w, cfg, RunResult(w, cfg, start), UnrecordedCosts(w, cfg, b, f))
  {
    var (b, f) := PlanAndExecute(w, cfg, start);
    PhasesCosted(start, w, cfg);
    Theorems.RunPhases(start, w, cfg);
    Theorems.RanBalanced(start, cfg, b, f);
    ConcludeCosted(w, cfg, b, f);
  }

  lemma ConcludeCosted(w: World, cfg: Config, b: Books, f: Finish)
    requires PhaseCosted(w, cfg, b, f)
    ensures ExitCosted(w, cfg, Conclude(w, cfg, b, f), UnrecordedCosts(w, cfg, b, f))
  {
    match f {
      case WasCancelled => PlainCosted(w, cfg, b, Closing(Cancelled, Some(CancelRequested), None, b.tally, 0));
      case StepFailure => PlainCosted(w, cfg, b, Closing(Failed, Some(StepFailed), None, b.tally, 0));
      case TooManyReplans => PlainCosted(w, cfg, b, Closing(Failed, Some(ReplanExceeded), None, b.tally, 0));
      case PlannerGaveUp(reason, spent) =>
        CostsMerged(b.tally.cost, RowCosts(w, cfg, b.view.db.rows), spent.cost, RoundCosts(w, cfg, b.replans));
        ClosedCosted(w, cfg, b.view, Closing(Failed, Some(reason), None, Charge(b.tally, spent.usage, spent.cost), 0),
                     RoundCosts(w, cfg, b.replans));
      case Escape => NothingExtra(RowCosts(w, cfg, b.view.db.rows));
      case AllDone => SynthesizeCosted(w, cfg, b, false);
      case HitTokens => SynthesizeCosted(w, cfg, b, true);
    }
  }
}
