/** When a Plan & Execute run waits for the provider, everything it has written is committed. */
module PlanExecuteCommits {
  import opened Basics
  import opened Sequences
  import opened Trace
  import opened Protocol
  import opened Invariants
  import opened Cuts
  import opened Tools
  import opened PlanValidator
  import opened Stages
  import opened Synthesis
  import opened StepRunner
  import opened PlanExecuteSpec
  import opened PlanExecuteReuse

  /** Everything written is committed, and was at every provider call. */
  predicate Clean(v: View) {
    CleanAsks(v.log) && !Dirty(v.log)
  }

  lemma CleanStep(v: View, a: Action)
    requires Clean(v) && !Writes(a)
    ensures Clean(Do(v, a))
  {
    CleanDo(v, a);
  }

  lemma {:induction false} AskTimesClean(v: View, n: nat)
    requires Clean(v)
    ensures Clean(AskTimes(v, n))
  {
    if n > 0 {
      AskTimesClean(v, n - 1);
      CleanStep(AskTimes(v, n - 1), Ask);
    }
  }

  lemma LaunchClean(b: Books, g: Group)
    requires Clean(b.view)
    ensures Clean(Launch(b, g).view)
  {
    var a := Emit(Working(Executing(g.stage, IdsOf(g.steps))));
    CleanStep(b.view, a);
    AskTimesClean(Do(b.view, a), |g.steps|);
  }

  lemma StoredTidy(v: View, n: nat, o: StepOutcome)
    requires CleanAsks(v.log)
    ensures CleanAsks(StoredOutcome(v, n, o).log)
  {
    CleanDo(v, AddRow(RowFor(n, o)));
    CleanDo(Do(v, AddRow(RowFor(n, o))), PatchRow(n, SetMark(MarkOf(o))));
  }

  lemma {:induction false} PersistTidy(b: Books, outs: seq<StepOutcome>)
    requires CleanAsks(b.view.log)
    ensures CleanAsks(PersistAll(b, outs).view.log)
    decreases |outs|
  {
    if outs != [] {
      StoredTidy(b.view, b.runSeq + 1, outs[0]);
      PersistTidy(PersistOne(b, outs[0]), outs[1..]);
    }
  }

  lemma PersistedClean(b: Books, outs: seq<StepOutcome>)
    requires CleanAsks(b.view.log)
    ensures Clean(Persisted(b, outs).view)
  {
    PersistTidy(b, outs);
    CleanDo(PersistAll(b, outs).view, Commit);
  }

  lemma JudgedClean(cfg: Config, b: Books, outs: seq<StepOutcome>)
    requires Clean(b.view)
    ensures Clean(Judge(cfg, b, outs).0.view)
  {
    JudgeGrows(cfg, b, outs);
  }

  lemma StageClean(w: World, cfg: Config, pass: nat, b: Books, g: Group)
    requires Clean(b.view)
    ensures Clean(StageStep(w, cfg, pass, b, g).0.view)
  {
    LaunchClean(b, g);
    if !SomeEscape(w, pass, g.steps, b.outputs) {
      ByIdEscapes(w, pass, g.steps, b.outputs);
      var outs := OutcomesOf(w, pass, ById(g.steps), b.outputs);
      PersistedClean(Launch(b, g), outs);
      JudgedClean(cfg, Persisted(Launch(b, g), outs), outs);
    }
  }

  lemma {:induction false} StagesClean(w: World, cfg: Config, pass: nat, b: Books, groups: seq<Group>)
    requires Clean(b.view)
    ensures Clean(RunStages(w, cfg, pass, b, groups).0.view)
    decreases |groups|
  {
    if groups != [] && !w.cancelled(pass, groups[0].stage) {
      var (b1, v1) := StageStep(w, cfg, pass, b, groups[0]);
      StageClean(w, cfg, pass, b, groups[0]);
      if v1.GoOn? {
        StagesClean(w, cfg, pass, b1, groups[1..]);
      }
    }
  }

  lemma {:induction false} PlannerClean(w: World, cfg: Config, pass: nat, attempt: nat, agg: Tally, v: View)
    requires Clean(v)
    ensures Clean(CallPlanner(w, cfg, pass, attempt, agg, v).0)
    decreases MAX_PLANNER_RETRIES + 1 - attempt
  {
    if attempt <= MAX_PLANNER_RETRIES {
      CleanStep(v, Ask);
      if w.planner(pass, attempt).Reply? {
        var r := w.planner(pass, attempt).reply;
        PlannerClean(w, cfg, pass, attempt + 1, Charge(agg, r.usage, r.cost), Do(v, Ask));
      }
    }
  }

  lemma AdoptClean(b: Books, plan: Plan, payload: Json, spent: Tally, first: bool)
    requires Clean(b.view)
    ensures Clean(Adopt(b, plan, payload, spent, first).view)
  {
    var row := PlanRow(b.runSeq + 1, plan, payload, spent.usage);
    var v1 := Do(b.view, AddRow(row));
    CleanDo(b.view, AddRow(row));
    if first {
      CleanDo(v1, SetPlan(payload));
      CleanDo(Do(v1, SetPlan(payload)), Commit);
    } else {
      CleanDo(v1, Commit);
    }
  }

  lemma NextPlanClean(w: World, cfg: Config, b: Books)
    requires Clean(b.view)
    ensures Clean(NextPlan(w, cfg, b).books.view)
  {
    PlannerClean(w, cfg, b.replans, 0, ZERO_TALLY, b.view);
    var (view, end) := CallPlanner(w, cfg, b.replans, 0, ZERO_TALLY, b.view);
    if end.Planned? {
      AdoptClean(b.(view := view), end.plan, end.payload, end.spent, false);
    }
  }

  lemma TurnClean(w: World, cfg: Config, b: Books)
    requires Clean(b.view)
    ensures Clean(PassTurn(w, cfg, b).books.view)
  {
    if !w.cancelled(b.replans, 0) && NotDone(b.plan.steps, b.completed) != [] {
      var r := RunStages(w, cfg, b.replans, b, Groups(NotDone(b.plan.steps, b.completed)));
      StagesClean(w, cfg, b.replans, b, Groups(NotDone(b.plan.steps, b.completed)));
      PassTurnIs(w, cfg, b, r.0, r.1);
      if r.1.AskReplan? && b.replans < MAX_REPLANS {
        CleanStep(r.0.view, Emit(Working(Planning)));
        NextPlanClean(w, cfg, Replanning(r.0, b.replans));
      }
    }
  }

  lemma {:induction false} PassesClean(w: World, cfg: Config, b: Books)
    requires Clean(b.view)
    ensures Clean(Passes(w, cfg, b).0.view)
    decreases MAX_REPLANS + 1 - b.replans
  {
    TurnClean(w, cfg, b);
    var t := PassTurn(w, cfg, b);
    if t.Continues? {
      PassesClean(w, cfg, t.books);
    }
  }

  /** A message, its commit, and two events. */
  lemma OpensClean(v: View, said: Action, saved: Action, first: Action, second: Action)
    requires CleanAsks(v.log) && said.AddMessage? && saved.Commit? && first.Emit? && second.Emit?
    ensures Clean(Do(Do(Do(Do(v, said), saved), first), second))
  {
    CleanDo(v, said);
    CleanDo(Do(v, said), saved);
    CleanStep(Do(Do(v, said), saved), first);
    CleanStep(Do(Do(Do(v, said), saved), first), second);
  }

  lemma OpeningClean(start: Db, cfg: Config)
    ensures Clean(Opening(cfg, start))
  {
    OpensClean(View(start, start, []), AddMessage(User, cfg.userText, [], None), Commit, Emit(Working(Plain)),
               Emit(Working(Planning)));
  }

  lemma PhasesClean(w: World, cfg: Config, start: Db)
    ensures Clean(PlanAndExecute(w, cfg, start).0.view)
  {
    OpeningClean(start, cfg);
    PlannerClean(w, cfg, 0, 0, ZERO_TALLY, Opening(cfg, start));
    var (v, end) := CallPlanner(w, cfg, 0, 0, ZERO_TALLY, Opening(cfg, start));
    if end.Planned? {
      AdoptClean(EmptyBooks(v), end.plan, end.payload, end.spent, true);
      PassesClean(w, cfg, Adopt(EmptyBooks(v), end.plan, end.payload, end.spent, true));
    }
  }

  // ----- the exits -------------------------------------------------------------------------

  lemma ClosedTidy(v: View, c: Closing)
    requires CleanAsks(v.log)
    ensures CleanAsks(CloseView(v, c).log)
  {
    var w := Do(v, Finalize(c));
    CleanDo(v, Finalize(c));
    match c.status {
      case Completed =>
        var a := Emit(Artifact(if c.answer.Some? then c.answer.value else ""));
        CleanDo(w, a);
        CleanDo(Do(w, a), Emit(CompletedEvent));
      case Failed => CleanDo(w, Emit(FailedEvent(if c.reason.Some? then c.reason.value else InternalError)));
      case _ => CleanDo(w, Emit(CanceledEvent));
    }
  }

  lemma ClosesTidy(v: View, row: Action, said: Action, c: Closing)
    requires CleanAsks(v.log) && row.AddRow? && said.AddMessage?
    ensures CleanAsks(Do(v, row).log) && CleanAsks(CloseView(Do(Do(v, row), said), c).log)
  {
    CleanDo(v, row);
    CleanDo(Do(v, row), said);
    ClosedTidy(Do(Do(v, row), said), c);
  }

  lemma AnsweredTidy(b: Books, r: ChatReply, hitTokens: bool)
    requires CleanAsks(b.view.log)
    ensures CleanAsks(Answered(b, r, hitTokens).view.log)
  {
    ClosesTidy(b.view, AddRow(TextRow(b.runSeq + 1, Trace.Synthesis, r.content, r.usage)),
               AddMessage(AssistantSpeaker, r.content, [], None),
               Closing(Completed, if hitTokens then Some(MaxTokens) else None, Some(r.content), b.tally, 1));
  }

  lemma FailedTidy(b: Books, reason: Reason, loops: nat)
    requires CleanAsks(b.view.log)
    ensures CleanAsks(FailedWith(b, reason, loops).view.log)
  {
    ClosedTidy(b.view, Closing(Failed, Some(reason), None, b.tally, loops));
  }

  lemma SynthesisAsked(v: View)
    requires Clean(v)
    ensures Clean(Do(Do(v, Emit(Working(Synthesizing))), Ask))
  {
    CleanStep(v, Emit(Working(Synthesizing)));
    CleanStep(Do(v, Emit(Working(Synthesizing))), Ask);
  }

  lemma ReasonedClean(v: View, r: ChatReply)
    requires Clean(v)
    ensures Clean(WithReasoning(v, r))
  {
    if !Blank(r.reasoning) {
      CleanStep(v, Emit(Working(Reasoning(Strip(r.reasoning)))));
    }
  }

  lemma SynthesizeTidy(w: World, cfg: Config, b: Books, hitTokens: bool)
    requires Clean(b.view)
    ensures CleanAsks(Synthesize(w, cfg, b, hitTokens).view.log)
  {
    if SkipSynthesis(b.tally.usage.tokensOut, cfg.maxTokens, |FormatOutputs(b.outputs)|) {
      FailedTidy(b, GuardrailNoSynthesis, 0);
    } else {
      var v := Do(Do(b.view, Emit(Working(Synthesizing))), Ask);
      SynthesisAsked(b.view);
      match w.synthesis {
        case ProviderError => FailedTidy(b.(view := v), LlmProviderError, 0);
        case Reply(r) =>
          ReasonedClean(v, r);
          RepliedTidy(b.(view := WithReasoning(v, r), tally := Charge(b.tally, r.usage, r.cost)), r, hitTokens);
      }
    }
  }

  lemma RepliedTidy(b: Books, r: ChatReply, hitTokens: bool)
    requires CleanAsks(b.view.log)
    ensures CleanAsks(Synthesized(b, r, hitTokens).view.log)
  {
    match EmptyReason(r) {
      case Some(reason) => FailedTidy(b, reason, 1);
      case None => AnsweredTidy(b, r, hitTokens);
    }
  }

  lemma ConcludeTidy(w: World, cfg: Config, b: Books, f: Finish)
    requires Clean(b.view)
    ensures CleanAsks(Conclude(w, cfg, b, f).view.log)
  {
    match f {
      case WasCancelled => ClosedTidy(b.view, Closing(Cancelled, Some(CancelRequested), None, b.tally, 0));
      case StepFailure => FailedTidy(b, StepFailed, 0);
      case TooManyReplans => FailedTidy(b, ReplanExceeded, 0);
      case PlannerGaveUp(reason, spent) => FailedTidy(b.(tally := Charge(b.tally, spent.usage, spent.cost)), reason, 0);
      case Escape =>
      case AllDone => SynthesizeTidy(w, cfg, b, false);
      case HitTokens => SynthesizeTidy(w, cfg, b, true);
    }
  }

  lemma RunTidy(w: World, cfg: Config, start: Db)
    ensures CleanAsks(RunResult(w, cfg, start).view.log)
  {
    if |start.messages| >= HARD_CAP {
      var v0 := View(start, start, []);
      var a1, a2 := Finalize(ContextFullClosing()), Emit(Working(Plain));
      CleanDo(v0, a1);
      CleanDo(Do(v0, a1), a2);
      CleanDo(Do(Do(v0, a1), a2), Emit(FailedEvent(ContextFull)));
    } else {
      var (b, f) := PlanAndExecute(w, cfg, start);
      PhasesClean(w, cfg, start);
      ConcludeTidy(w, cfg, b, f);
    }
  }

  /** A run cut while it waits for the provider leaves everything it has written stored. */
  lemma WaitingIsSafe(start: Db, w: World, cfg: Config, k: nat, flagSet: bool, why: Interruption, tally: Tally, loops: nat)
    requires k < |RunResult(w, cfg, start).view.log| && RunResult(w, cfg, start).view.log[k].Ask?
    ensures var log := RunResult(w, cfg, start).view.log[..k + 1];
            var db := AfterFinally(Replay(start, log), flagSet, why, tally, loops).0;
            db.rows == Replay(start, log).db.rows && db.messages == Replay(start, log).db.messages
  {
    RunTidy(w, cfg, start);
    WaitingLosesNothing(start, RunResult(w, cfg, start).view.log, k, flagSet, why, tally, loops);
  }
}
