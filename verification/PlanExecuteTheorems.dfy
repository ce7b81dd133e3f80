/** The promises of a Plan & Execute run, for every world: any planner, any tool, any model, any cancel. */
module PlanExecuteTheorems {
  import opened Basics
  import opened Sequences
  import opened Trace
  import opened Protocol
  import opened Invariants
  import opened Tools
  import opened PlanValidator
  import opened Stages
  import opened Substitution
  import opened Synthesis
  import opened StepRunner
  import opened PlanExecuteSpec
  import opened PlanExecuteFacts
  import opened PlanExecutePasses
  import opened Cuts

  // ----- how the exits leave the books -----------------------------------------------------

  /** An exit taken from books `b`: the rows are those of `b`, plus the synthesis row of an answered run. */
  ghost predicate ExitFrom(start: Db, b: Books, e: Exit) {
    && ExitOk(start, e)
    && Asks(e.view.log) <= Asks(b.view.log) + 1
    && Numbered(e.view.db.rows)
    && (e.view.db.rows == b.view.db.rows || (e.view.db.rows != [] && e.view.db.rows[..|e.view.db.rows| - 1] == b.view.db.rows))
    && (e.view.db.rows != b.view.db.rows ==>
          e.view.db.rows[|e.view.db.rows| - 1].role == Trace.Synthesis && e.view.db.rows[|e.view.db.rows| - 1].mark.None?)
    && (e.Left? && e.view.db.run.status == Completed ==> Answer(b, e))
    && (e.Raised? ==> e.tally.usage == SumUsage(e.view.db.rows))
  }

  /** A completed run: the last row is the answer, it is not blank, it is the last message of the conversation,
      and the stored totals are exactly the sums over the rows. */
  ghost predicate Answer(b: Books, e: Exit) {
    var db := e.view.db;
    && |db.rows| == |b.view.db.rows| + 1
    && db.run.answer.Some? && !Blank(db.run.answer.value)
    && db.rows[|db.rows| - 1].content == db.run.answer
    && db.run.tally.usage == SumUsage(db.rows)
    && db.messages != [] && db.messages[|db.messages| - 1].role == AssistantSpeaker
    && db.messages[|db.messages| - 1].content == db.run.answer.value
    && db.run.loops == 1
  }

  lemma PlainExit(start: Db, b: Books, c: Closing)
    requires Calm(start, b.view) && Numbered(b.view.db.rows) && WellFormed(c) && !c.status.Completed?
    ensures ExitFrom(start, b, Left(CloseView(b.view, c))) && CloseView(b.view, c).db.rows == b.view.db.rows
  {
    ClosedExit(start, b.view, c);
    CloseViewDb(b.view, c);
  }

  lemma RaisedFrom(start: Db, b: Books, loops: nat)
    requires Calm(start, b.view) && Balanced(b.view, b.tally.usage, b.runSeq, 0)
    ensures ExitFrom(start, b, Raised(b.view, b.tally, loops))
  {
    RaisedExit(start, b.view, b.tally, loops);
  }

  function AnswerRow(b: Books, r: ChatReply): StepRow {
    TextRow(b.runSeq + 1, Trace.Synthesis, r.content, r.usage)
  }

  lemma AnsweredRow(start: Db, b: Books, usage: Usage, r: ChatReply)
    requires Calm(start, b.view) && Balanced(b.view, usage, b.runSeq, 0)
    ensures var v := Do(b.view, AddRow(AnswerRow(b, r)));
            && Calm(start, v) && Balanced(v, Plus(usage, r.usage), b.runSeq + 1, 0)
            && Asks(v.log) == Asks(b.view.log)
  {
    CalmDo(start, b.view, AddRow(AnswerRow(b, r)));
    AsksSnoc(b.view.log, AddRow(AnswerRow(b, r)));
    BalancedRow(b.view, usage, b.runSeq, 0, AnswerRow(b, r));
  }

  /** The synthesis row closes the trace of `b0`. */
  lemma AnswerRowFits(start: Db, b0: Books, b: Books, usage: Usage, r: ChatReply)
    requires Calm(start, b.view) && Balanced(b.view, usage, b.runSeq, 0) && b.view.db == b0.view.db
    ensures var rows := b0.view.db.rows + [AnswerRow(b, r)];
            && Do(b.view, AddRow(AnswerRow(b, r))).db.rows == rows && Numbered(rows)
            && rows != [] && rows[..|rows| - 1] == b0.view.db.rows && rows != b0.view.db.rows
            && rows[|rows| - 1] == AnswerRow(b, r)
  {
    AnsweredRow(start, b, usage, r);
    Snoc(b.view.db.rows, AnswerRow(b, r));
  }

  lemma AnsweredExit(start: Db, b0: Books, b: Books, usage: Usage, r: ChatReply, hitTokens: bool)
    requires Calm(start, b.view) && Balanced(b.view, usage, b.runSeq, 0)
    requires b.tally.usage == Plus(usage, r.usage) && !Blank(r.content)
    requires b.view.db == b0.view.db && Asks(b.view.log) <= Asks(b0.view.log) + 1
    ensures ExitFrom(start, b0, Answered(b, r, hitTokens))
  {
    var v := Do(b.view, AddRow(AnswerRow(b, r)));
    AnsweredRow(start, b, usage, r);
    AnswerRowFits(start, b0, b, usage, r);
    if |v.db.messages| >= HARD_CAP {
      RaisedExit(start, v, b.tally, 1);
    } else {
      var c := Closing(Completed, if hitTokens then Some(MaxTokens) else None, Some(r.content), b.tally, 1);
      AnsweredCompleted(start, b0, v, c, AnswerRow(b, r));
    }
  }

  /** Closing with the answer whose row was just written. */
  lemma AnsweredCompleted(start: Db, b0: Books, v: View, c: Closing, row: StepRow)
    requires Calm(start, v) && WellFormed(c) && c.status.Completed? && !Blank(c.answer.value) && c.loops == 1
    requires Asks(v.log) <= Asks(b0.view.log) + 1
    requires v.db.rows == b0.view.db.rows + [row] && Numbered(v.db.rows) && c.tally.usage == SumUsage(v.db.rows)
    requires row.role == Trace.Synthesis && row.mark.None? && row.content == c.answer
    ensures ExitFrom(start, b0, Left(CloseView(Do(v, AddMessage(AssistantSpeaker, c.answer.value, [], None)), c)))
  {
    AnsweredClosing(start, v, c);
    Snoc(b0.view.db.rows, row);
  }

  /** An answered run is completed, for `max_tokens` when that ended the passes. */
  lemma AnsweredReason(b: Books, r: ChatReply, hitTokens: bool)
    ensures SynthesisEnd(Answered(b, r, hitTokens), hitTokens)
    ensures Answered(b, r, hitTokens).Left? ==> Answered(b, r, hitTokens).view.db.run.status == Completed
  {
    var v := Do(b.view, AddRow(AnswerRow(b, r)));
    CloseViewDb(Do(v, AddMessage(AssistantSpeaker, r.content, [], None)),
                Closing(Completed, if hitTokens then Some(MaxTokens) else None, Some(r.content), b.tally, 1));
  }

  /** Storing the answer and closing with it. */
  lemma AnsweredClosing(start: Db, v: View, c: Closing)
    requires Calm(start, v) && WellFormed(c) && c.status.Completed?
    ensures var u := Do(v, AddMessage(AssistantSpeaker, c.answer.value, [], None));
            && ExitOk(start, Left(CloseView(u, c)))
            && CloseView(u, c).db == u.db.(run := Finalized(u.db.run, c))
            && Asks(CloseView(u, c).log) == Asks(v.log)
  {
    var a := AddMessage(AssistantSpeaker, c.answer.value, [], None);
    AnnouncedDo(start, v, a);
    AsksSnoc(v.log, a);
    ClosedExit(start, Do(v, a), c);
    CloseViewDb(Do(v, a), c);
  }

  /** What the synthesis phase ends in. */
  ghost predicate SynthesisEnd(e: Exit, hitTokens: bool) {
    && (e.Left? && e.view.db.run.status == Completed ==>
          e.view.db.run.reason == if hitTokens then Some(MaxTokens) else None)
    && (e.Left? && e.view.db.run.status != Completed ==>
          && e.view.db.run.status == Failed && e.view.db.run.reason.Some?
          && (e.view.db.run.reason.value.GuardrailNoSynthesis? || e.view.db.run.reason.value.LlmProviderError?
              || e.view.db.run.reason.value.MaxTokens? || e.view.db.run.reason.value.ContentFilter?
              || e.view.db.run.reason.value.EmptyResponse?))
    && (e.Raised? ==> e.loops == 1)
  }

  lemma SynthesisStart(start: Db, b: Books)
    requires Calm(start, b.view)
    ensures var v := Do(Do(b.view, Emit(Working(Synthesizing))), Ask);
            Calm(start, v) && v.db == b.view.db && Asks(v.log) == Asks(b.view.log) + 1
  {
    CalmDo(start, b.view, Emit(Working(Synthesizing)));
    AsksSnoc(b.view.log, Emit(Working(Synthesizing)));
    CalmDo(start, Do(b.view, Emit(Working(Synthesizing))), Ask);
    AsksSnoc(Do(b.view, Emit(Working(Synthesizing))).log, Ask);
  }

  lemma FailedExit(start: Db, b0: Books, b: Books, reason: Reason, loops: nat)
    requires Calm(start, b.view) && Numbered(b.view.db.rows)
    requires b.view.db == b0.view.db && Asks(b.view.log) <= Asks(b0.view.log) + 1
    ensures ExitFrom(start, b0, FailedWith(b, reason, loops))
    ensures FailedWith(b, reason, loops).view.db.rows == b0.view.db.rows
    ensures FailedWith(b, reason, loops).view.db.run.status == Failed
    ensures FailedWith(b, reason, loops).view.db.run.reason == Some(reason)
  {
    var c := Closing(Failed, Some(reason), None, b.tally, loops);
    ClosedExit(start, b.view, c);
    CloseViewDb(b.view, c);
  }

  lemma ReplyExit(start: Db, b0: Books, b: Books, usage: Usage, r: ChatReply, hitTokens: bool)
    requires Calm(start, b.view) && Balanced(b.view, usage, b.runSeq, 0) && b.tally.usage == Plus(usage, r.usage)
    requires b.view.db == b0.view.db && Asks(b.view.log) <= Asks(b0.view.log) + 1
    ensures ExitFrom(start, b0, Synthesized(b, r, hitTokens))
    ensures SynthesisEnd(Synthesized(b, r, hitTokens), hitTokens)
  {
    if EmptyReason(r).Some? {
      FailedExit(start, b0, b, EmptyReason(r).value, 1);
    } else {
      AnsweredExit(start, b0, b, usage, r, hitTokens);
      AnsweredReason(b, r, hitTokens);
    }
  }

  lemma SynthesizeExit(start: Db, w: World, cfg: Config, b: Books, hitTokens: bool)
    requires Calm(start, b.view) && Balanced(b.view, b.tally.usage, b.runSeq, 0)
    ensures ExitFrom(start, b, Synthesize(w, cfg, b, hitTokens))
    ensures SynthesisEnd(Synthesize(w, cfg, b, hitTokens), hitTokens)
  {
    if SkipSynthesis(b.tally.usage.tokensOut, cfg.maxTokens, |FormatOutputs(b.outputs)|) {
      FailedExit(start, b, b, GuardrailNoSynthesis, 0);
    } else {
      var v := Do(Do(b.view, Emit(Working(Synthesizing))), Ask);
      SynthesisStart(start, b);
      match w.synthesis {
        case ProviderError => FailedExit(start, b, b.(view := v), LlmProviderError, 0);
        case Reply(r) =>
          CalmReasoning(start, v, r);
          var b1 := b.(view := WithReasoning(v, r), tally := Charge(b.tally, r.usage, r.cost));
          ReplyExit(start, b, b1, b.tally.usage, r, hitTokens);
      }
    }
  }

  // ----- the run ---------------------------------------------------------------------------

  /** A run as `create_run` leaves it, in any conversation. */
  predicate FreshStart(start: Db) {
    start.run == FRESH_RUN && start.rows == []
  }

  /** Either the first planner round failed and there is nothing in the trace, or the phases ran. */
  predicate RanFrom(start: Db, cfg: Config, b: Books, f: PlanExecuteSpec.Finish) {
    || PhaseLeft(start, cfg, b, f)
    || (&& f.PlannerGaveUp? && (f.reason.LlmProviderError? || f.reason.PlanningFailed?)
        && Calm(start, b.view) && b.view.db.rows == [] && b == EmptyBooks(b.view))
  }

  lemma OpeningCalm(start: Db, cfg: Config)
    requires FreshStart(start)
    ensures Calm(start, Opening(cfg, start)) && Asks(Opening(cfg, start).log) == 0
    ensures Opening(cfg, start).db.rows == []
  {
    OpeningIsCalm(start, cfg.userText);
    var v0 := OpeningView(start, cfg.userText);
    CalmDo(start, v0, Emit(Working(Planning)));
    AsksSnoc(v0.log, Emit(Working(Planning)));
  }

  /** The first plan, taken on with empty books. */
  lemma FirstPlan(start: Db, cfg: Config, v: View, plan: Plan, payload: Json, spent: Tally)
    requires Calm(start, v) && v.db.rows == [] && ValidPlan(plan, cfg.maxSteps, cfg.tools)
    ensures var b := Adopt(EmptyBooks(v), plan, payload, spent, true);
            PassStart(start, cfg, b) && Asks(b.view.log) == Asks(v.log)
  {
    BalancedEmpty(v);
    AdoptKeeps(start, cfg, EmptyBooks(v), plan, payload, spent, true);
  }

  lemma RunPhases(start: Db, w: World, cfg: Config)
    requires FreshStart(start) && cfg.maxSteps >= 1
    ensures var (b, f) := PlanAndExecute(w, cfg, start);
            RanFrom(start, cfg, b, f) && Asks(b.view.log) <= 2 + Budget(cfg.maxSteps, 0)
  {
    OpeningCalm(start, cfg);
    PlannerKeeps(start, w, cfg, 0, 0, ZERO_TALLY, Opening(cfg, start));
    var (v, end) := CallPlanner(w, cfg, 0, 0, ZERO_TALLY, Opening(cfg, start));
    if end.Planned? {
      FirstPlan(start, cfg, v, end.plan, end.payload, end.spent);
      PassesKeep(start, w, cfg, Adopt(EmptyBooks(v), end.plan, end.payload, end.spent, true));
    }
  }

  lemma ConcludeExit(start: Db, w: World, cfg: Config, b: Books, f: PlanExecuteSpec.Finish)
    requires RanFrom(start, cfg, b, f)
    ensures ExitFrom(start, b, Conclude(w, cfg, b, f))
    ensures Conclude(w, cfg, b, f).view.db.rows != b.view.db.rows ==> f.AllDone? || f.HitTokens?
  {
    match f {
      case WasCancelled => PlainExit(start, b, Closing(Cancelled, Some(CancelRequested), None, b.tally, 0));
      case StepFailure => FailedExit(start, b, b, StepFailed, 0);
      case TooManyReplans => FailedExit(start, b, b, ReplanExceeded, 0);
      case PlannerGaveUp(reason, spent) =>
        FailedExit(start, b, b.(tally := Charge(b.tally, spent.usage, spent.cost)), reason, 0);
      case Escape => RaisedFrom(start, b, 0);
      case AllDone => SynthesizeExit(start, w, cfg, b, false);
      case HitTokens => SynthesizeExit(start, w, cfg, b, true);
    }
  }

  /** A run whose conversation had room: the phases, and the exit taken from where they ended. */
  ghost predicate Ended(start: Db, w: World, cfg: Config, b: Books, f: PlanExecuteSpec.Finish, e: Exit) {
    && RanFrom(start, cfg, b, f) && Asks(b.view.log) <= 2 + Budget(cfg.maxSteps, 0)
    && ExitFrom(start, b, e)
    && (e.view.db.rows != b.view.db.rows ==> f.AllDone? || f.HitTokens?)
  }

  lemma RunEnds(start: Db, w: World, cfg: Config)
    requires FreshStart(start) && cfg.maxSteps >= 1 && |start.messages| < HARD_CAP
    ensures var (b, f) := PlanAndExecute(w, cfg, start); Ended(start, w, cfg, b, f, RunResult(w, cfg, start))
  {
    var (b, f) := PlanAndExecute(w, cfg, start);
    RunPhases(start, w, cfg);
    ConcludeExit(start, w, cfg, b, f);
  }

  /** The stream of every run agrees with the database: `working` first, exactly one final event, last, after
      the committed terminal row and with its status and reason; the artifact exactly when the run completed. */
  lemma StreamAgreesWithDatabase(start: Db, w: World, cfg: Config)
    requires FreshStart(start) && cfg.maxSteps >= 1
    ensures ExitOk(start, RunResult(w, cfg, start))
  {
    if |start.messages| >= HARD_CAP {
      ContextFullExit(start);
    } else {
      RunEnds(start, w, cfg);
    }
  }

  /** Whatever happens, and wherever the run is cut, it settles exactly once and ends closed. */
  lemma OneTerminalWrite(start: Db, w: World, cfg: Config, n: nat, flagSet: bool, why: Interruption, tally: Tally, loops: nat)
    requires FreshStart(start) && cfg.maxSteps >= 1 && n <= |RunResult(w, cfg, start).view.log|
    ensures ClosesOnce(start, RunResult(w, cfg, start).view.log[..n], flagSet, why, tally, loops)
  {
    StreamAgreesWithDatabase(start, w, cfg);
    var e := RunResult(w, cfg, start);
    ExitClosesOnce(start, e, n, flagSet, why, tally, loops);
  }

  lemma BudgetValue(maxSteps: int)
    ensures Budget(maxSteps, 0) == 4 * maxSteps + 6
  {
    assert Budget(maxSteps, 3) == maxSteps;
    assert Budget(maxSteps, 2) == maxSteps + 2 + Budget(maxSteps, 3);
    assert Budget(maxSteps, 1) == maxSteps + 2 + Budget(maxSteps, 2);
    assert Budget(maxSteps, 0) == maxSteps + 2 + Budget(maxSteps, 1);
  }

  /** Four planner rounds of two calls, four passes of at most `maxSteps` steps, one synthesis. */
  lemma ChatCallsBounded(start: Db, w: World, cfg: Config)
    requires FreshStart(start) && cfg.maxSteps >= 1
    ensures Asks(RunResult(w, cfg, start).view.log) <= 9 + 4 * cfg.maxSteps
  {
    if |start.messages| >= HARD_CAP {
      ContextFullAsks(start);
    } else {
      RunEnds(start, w, cfg);
      BudgetValue(cfg.maxSteps);
    }
  }

  lemma ContextFullAsks(start: Db)
    ensures Asks(ContextFullView(View(start, start, [])).log) == 0
  {
    var v := View(start, start, []);
    var c := ContextFullClosing();
    AsksSnoc(v.log, Finalize(c));
    AsksSnoc(Do(v, Finalize(c)).log, Emit(Working(Plain)));
    AsksSnoc(Do(Do(v, Finalize(c)), Emit(Working(Plain))).log, Emit(FailedEvent(ContextFull)));
  }

  // ----- trace, tokens, stability ----------------------------------------------------------

  /** The trace of a run is in the language (plan step_result*)+ synthesis?, or empty when planning failed. */
  predicate TraceOk(rows: seq<StepRow>) {
    && Numbered(rows)
    && (PhaseOf(rows).AtStart? || PhaseOf(rows).InPlan? || PhaseOf(rows).AfterSynthesis?)
    && PlanRows(rows) <= MAX_REPLANS + 1
    && OneSuccessPerId(rows)
  }

  lemma TraceWithAnswer(rows: seq<StepRow>, rows': seq<StepRow>)
    requires rows' != [] && rows'[..|rows'| - 1] == rows && rows'[|rows'| - 1].role == Trace.Synthesis
    requires PhaseOf(rows).InPlan? && PlanRows(rows) <= MAX_REPLANS + 1 && OneSuccessPerId(rows) && Numbered(rows')
    requires rows'[|rows'| - 1].mark.None?
    ensures TraceOk(rows') && PhaseOf(rows').AfterSynthesis?
  {
  }

  lemma BooksTrace(start: Db, cfg: Config, b: Books, f: PlanExecuteSpec.Finish)
    requires RanFrom(start, cfg, b, f)
    ensures TraceOk(b.view.db.rows) && (f.AllDone? || f.HitTokens? ==> PhaseOf(b.view.db.rows).InPlan?)
  {
    if b.view.db.rows == [] {
      assert PhaseOf(b.view.db.rows) == AtStart;
    }
  }

  lemma ExitTrace(start: Db, cfg: Config, b: Books, f: PlanExecuteSpec.Finish, e: Exit)
    requires RanFrom(start, cfg, b, f) && ExitFrom(start, b, e)
    requires e.view.db.rows != b.view.db.rows ==> f.AllDone? || f.HitTokens?
    ensures TraceOk(e.view.db.rows)
    ensures e.Left? && e.view.db.run.status == Completed ==> PhaseOf(e.view.db.rows).AfterSynthesis?
  {
    BooksTrace(start, cfg, b, f);
    if e.view.db.rows != b.view.db.rows {
      TraceWithAnswer(b.view.db.rows, e.view.db.rows);
    }
  }

  lemma EmptyTraceOk(rows: seq<StepRow>)
    requires rows == []
    ensures TraceOk(rows)
  {
  }

  /** Every run leaves a trace in the language, rows numbered 1..n, no step id with two success rows. */
  lemma TraceLanguage(start: Db, w: World, cfg: Config)
    requires FreshStart(start) && cfg.maxSteps >= 1
    ensures TraceOk(RunResult(w, cfg, start).view.db.rows)
    ensures var e := RunResult(w, cfg, start);
            e.Left? && e.view.db.run.status == Completed ==> PhaseOf(e.view.db.rows).AfterSynthesis?
  {
    if |start.messages| >= HARD_CAP {
      EmptyTraceOk(RunResult(w, cfg, start).view.db.rows);
      ContextFullFails(start);
    } else {
      var (b, f) := PlanAndExecute(w, cfg, start);
      RunEnds(start, w, cfg);
      ExitTrace(start, cfg, b, f, RunResult(w, cfg, start));
    }
  }

  lemma {:induction false} PhaseBefore(rows: seq<StepRow>, later: seq<StepRow>)
    requires rows <= later && !PhaseOf(later).Broken?
    ensures !PhaseOf(rows).Broken? && PlanRows(rows) <= PlanRows(later)
    decreases |later|
  {
    if |rows| < |later| {
      assert rows <= later[..|later| - 1];
      PhaseBefore(rows, later[..|later| - 1]);
    } else {
      assert rows == later;
    }
  }

  lemma TraceBefore(rows: seq<StepRow>, later: seq<StepRow>)
    requires rows <= later && TraceOk(later)
    ensures TraceOk(rows)
  {
    PhaseBefore(rows, later);
    assert forall i :: 0 <= i < |rows| ==> rows[i] == later[i];
  }

  /** Wherever a run is cut, what is stored after the `finally` block is a trace in the language as well, and the run, had
      it gone on, would only have added to it. */
  lemma TraceAtACut(start: Db, w: World, cfg: Config, n: nat, flagSet: bool, why: Interruption, tally: Tally, loops: nat)
    requires FreshStart(start) && cfg.maxSteps >= 1 && n <= |RunResult(w, cfg, start).view.log|
    ensures var e := RunResult(w, cfg, start);
            var db := AfterFinally(Replay(start, e.view.log[..n]), flagSet, why, tally, loops).0;
            TraceOk(db.rows) && GrowsTo(db, e.view.db)
  {
    var e := RunResult(w, cfg, start);
    StreamAgreesWithDatabase(start, w, cfg);
    TraceLanguage(start, w, cfg);
    LeftAtACut(start, e, n, flagSet, why, tally, loops);
    TraceBefore(AfterFinally(Replay(start, e.view.log[..n]), flagSet, why, tally, loops).0.rows, e.view.db.rows);
  }

  /** A completed run's totals are the sums over its rows, and its answer is stored once: as answer, as last
      row and as last message, and never blank. */
  predicate CompletedBooks(db: Db) {
    && db.run.tally.usage == SumUsage(db.rows)
    && db.run.answer.Some? && !Blank(db.run.answer.value)
    && db.rows != [] && db.rows[|db.rows| - 1].content == db.run.answer
    && db.messages != [] && db.messages[|db.messages| - 1].content == db.run.answer.value
  }

  lemma AnswerBooks(start: Db, b: Books, e: Exit)
    requires ExitFrom(start, b, e) && e.Left? && e.view.db.run.status == Completed
    ensures CompletedBooks(e.view.committed)
  {
  }

  lemma ContextFullFails(start: Db)
    ensures ContextFullView(View(start, start, [])).committed.run.status == Failed
  {
  }

  lemma ConcludedBooks(start: Db, b: Books, e: Exit)
    requires ExitFrom(start, b, e)
    ensures e.Left? && e.view.committed.run.status == Completed ==> CompletedBooks(e.view.committed)
  {
    if e.Left? && e.view.db.run.status == Completed {
      AnswerBooks(start, b, e);
    }
  }

  /** For every completed run the stored token totals are exactly the sums over its step rows, across planner
      retries and replans. */
  lemma TokensConserved(start: Db, w: World, cfg: Config)
    requires FreshStart(start) && cfg.maxSteps >= 1
    ensures var e := RunResult(w, cfg, start);
            e.Left? && e.view.committed.run.status == Completed ==> CompletedBooks(e.view.committed)
  {
    if |start.messages| >= HARD_CAP {
      ContextFullFails(start);
    } else {
      RunEnds(start, w, cfg);
      ConcludedBooks(start, PlanAndExecute(w, cfg, start).0, RunResult(w, cfg, start));
    }
  }

  // ----- totals of the other endings -------------------------------------------------------

  /** What was spent without a row: the rounds of a planner that gave up, and a synthesis reply that was no answer. */
  ghost function Unrecorded(w: World, cfg: Config, b: Books, f: PlanExecuteSpec.Finish): Usage {
    match f
    case PlannerGaveUp(_, spent) => spent.usage
    case AllDone => UnusedSynthesis(w, cfg, b)
    case HitTokens => UnusedSynthesis(w, cfg, b)
    case _ => NO_USAGE
  }

  ghost function UnusedSynthesis(w: World, cfg: Config, b: Books): Usage {
    if SkipSynthesis(b.tally.usage.tokensOut, cfg.maxTokens, |FormatOutputs(b.outputs)|) then NO_USAGE
    else if w.synthesis.Reply? && EmptyReason(w.synthesis.reply).Some? then w.synthesis.reply.usage
    else NO_USAGE
  }

  /** The stored totals are the rows' plus `extra`. */
  predicate TotalsAre(e: Exit, extra: Usage) {
    e.Left? ==> e.view.db.run.tally.usage == Plus(SumUsage(e.view.db.rows), extra)
  }

  lemma ClosedTotals(b: Books, c: Closing, extra: Usage)
    requires WellFormed(c) && c.tally.usage == Plus(SumUsage(b.view.db.rows), extra)
    ensures TotalsAre(Left(CloseView(b.view, c)), extra)
  {
    CloseViewDb(b.view, c);
  }

  lemma SettledTotals(b: Books)
    requires Balanced(b.view, b.tally.usage, b.runSeq, 0)
    ensures b.tally.usage == Plus(SumUsage(b.view.db.rows), NO_USAGE)
  {
    PlusNothing(SumUsage(b.view.db.rows));
  }

  lemma ReplyTotals(start: Db, b: Books, usage: Usage, r: ChatReply, hitTokens: bool)
    requires Calm(start, b.view) && Balanced(b.view, usage, b.runSeq, 0) && usage == SumUsage(b.view.db.rows)
    requires b.tally.usage == Plus(usage, r.usage)
    ensures TotalsAre(Synthesized(b, r, hitTokens), if EmptyReason(r).Some? then r.usage else NO_USAGE)
  {
    if EmptyReason(r).Some? {
      ClosedTotals(b, Closing(Failed, EmptyReason(r), None, b.tally, 1), r.usage);
    } else {
      AnsweredTotals(start, usage, b, r, hitTokens);
    }
  }

  lemma BalancedSum(v: View, usage: Usage, runSeq: nat)
    requires Balanced(v, usage, runSeq, 0)
    ensures usage == SumUsage(v.db.rows)
  {
  }

  /** The books after a synthesis reply: the rows are untouched, the reply is charged. */
  lemma SynthesisCharged(start: Db, b: Books, r: ChatReply)
    requires Calm(start, b.view) && Balanced(b.view, b.tally.usage, b.runSeq, 0)
    ensures var v := WithReasoning(Do(Do(b.view, Emit(Working(Synthesizing))), Ask), r);
            Calm(start, v) && Balanced(v, b.tally.usage, b.runSeq, 0)
  {
    SynthesisStart(start, b);
    CalmReasoning(start, Do(Do(b.view, Emit(Working(Synthesizing))), Ask), r);
  }

  lemma SynthesisTotals(start: Db, w: World, cfg: Config, b: Books, hitTokens: bool)
    requires Calm(start, b.view) && Balanced(b.view, b.tally.usage, b.runSeq, 0)
    ensures TotalsAre(Synthesize(w, cfg, b, hitTokens), UnusedSynthesis(w, cfg, b))
  {
    var v := Do(Do(b.view, Emit(Working(Synthesizing))), Ask);
    SettledTotals(b);
    if SkipSynthesis(b.tally.usage.tokensOut, cfg.maxTokens, |FormatOutputs(b.outputs)|) {
      ClosedTotals(b, Closing(Failed, Some(GuardrailNoSynthesis), None, b.tally, 0), NO_USAGE);
    } else if w.synthesis.ProviderError? {
      ClosedTotals(b.(view := v), Closing(Failed, Some(LlmProviderError), None, b.tally, 0), NO_USAGE);
    } else {
      SynthesisReplyTotals(start, w, cfg, b, w.synthesis.reply, hitTokens);
    }
  }

  lemma SynthesisReplyTotals(start: Db, w: World, cfg: Config, b: Books, r: ChatReply, hitTokens: bool)
    requires Calm(start, b.view) && Balanced(b.view, b.tally.usage, b.runSeq, 0)
    requires !SkipSynthesis(b.tally.usage.tokensOut, cfg.maxTokens, |FormatOutputs(b.outputs)|)
    requires w.synthesis == Reply(r)
    ensures TotalsAre(Synthesize(w, cfg, b, hitTokens), UnusedSynthesis(w, cfg, b))
  {
    var v := WithReasoning(Do(Do(b.view, Emit(Working(Synthesizing))), Ask), r);
    SynthesisCharged(start, b, r);
    BalancedSum(v, b.tally.usage, b.runSeq);
    ReplyTotals(start, b.(view := v, tally := Charge(b.tally, r.usage, r.cost)), b.tally.usage, r, hitTokens);
  }

  lemma AnsweredTotals(start: Db, usage: Usage, b: Books, r: ChatReply, hitTokens: bool)
    requires Calm(start, b.view) && Balanced(b.view, usage, b.runSeq, 0)
    requires b.tally.usage == Plus(usage, r.usage) && !Blank(r.content)
    ensures TotalsAre(Answered(b, r, hitTokens), NO_USAGE)
  {
    AnsweredExit(start, b, b, usage, r, hitTokens);
    AnsweredReason(b, r, hitTokens);
    SumIsTotal(Answered(b, r, hitTokens));
  }

  lemma SumIsTotal(e: Exit)
    ensures e.Left? && e.view.db.run.tally.usage == SumUsage(e.view.db.rows) ==> TotalsAre(e, NO_USAGE)
  {
    PlusNothing(SumUsage(e.view.db.rows));
  }

  lemma ConcludeTotals(start: Db, w: World, cfg: Config, b: Books, f: PlanExecuteSpec.Finish)
    requires Calm(start, b.view) && Balanced(b.view, b.tally.usage, b.runSeq, 0)
    requires f.PlannerGaveUp? ==> f.reason.LlmProviderError? || f.reason.PlanningFailed?
    ensures TotalsAre(Conclude(w, cfg, b, f), Unrecorded(w, cfg, b, f))
  {
    SettledTotals(b);
    match f {
      case WasCancelled => ClosedTotals(b, Closing(Cancelled, Some(CancelRequested), None, b.tally, 0), NO_USAGE);
      case StepFailure => ClosedTotals(b, Closing(Failed, Some(StepFailed), None, b.tally, 0), NO_USAGE);
      case TooManyReplans => ClosedTotals(b, Closing(Failed, Some(ReplanExceeded), None, b.tally, 0), NO_USAGE);
      case PlannerGaveUp(reason, spent) =>
        ClosedTotals(b, Closing(Failed, Some(reason), None, Charge(b.tally, spent.usage, spent.cost), 0), spent.usage);
      case Escape =>
      case AllDone => SynthesisTotals(start, w, cfg, b, false);
      case HitTokens => SynthesisTotals(start, w, cfg, b, true);
    }
  }

  /** No planner and no synthesis reply reports a negative count. */
  ghost predicate HonestCounts(w: World) {
    && (forall pass: nat, attempt: nat :: w.planner(pass, attempt).Reply? ==> NonNegative(w.planner(pass, attempt).reply.usage))
    && (w.synthesis.Reply? ==> NonNegative(w.synthesis.reply.usage))
  }

  lemma {:induction false} SpentNonNegative(w: World, cfg: Config, pass: nat, attempt: nat, agg: Tally, v: View)
    requires HonestCounts(w) && NonNegative(agg.usage)
    ensures NonNegative(CallPlanner(w, cfg, pass, attempt, agg, v).1.spent.usage)
    decreases MAX_PLANNER_RETRIES + 1 - attempt
  {
    if attempt <= MAX_PLANNER_RETRIES && w.planner(pass, attempt).Reply? {
      var r := w.planner(pass, attempt).reply;
      SpentNonNegative(w, cfg, pass, attempt + 1, Charge(agg, r.usage, r.cost), Do(v, Ask));
    }
  }

  /** A phase that ends because the planner gave up has not spent less than nothing. */
  predicate SpentOk(f: PlanExecuteSpec.Finish) {
    f.PlannerGaveUp? ==> NonNegative(f.spent.usage)
  }

  predicate TurnSpentOk(t: PlanExecuteSpec.Turn) {
    t.Stops? ==> SpentOk(t.finish)
  }

  lemma NextPlanSpends(w: World, cfg: Config, b: Books)
    requires HonestCounts(w)
    ensures TurnSpentOk(NextPlan(w, cfg, b))
  {
    SpentNonNegative(w, cfg, b.replans, 0, ZERO_TALLY, b.view);
  }

  lemma PassSpends(w: World, cfg: Config, b: Books, b1: Books, v: Verdict)
    requires HonestCounts(w) && !w.cancelled(b.replans, 0) && NotDone(b.plan.steps, b.completed) != []
    requires RunStages(w, cfg, b.replans, b, Groups(NotDone(b.plan.steps, b.completed))) == (b1, v)
    ensures TurnSpentOk(PassTurn(w, cfg, b))
  {
    PassTurnIs(w, cfg, b, b1, v);
    NextPlanSpends(w, cfg, Replanning(b1, b.replans));
  }

  lemma TurnSpends(w: World, cfg: Config, b: Books)
    requires HonestCounts(w)
    ensures TurnSpentOk(PassTurn(w, cfg, b))
  {
    if !w.cancelled(b.replans, 0) && NotDone(b.plan.steps, b.completed) != [] {
      var (b1, v) := RunStages(w, cfg, b.replans, b, Groups(NotDone(b.plan.steps, b.completed)));
      PassSpends(w, cfg, b, b1, v);
    }
  }

  lemma {:induction false} PassesSpend(w: World, cfg: Config, b: Books)
    requires HonestCounts(w)
    ensures SpentOk(Passes(w, cfg, b).1)
    decreases MAX_REPLANS + 1 - b.replans
  {
    TurnSpends(w, cfg, b);
    var t := PassTurn(w, cfg, b);
    if t.Continues? {
      PassesSpend(w, cfg, t.books);
    }
  }

  lemma PhasesSpend(w: World, cfg: Config, start: Db)
    requires HonestCounts(w)
    ensures SpentOk(PlanAndExecute(w, cfg, start).1)
  {
    SpentNonNegative(w, cfg, 0, 0, ZERO_TALLY, Opening(cfg, start));
    var (v, end) := CallPlanner(w, cfg, 0, 0, ZERO_TALLY, Opening(cfg, start));
    if end.Planned? {
      PassesSpend(w, cfg, Adopt(EmptyBooks(v), end.plan, end.payload, end.spent, true));
    }
  }

  lemma RanBalanced(start: Db, cfg: Config, b: Books, f: PlanExecuteSpec.Finish)
    requires RanFrom(start, cfg, b, f)
    ensures Calm(start, b.view) && Balanced(b.view, b.tally.usage, b.runSeq, 0)
    ensures f.PlannerGaveUp? ==> f.reason.LlmProviderError? || f.reason.PlanningFailed?
  {
    if !PhaseLeft(start, cfg, b, f) {
      BalancedEmpty(b.view);
    }
  }

  lemma RanTotals(start: Db, w: World, cfg: Config, b: Books, f: PlanExecuteSpec.Finish)
    requires RanFrom(start, cfg, b, f)
    ensures TotalsAre(Conclude(w, cfg, b, f), Unrecorded(w, cfg, b, f))
  {
    RanBalanced(start, cfg, b, f);
    ConcludeTotals(start, w, cfg, b, f);
  }

  lemma UnrecordedNonNegative(w: World, cfg: Config, b: Books, f: PlanExecuteSpec.Finish)
    requires HonestCounts(w) && SpentOk(f)
    ensures NonNegative(Unrecorded(w, cfg, b, f))
  {
  }

  /** However a run ends inline, its stored totals are the sum over its rows plus exactly what was spent without a
      row; so, when no count is negative, they are never below the sum over the rows. */
  lemma TotalsExplained(start: Db, w: World, cfg: Config)
    requires FreshStart(start) && cfg.maxSteps >= 1 && |start.messages| < HARD_CAP
    ensures var e, (b, f) := RunResult(w, cfg, start), PlanAndExecute(w, cfg, start);
            && TotalsAre(e, Unrecorded(w, cfg, b, f))
            && (HonestCounts(w) ==> NonNegative(Unrecorded(w, cfg, b, f)))
  {
    var (b, f) := PlanAndExecute(w, cfg, start);
    RunPhases(start, w, cfg);
    RanTotals(start, w, cfg, b, f);
    if HonestCounts(w) {
      PhasesSpend(w, cfg, start);
      UnrecordedNonNegative(w, cfg, b, f);
    }
  }

  /** A run left to the `finally` block by an exception of its own: the totals in hand, which the block stores, are the
      sums over the rows written, so they cover the rows committed when no row counts negative. */
  lemma RaisedTotals(start: Db, w: World, cfg: Config, flagSet: bool, why: Interruption)
    requires FreshStart(start) && cfg.maxSteps >= 1 && |start.messages| < HARD_CAP
    requires RunResult(w, cfg, start).Raised?
    ensures var e := RunResult(w, cfg, start);
            var db := AfterFinally(e.view, flagSet, why, e.tally, e.loops).0;
            && db.run.tally.usage == SumUsage(e.view.db.rows)
            && (HonestRows(e.view.db.rows) ==> AtLeast(db.run.tally.usage, SumUsage(db.rows)))
  {
    var e := RunResult(w, cfg, start);
    RunEnds(start, w, cfg);
    RaisedCovers(start, e, flagSet, why);
  }

  // ----- stability -------------------------------------------------------------------------

  /** Completed work is stable: the completed ids are the keys of the recorded outputs, each output is the
      content of its one success row, and a run that ends without a stop reason has completed every step of
      its last plan; a failed step stops the run, and nothing else stops it with `step_failed`. */
  lemma CompletedWorkIsStable(start: Db, w: World, cfg: Config)
    requires FreshStart(start) && cfg.maxSteps >= 1
    ensures var (b, f) := PlanAndExecute(w, cfg, start);
            && b.outputs.Keys == b.completed
            && OutputsRecorded(b.view.db.rows, b.outputs) && OneSuccessPerId(b.view.db.rows)
            && (f.StepFailure? <==> !NoFailures(b.view.db.rows))
            && (f.AllDone? ==> forall s :: s in b.plan.steps ==> s.id in b.completed)
            && (f.HitTokens? ==> b.tally.usage.tokensOut >= cfg.maxTokens)
            && (f.TooManyReplans? ==> PlanRows(b.view.db.rows) == MAX_REPLANS + 1)
  {
    RunPhases(start, w, cfg);
  }

  // ----- dataflow --------------------------------------------------------------------------

  /** End to end: whenever a step is started, in a stage that crashes too, all its dependencies have outputs, outputs that
      are never changed and that success rows of the trace hold; every step_result row is the result of such a start; and
      when the step's arguments mention its dependencies only, the arguments it is called with are the planned ones with
      every placeholder replaced by the recorded output of its step. */
  lemma DataflowEndToEnd(start: Db, w: World, cfg: Config)
    requires FreshStart(start) && cfg.maxSteps >= 1
    ensures var b := PlanAndExecute(w, cfg, start).0;
            && (forall i :: 0 <= i < |b.view.db.rows| && b.view.db.rows[i].role.StepResult? ==> RowFlows(b, b.view.db.rows[i]))
            && (forall j :: 0 <= j < |b.starts| ==> DependenciesFlow(b.starts[j], b))
  {
    RunPhases(start, w, cfg);
    var b := PlanAndExecute(w, cfg, start).0;
    forall j | 0 <= j < |b.starts| ensures DependenciesFlow(b.starts[j], b) {
      StartFlows(b, j);
    }
    forall i | 0 <= i < |b.view.db.rows| && b.view.db.rows[i].role.StepResult? ensures RowFlows(b, b.view.db.rows[i]) {
      assert Started(b.view.db.rows[i], b.starts);
      var j :| 0 <= j < |b.starts| && RowOfStart(b.view.db.rows[i], b.starts[j]);
      StartFlows(b, j);
      assert b.starts[j] in b.starts;
    }
  }

  /** The row is the result of a start into which its dependencies had flowed. */
  ghost predicate RowFlows(b: Books, row: StepRow) {
    exists st :: st in b.starts && RowOfStart(row, st) && DependenciesFlow(st, b)
  }

  /** At this start every dependency had an output, the one a success row holds to the end of the run; if the
      arguments mention dependencies only, resolving them leaves no placeholder. */
  ghost predicate DependenciesFlow(st: Start, b: Books) {
    && (forall d :: d in st.step.dependsOn ==>
          d in st.outputs && d in b.outputs && b.outputs[d] == st.outputs[d]
          && SuccessRow(b.view.db.rows, d, st.outputs[d]))
    && (MentionsOnly(JObj(st.step.args), set d | d in st.step.dependsOn) ==>
          FullyResolved(JObj(st.step.args), JObj(SubstituteArgs(st.step.args, st.outputs)), st.outputs))
    && (forall key: string, z: nat, d: nat ::
          key in st.step.args && st.step.args[key] == JStr(Token(z, d)) && d in st.step.dependsOn ==>
            var resolved := SubstituteArgs(st.step.args, st.outputs);
            key in resolved && resolved[key] == JStr(b.outputs[d]))
  }

  lemma StartFlows(b: Books, j: nat)
    requires j < |b.starts| && Flows(b.starts, b.outputs) && OutputsRecorded(b.view.db.rows, b.outputs)
    ensures DependenciesFlow(b.starts[j], b)
  {
    var st := b.starts[j];
    var ids := set d | d in st.step.dependsOn;
    assert forall d :: d in ids ==> d in st.outputs;
    if MentionsOnly(JObj(st.step.args), ids) {
      MentionsMore(JObj(st.step.args), ids, st.outputs.Keys);
      KnownStepsResolve(JObj(st.step.args), st.outputs);
    }
    forall key: string, z: nat, d: nat |
      key in st.step.args && st.step.args[key] == JStr(Token(z, d)) && d in st.step.dependsOn
      ensures var resolved := SubstituteArgs(st.step.args, st.outputs);
              key in resolved && resolved[key] == JStr(b.outputs[d])
    {
      ArgumentResolved(st.step.args, st.outputs, key, z, d);
    }
  }
}
