/** What "every step of the last plan is completed" means: the loop skips a step by its id, so a replan that gives a
    completed id another tool or other arguments is never run. */
module PlanExecuteReuse {
  import opened Basics
  import opened Trace
  import opened Tools
  import opened PlanValidator
  import opened Stages
  import opened StepRunner
  import opened PlanExecuteSpec
  import opened PlanExecuteFacts
  import opened PlanExecuteStages
  import opened PlanExecutePasses
  import Budget = PlanExecuteBudget
  import Theorems = PlanExecuteTheorems

  // ----- a step's own row ------------------------------------------------------------------

  /** This success row is the result of a start of exactly this step: its id, stage, tool and arguments. */
  predicate RunsStep(row: StepRow, st: Start, s: PlanStep) {
    HasStatus(row, Success) && RowOfStart(row, st) && st.step == s
  }

  predicate OwnRow(b: Books, s: PlanStep) {
    exists i, j :: 0 <= i < |b.view.db.rows| && 0 <= j < |b.starts| && RunsStep(b.view.db.rows[i], b.starts[j], s)
  }

  /** `b` continues `h`, and restarted nothing that was completed there. */
  predicate Grown(h: Books, b: Books) {
    && h.view.db.rows <= b.view.db.rows && h.starts <= b.starts && h.completed <= b.completed
    && forall j :: |h.starts| <= j < |b.starts| ==> b.starts[j].step.id !in h.completed
  }

  lemma GrownTrans(h: Books, b: Books, c: Books)
    requires Grown(h, b) && Grown(b, c)
    ensures Grown(h, c)
  {
    forall j | |h.starts| <= j < |c.starts| ensures c.starts[j].step.id !in h.completed {
      if j < |b.starts| {
        assert c.starts[j] == b.starts[j];
      }
    }
  }

  lemma OwnRowKept(h: Books, b: Books, s: PlanStep)
    requires Grown(h, b) && OwnRow(h, s)
    ensures OwnRow(b, s)
  {
    var i, j :| 0 <= i < |h.view.db.rows| && 0 <= j < |h.starts| && RunsStep(h.view.db.rows[i], h.starts[j], s);
    assert RunsStep(b.view.db.rows[i], b.starts[j], s);
  }

  /** A step whose id was completed before cannot get a row of its own afterwards. */
  lemma OwnRowWasThere(h: Books, b: Books, s: PlanStep)
    requires Grown(h, b) && OwnRow(b, s) && s.id in h.outputs && h.outputs.Keys == h.completed
    requires OutputsRecorded(h.view.db.rows, h.outputs) && OneSuccessPerId(b.view.db.rows)
    ensures OwnRow(h, s)
  {
    var i, j :| 0 <= i < |b.view.db.rows| && 0 <= j < |b.starts| && RunsStep(b.view.db.rows[i], b.starts[j], s);
    assert SuccessRow(h.view.db.rows, s.id, h.outputs[s.id]);
    var k :| 0 <= k < |h.view.db.rows| && HasStatus(h.view.db.rows[k], Success) && h.view.db.rows[k].mark.value.id == s.id;
    assert b.view.db.rows[k] == h.view.db.rows[k];
    assert i == k;
    assert RunsStep(h.view.db.rows[i], h.starts[j], s);
  }

  // ----- a stage ---------------------------------------------------------------------------

  lemma {:induction false} PersistKeepsStarts(b: Books, outs: seq<StepOutcome>)
    ensures PersistAll(b, outs).starts == b.starts
    decreases |outs|
  {
    if outs != [] { PersistKeepsStarts(PersistOne(b, outs[0]), outs[1..]); }
  }

  lemma {:induction false} RecordKeepsStarts(b: Books, outs: seq<StepOutcome>)
    ensures RecordSuccesses(b, outs).starts == b.starts && RecordSuccesses(b, outs).view == b.view
    ensures b.completed <= RecordSuccesses(b, outs).completed
    decreases |outs|
  {
    if outs != [] {
      var o := outs[0];
      var b1 := b.(completed := b.completed + {o.step.id}, outputs := b.outputs[o.step.id := o.output]);
      RecordKeepsStarts(if o.status.Success? then b1 else b, outs[1..]);
    }
  }

  lemma JudgeGrows(cfg: Config, b: Books, outs: seq<StepOutcome>)
    ensures var (b', v) := Judge(cfg, b, outs);
            && b'.starts == b.starts && b'.view == b.view && b.completed <= b'.completed
            && (v.GoOn? ==> !SomeStatus(outs, Failure) && !SomeStatus(outs, ReplanRequested))
  {
    RecordKeepsStarts(b, outs);
  }

  /** The starts a stage adds. */
  lemma StageStarts(w: World, cfg: Config, pass: nat, b: Books, g: Group)
    ensures StageStep(w, cfg, pass, b, g).0.starts == b.starts + StartsOf(g.steps, b.replans, b.outputs)
  {
    if !SomeEscape(w, pass, g.steps, b.outputs) {
      ByIdEscapes(w, pass, g.steps, b.outputs);
      var outs := OutcomesOf(w, pass, ById(g.steps), b.outputs);
      PersistKeepsStarts(Launch(b, g), outs);
      JudgeGrows(cfg, Persisted(Launch(b, g), outs), outs);
    }
  }

  lemma NewStarts(b: Books, g: Group, b': Books)
    requires StageReady(g, b.completed) && b'.starts == b.starts + StartsOf(g.steps, b.replans, b.outputs)
    requires b.view.db.rows <= b'.view.db.rows && b.completed <= b'.completed
    ensures Grown(b, b')
  {
    forall j | |b.starts| <= j < |b'.starts| ensures b'.starts[j].step.id !in b.completed {
      assert b'.starts[j].step == g.steps[j - |b.starts|];
      assert g.steps[j - |b.starts|] in g.steps;
    }
  }

  lemma StageGrows(start: Db, w: World, cfg: Config, pass: nat, b: Books, g: Group, replans: nat)
    requires Good(start, b, replans) && StageReady(g, b.completed)
    ensures Grown(b, StageStep(w, cfg, pass, b, g).0)
  {
    LaunchKeeps(start, b, g, replans);
    LaunchView(start, b, g);
    StageStarts(w, cfg, pass, b, g);
    if !SomeEscape(w, pass, g.steps, b.outputs) {
      ByIdEscapes(w, pass, g.steps, b.outputs);
      var outs := OutcomesOf(w, pass, ById(g.steps), b.outputs);
      PersistedView(start, Launch(b, g), outs);
      JudgeGrows(cfg, Persisted(Launch(b, g), outs), outs);
    }
    NewStarts(b, g, StageStep(w, cfg, pass, b, g).0);
  }

  lemma RowRunsStep(w: World, pass: nat, at: nat, s: PlanStep, outputs: map<int, string>, seqNo: nat)
    requires StepRun(w, pass, s, outputs).Returned? && StepRun(w, pass, s, outputs).outcome.status.Success?
    ensures RunsStep(MarkedRow(seqNo, StepRun(w, pass, s, outputs).outcome), Start(s, at, outputs), s)
  {
  }

  /** A stage whose steps all returned: its rows follow, and it goes on only if all of them succeeded. */
  lemma StageRows(start: Db, w: World, cfg: Config, pass: nat, b: Books, g: Group, replans: nat)
    requires Good(start, b, replans) && StageReady(g, b.completed) && !SomeEscape(w, pass, ById(g.steps), b.outputs)
    ensures var outs, (b', v) := OutcomesOf(w, pass, ById(g.steps), b.outputs), StageStep(w, cfg, pass, b, g);
            && b'.view.db.rows == b.view.db.rows + MarkedRows(b.runSeq, outs)
            && (v.GoOn? ==> !SomeStatus(outs, Failure) && !SomeStatus(outs, ReplanRequested))
  {
    ByIdEscapes(w, pass, g.steps, b.outputs);
    var outs := OutcomesOf(w, pass, ById(g.steps), b.outputs);
    LaunchKeeps(start, b, g, replans);
    LaunchView(start, b, g);
    PersistedView(start, Launch(b, g), outs);
    JudgeGrows(cfg, Persisted(Launch(b, g), outs), outs);
  }

  /** The row of one successful step of a stage. */
  lemma RowOfStep(w: World, pass: nat, at: nat, g: Group, outputs: map<int, string>, n: nat, s: PlanStep) returns (k: nat)
    requires s in g.steps && !SomeEscape(w, pass, ById(g.steps), outputs)
    requires !SomeStatus(OutcomesOf(w, pass, ById(g.steps), outputs), Failure)
    requires !SomeStatus(OutcomesOf(w, pass, ById(g.steps), outputs), ReplanRequested)
    ensures var rows := MarkedRows(n, OutcomesOf(w, pass, ById(g.steps), outputs));
            k < |rows| && RunsStep(rows[k], Start(s, at, outputs), s)
  {
    var sorted := ById(g.steps);
    var outs := OutcomesOf(w, pass, sorted, outputs);
    ByIdElements(g.steps);
    MarkedRowsAt(n, outs);
    k :| 0 <= k < |sorted| && sorted[k] == s;
    assert outs[k].status != Failure && outs[k].status != ReplanRequested;
    RowRunsStep(w, pass, at, s, outputs, n + 1 + k);
  }

  lemma OwnRowAt(b: Books, s: PlanStep, rows: seq<StepRow>, more: seq<StepRow>, k: nat, j: nat)
    requires b.view.db.rows == rows + more && k < |more| && j < |b.starts| && RunsStep(more[k], b.starts[j], s)
    ensures OwnRow(b, s)
  {
    assert RunsStep(b.view.db.rows[|rows| + k], b.starts[j], s);
  }

  /** The row and the start of a step of a stage whose steps all succeeded. */
  lemma StepRowAndStart(w: World, pass: nat, g: Group, b: Books, b': Books, s: PlanStep, outs: seq<StepOutcome>)
    requires s in g.steps && !SomeEscape(w, pass, ById(g.steps), b.outputs)
    requires outs == OutcomesOf(w, pass, ById(g.steps), b.outputs)
    requires !SomeStatus(outs, Failure) && !SomeStatus(outs, ReplanRequested)
    requires b'.view.db.rows == b.view.db.rows + MarkedRows(b.runSeq, outs)
    requires b'.starts == b.starts + StartsOf(g.steps, b.replans, b.outputs)
    ensures OwnRow(b', s)
  {
    var k := RowOfStep(w, pass, b.replans, g, b.outputs, b.runSeq, s);
    var j := StartOf(g.steps, b.replans, b.outputs, b.starts, s);
    OwnRowAt(b', s, b.view.db.rows, MarkedRows(b.runSeq, outs), k, j);
  }

  lemma NoEscape(w: World, cfg: Config, pass: nat, b: Books, g: Group)
    requires StageStep(w, cfg, pass, b, g).1.GoOn?
    ensures !SomeEscape(w, pass, ById(g.steps), b.outputs)
  {
    ByIdEscapes(w, pass, g.steps, b.outputs);
  }

  /** In a stage that went on every step has its own row. */
  lemma StepHasRow(start: Db, w: World, cfg: Config, pass: nat, b: Books, g: Group, replans: nat, s: PlanStep,
                   r: (Books, Verdict))
    requires Good(start, b, replans) && StageReady(g, b.completed) && s in g.steps
    requires r == StageStep(w, cfg, pass, b, g) && r.1.GoOn?
    ensures OwnRow(r.0, s)
  {
    NoEscape(w, cfg, pass, b, g);
    StageRows(start, w, cfg, pass, b, g, replans);
    StageStarts(w, cfg, pass, b, g);
    StepRowAndStart(w, pass, g, b, r.0, s, OutcomesOf(w, pass, ById(g.steps), b.outputs));
  }

  // ----- a pass ----------------------------------------------------------------------------

  predicate AllOwn(b: Books, groups: seq<Group>) {
    forall i, s :: 0 <= i < |groups| && s in groups[i].steps ==> OwnRow(b, s)
  }

  lemma AllOwnCons(b1: Books, b2: Books, groups: seq<Group>)
    requires groups != [] && Grown(b1, b2) && AllOwn(b2, groups[1..])
    requires forall s :: s in groups[0].steps ==> OwnRow(b1, s)
    ensures AllOwn(b2, groups)
  {
    forall i, s | 0 <= i < |groups| && s in groups[i].steps ensures OwnRow(b2, s) {
      if i == 0 {
        OwnRowKept(b1, b2, s);
      } else {
        assert groups[1..][i - 1] == groups[i];
      }
    }
  }

  /** What the stages of a pass add. */
  predicate PassAdds(b: Books, r: (Books, Verdict), groups: seq<Group>) {
    Grown(b, r.0) && (r.1.GoOn? ==> AllOwn(r.0, groups))
  }

  lemma FirstAdds(start: Db, w: World, cfg: Config, pass: nat, b: Books, groups: seq<Group>, replans: nat)
    requires PassPoint(start, b, groups, replans) && groups != []
    ensures var (b1, v1) := StageStep(w, cfg, pass, b, groups[0]);
            Grown(b, b1) && (v1.GoOn? ==> forall s :: s in groups[0].steps ==> OwnRow(b1, s))
  {
    FirstStageReady(b.plan.steps, b.completed, groups);
    StageGrows(start, w, cfg, pass, b, groups[0], replans);
    var r := StageStep(w, cfg, pass, b, groups[0]);
    if r.1.GoOn? {
      forall s | s in groups[0].steps ensures OwnRow(r.0, s) {
        StepHasRow(start, w, cfg, pass, b, groups[0], replans, s, r);
      }
    }
  }

  lemma RestAdds(b: Books, b1: Books, r: (Books, Verdict), groups: seq<Group>)
    requires groups != [] && Grown(b, b1) && PassAdds(b1, r, groups[1..])
    requires forall s :: s in groups[0].steps ==> OwnRow(b1, s)
    ensures PassAdds(b, r, groups)
  {
    GrownTrans(b, b1, r.0);
    if r.1.GoOn? {
      AllOwnCons(b1, r.0, groups);
    }
  }

  lemma {:induction false} StagesAdd(
    start: Db, w: World, cfg: Config, pass: nat, b: Books, groups: seq<Group>, replans: nat)
    requires PassPoint(start, b, groups, replans)
    ensures PassAdds(b, RunStages(w, cfg, pass, b, groups), groups)
    decreases |groups|
  {
    if groups != [] && !w.cancelled(pass, groups[0].stage) {
      var (b1, v1) := StageStep(w, cfg, pass, b, groups[0]);
      FirstStage(start, w, cfg, pass, b, groups, replans);
      FirstAdds(start, w, cfg, pass, b, groups, replans);
      if v1.GoOn? {
        NextPoint(start, b, groups, b1, replans);
        StagesAdd(start, w, cfg, pass, b1, groups[1..], replans);
        RestAdds(b, b1, RunStages(w, cfg, pass, b1, groups[1..]), groups);
      }
    }
  }

  /** A pass that ends the phase with all steps done: each step had its id completed before, or got its own row. */
  predicate PlanRan(h: Books, b: Books) {
    && Grown(h, b) && b.plan == h.plan
    && forall s :: s in h.plan.steps ==> s.id in h.completed || OwnRow(b, s)
  }

  lemma NothingPending(b: Books)
    requires NotDone(b.plan.steps, b.completed) == []
    ensures PlanRan(b, b)
  {
    NotDoneElements(b.plan.steps, b.completed);
    assert forall s :: s in b.plan.steps && s.id !in b.completed ==> s in NotDone(b.plan.steps, b.completed);
  }

  lemma PendingRan(steps: seq<PlanStep>, h: Books, b: Books, groups: seq<Group>)
    requires PassReady(steps, h.completed, groups) && AllOwn(b, groups) && steps == h.plan.steps && b.plan == h.plan
    requires Grown(h, b)
    ensures PlanRan(h, b)
  {
    forall s | s in steps ensures s.id in h.completed || OwnRow(b, s) {
      if s.id !in h.completed {
        var i :| 0 <= i < |groups| && s in groups[i].steps;
      }
    }
  }

  lemma PassRan(start: Db, w: World, cfg: Config, h: Books, r: (Books, Verdict))
    requires PassStart(start, cfg, h) && r.1.GoOn?
    requires r == RunStages(w, cfg, h.replans, h, Groups(NotDone(h.plan.steps, h.completed)))
    ensures PlanRan(h, r.0)
  {
    var groups := Groups(NotDone(h.plan.steps, h.completed));
    PassPointAt(start, cfg, h);
    PassKeeps(start, w, cfg, h);
    StagesAdd(start, w, cfg, h.replans, h, groups, h.replans);
    PendingRan(h.plan.steps, h, r.0, groups);
  }

  lemma NextPlanStops(w: World, cfg: Config, b: Books)
    ensures NextPlan(w, cfg, b).Stops? ==> NextPlan(w, cfg, b).finish.PlannerGaveUp?
  {
  }

  lemma FinishedPass(v: Verdict)
    ensures FinishOf(v).AllDone? ==> v.GoOn?
  {
  }

  /** A turn that ends the phase with all steps done ran a pass that went on to its end. */
  lemma DoneMeansWentOn(w: World, cfg: Config, h: Books, r: (Books, Verdict), t: PlanExecuteSpec.Turn)
    requires t == if r.1.AskReplan? && h.replans < MAX_REPLANS then NextPlan(w, cfg, Replanning(r.0, h.replans))
                  else Stops(r.0, FinishOf(r.1))
    requires t.Stops? && t.finish.AllDone?
    ensures r.1.GoOn? && t.books == r.0
  {
    NextPlanStops(w, cfg, Replanning(r.0, h.replans));
    FinishedPass(r.1);
  }

  lemma QuietTurn(w: World, cfg: Config, h: Books)
    requires w.cancelled(h.replans, 0) || NotDone(h.plan.steps, h.completed) == []
    ensures var t := PassTurn(w, cfg, h);
            t.Stops? && t.books == h && (t.finish.AllDone? ==> NotDone(h.plan.steps, h.completed) == [])
  {
  }

  lemma LastPassRan(start: Db, w: World, cfg: Config, h: Books, t: PlanExecuteSpec.Turn)
    requires PassStart(start, cfg, h) && t == PassTurn(w, cfg, h) && t.Stops? && t.finish.AllDone?
    ensures PlanRan(h, t.books)
  {
    if w.cancelled(h.replans, 0) || NotDone(h.plan.steps, h.completed) == [] {
      QuietTurn(w, cfg, h);
      NothingPending(h);
    } else {
      var r := RunStages(w, cfg, h.replans, h, Groups(NotDone(h.plan.steps, h.completed)));
      PassTurnIs(w, cfg, h, r.0, r.1);
      DoneMeansWentOn(w, cfg, h, r, t);
      PassRan(start, w, cfg, h, r);
    }
  }

  // ----- the run ---------------------------------------------------------------------------

  /** The books right after the last plan was taken on. */
  function LastHead(w: World, cfg: Config, b: Books): Books
    decreases MAX_REPLANS + 1 - b.replans
  {
    match PassTurn(w, cfg, b)
    case Stops(_, _) => b
    case Continues(b') => LastHead(w, cfg, b')
  }

  lemma {:induction false} LastHeadStops(start: Db, w: World, cfg: Config, b: Books)
    requires PassStart(start, cfg, b)
    ensures var h := LastHead(w, cfg, b);
            && PassStart(start, cfg, h) && PassTurn(w, cfg, h).Stops?
            && Passes(w, cfg, b) == (PassTurn(w, cfg, h).books, PassTurn(w, cfg, h).finish)
    decreases MAX_REPLANS + 1 - b.replans
  {
    TurnKeeps(start, w, cfg, b);
    PassesUnfold(w, cfg, b);
    var t := PassTurn(w, cfg, b);
    if t.Continues? {
      LastHeadStops(start, w, cfg, t.books);
    }
  }

  /** The plan repeats the steps already completed: same stage, tool, arguments and dependencies as when they ran. */
  predicate RepeatsCompleted(h: Books) {
    forall s :: s in h.plan.steps && s.id in h.completed ==> OwnRow(h, s)
  }

  predicate AllOwnRows(b: Books) {
    forall s :: s in b.plan.steps ==> OwnRow(b, s)
  }

  lemma RanMeansRepeats(h: Books, b: Books)
    requires PlanRan(h, b) && h.outputs.Keys == h.completed
    requires OutputsRecorded(h.view.db.rows, h.outputs) && OneSuccessPerId(b.view.db.rows)
    ensures AllOwnRows(b) <==> RepeatsCompleted(h)
  {
    if AllOwnRows(b) {
      forall s | s in h.plan.steps && s.id in h.completed ensures OwnRow(h, s) {
        assert s in b.plan.steps;
        OwnRowWasThere(h, b, s);
      }
    }
    if RepeatsCompleted(h) {
      forall s | s in b.plan.steps ensures OwnRow(b, s) {
        if s.id in h.completed {
          OwnRowKept(h, b, s);
        }
      }
    }
  }

  /** The books after the last plan of a run; empty ones when there was no plan. */
  function LastPlanned(w: World, cfg: Config, start: Db): Books {
    var (v, end) := CallPlanner(w, cfg, 0, 0, ZERO_TALLY, Opening(cfg, start));
    match end
    case PlannerFailed(_, _) => EmptyBooks(v)
    case Planned(plan, payload, spent) => LastHead(w, cfg, Adopt(EmptyBooks(v), plan, payload, spent, true))
  }

  lemma PhasesOwn(start: Db, w: World, cfg: Config, b: Books)
    requires PassStart(start, cfg, b) && Passes(w, cfg, b).1.AllDone?
    ensures AllOwnRows(Passes(w, cfg, b).0) <==> RepeatsCompleted(LastHead(w, cfg, b))
  {
    var h := LastHead(w, cfg, b);
    LastHeadStops(start, w, cfg, b);
    LastPassRan(start, w, cfg, h, PassTurn(w, cfg, h));
    TurnKeeps(start, w, cfg, h);
    RanMeansRepeats(h, PassTurn(w, cfg, h).books);
  }

  /** When a run ends with all steps done, every step of its last plan has a success row of its own, with its tool and
      its arguments, if and only if that plan, when it was taken on, repeated the steps completed before it. */
  lemma StepsRanAsPlanned(start: Db, w: World, cfg: Config)
    requires Theorems.FreshStart(start) && cfg.maxSteps >= 1 && PlanAndExecute(w, cfg, start).1.AllDone?
    ensures AllOwnRows(PlanAndExecute(w, cfg, start).0) <==> RepeatsCompleted(LastPlanned(w, cfg, start))
  {
    Theorems.OpeningCalm(start, cfg);
    PlannerKeeps(start, w, cfg, 0, 0, ZERO_TALLY, Opening(cfg, start));
    var (v, end) := CallPlanner(w, cfg, 0, 0, ZERO_TALLY, Opening(cfg, start));
    Theorems.FirstPlan(start, cfg, v, end.plan, end.payload, end.spent);
    PhasesOwn(start, w, cfg, Adopt(EmptyBooks(v), end.plan, end.payload, end.spent, true));
  }

  // ----- a replan that does not repeat -----------------------------------------------------

  /** After a pass that completed step 1: a plan whose only step has that id, but calls a tool. */
  const SWAPPED := Plan("", [PlanStep(1, 1, "", "t", map[], "", [])])

  /** A planner whose second plan is `SWAPPED`; otherwise the busy world for two steps. */
  function SwapWorld(): World {
    Budget.BusyWorld(2).(loads := (text: string) =>
      if text == "1" then Some(PlanPayload(SWAPPED)) else Budget.Document(2, text))
  }

  const SWAP_CONFIG := Config(2, 100, {"t"}, "go")

  lemma SwapRounds()
    ensures Budget.RoundBusy(SwapWorld(), SWAP_CONFIG, 0, Budget.PlanFor(0, 2))
    ensures Budget.RoundBusy(SwapWorld(), SWAP_CONFIG, 1, SWAPPED)
  {
    var w, cfg := SwapWorld(), SWAP_CONFIG;
    Budget.Documents(2, 0);
    Budget.PlanForValid(0, 2, cfg.tools);
    PayloadRoundTrip(Budget.PlanFor(0, 2), 2, cfg.tools);
    assert ValidPlan(SWAPPED, 2, cfg.tools);
    PayloadRoundTrip(SWAPPED, 2, cfg.tools);
    assert '?' == "?"[0] && '0' == "0"[0] && '1' == "1"[0];
    assert w.loads("?") == None && w.loads("0") == Some(PlanPayload(Budget.PlanFor(0, 2)));
    assert w.planner(0, 0) == w.planner(1, 0) == Budget.Saying("?");
    assert w.planner(0, 1) == Budget.Saying(Budget.PassText(0)) && w.planner(1, 1) == Budget.Saying(Budget.PassText(1));
    assert Budget.PassText(0) == "0" && Budget.PassText(1) == "1";
  }

  lemma SwapStage()
    ensures Budget.StageBusy(SwapWorld(), 2, 0)
  {
    var w := SwapWorld();
    assert Strip("r") == "r" && Strip("s") == "s" && '1' == "1"[0] && 'r' == "r"[0] && 's' == "s"[0];
    forall i: nat | i < 2 ensures Budget.StepBusy(w, 2, 0, i) {
      Budget.StepIsBusy(2, 0, i);
      if i == 1 {
        Budget.EnvelopeReads(w, "r", "replan_requested", ReplanRequested);
      } else {
        Budget.EnvelopeReads(w, "s", "success", Success);
      }
    }
  }

  /** No start of these books calls a tool. */
  predicate NoTools(b: Books) {
    forall j :: 0 <= j < |b.starts| ==> b.starts[j].step.tool == SYNTHESIZE
  }

  lemma NextPlanKeepsStarts(w: World, cfg: Config, b: Books)
    ensures NextPlan(w, cfg, b).books.starts == b.starts
  {
  }

  lemma FirstId()
    ensures 1 in Budget.OutputsAt(1, 2)
  {
    var outs := Budget.OutcomesAt(0, 2);
    MergeHolds(Budget.OutputsAt(0, 2), outs);
    assert outs[0].status.Success? && outs[0].step.id == 1;
  }

  lemma SwappedDone(w: World, cfg: Config, b: Books)
    requires !w.cancelled(b.replans, 0) && b.plan == SWAPPED && 1 in b.completed && NoTools(b)
    ensures Passes(w, cfg, b) == (b, AllDone) && !OwnRow(b, SWAPPED.steps[0])
  {
    var steps := SWAPPED.steps;
    assert NotDone(steps[..0], b.completed) == [];
    assert NotDone(steps, b.completed) == [];
    assert "t"[0] != SYNTHESIZE[0];
  }

  /** The first pass starts two synthesize steps and nothing else. */
  lemma SwapStarts(b: Books, g: Group)
    requires b.starts == [] && g == Group(1, Budget.StepsAt(0, 2))
    ensures NoTools(StageStep(SwapWorld(), SWAP_CONFIG, 0, b, g).0)
  {
    StageStarts(SwapWorld(), SWAP_CONFIG, 0, b, g);
  }

  /** What the second planner round leads to. */
  predicate Swapped(t: PlanExecuteSpec.Turn) {
    t.Continues? && t.books.plan == SWAPPED && 1 in t.books.completed && NoTools(t.books)
  }

  lemma SwapNext(w: World, cfg: Config, b: Books)
    requires Budget.RoundBusy(w, cfg, 1, SWAPPED) && Budget.Idle(b, 1, Budget.OutputsAt(1, 2)) && NoTools(b)
    ensures Swapped(NextPlan(w, cfg, b))
  {
    Budget.BusyNextPlan(w, cfg, b, 1, Budget.OutputsAt(1, 2), SWAPPED);
    NextPlanKeepsStarts(w, cfg, b);
    FirstId();
  }

  lemma SwapPass(b: Books)
    requires Budget.AtPass(b, 0, 2) && b.starts == []
    ensures Swapped(PassTurn(SwapWorld(), SWAP_CONFIG, b))
  {
    var w, cfg := SwapWorld(), SWAP_CONFIG;
    var g := Group(1, Budget.StepsAt(0, 2));
    var r := StageStep(w, cfg, 0, b, g);
    SwapRounds();
    SwapStage();
    Budget.BusyPass(w, cfg, 2, 0, b, r);
    SwapStarts(b, g);
    Budget.ReplanningIdle(r.0, 0, Budget.OutputsAt(1, 2));
    SwapNext(w, cfg, Replanning(r.0, 0));
  }

  /** A run that ends with all steps done although the one step of its last plan was never run: step 1 succeeded under
      the first plan, and the second plan gives id 1 another tool. */
  lemma ReplanCanSkip(start: Db)
    ensures var (b, f) := PlanAndExecute(SwapWorld(), SWAP_CONFIG, start);
            f.AllDone? && b.plan == SWAPPED && !OwnRow(b, SWAPPED.steps[0])
  {
    var w, cfg := SwapWorld(), SWAP_CONFIG;
    var r := CallPlanner(w, cfg, 0, 0, ZERO_TALLY, Opening(cfg, start));
    SwapRounds();
    Budget.FullRound(w, cfg, 0, Opening(cfg, start), Budget.PlanFor(0, 2));
    Budget.PlanAndExecuteIs(w, cfg, start, r);
    Budget.FirstPass(w, cfg, 2, start, r);
    var b := Adopt(EmptyBooks(r.0), r.1.plan, r.1.payload, r.1.spent, true);
    SwapPass(b);
    PassesUnfold(w, cfg, b);
    SwappedDone(w, cfg, PassTurn(w, cfg, b).books);
  }
}
