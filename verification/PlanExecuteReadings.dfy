/** What the replies of a Plan & Execute run say against what the run records and how it ends. */
module PlanExecuteReadings {
  import opened Basics
  import opened Trace
  import opened Protocol
  import opened Invariants
  import opened Tools
  import opened PlanValidator
  import opened Stages
  import opened StepRunner
  import opened StepReadings
  import opened PlanExecuteSpec
  import opened PlanExecuteFacts
  import opened PlanExecuteStages
  import opened PlanExecutePasses
  import opened PlanExecuteReuse
  import Theorems = PlanExecuteTheorems

  /** The reply a started step got. */
  function ReplyTo(w: World, st: Start): ChatOutcome {
    w.step(st.pass, st.step.id)
  }

  /** The row records this start and what was said to it. */
  ghost predicate Tells(w: World, row: StepRow, st: Start) {
    && RowOfStart(row, st) && row.role == StepResult
    && StatusTold(w, ReplyTo(w, st), row.mark.value.status)
    && row.content.Some? && OutputTold(w, ReplyTo(w, st), row.content.value)
    && row.usage.Some? && UsageTold(ReplyTo(w, st), row.usage.value)
    && ToolTold(w, st.pass, st.step, row.result)
  }

  ghost predicate Told(w: World, row: StepRow, starts: seq<Start>) {
    exists j :: 0 <= j < |starts| && Tells(w, row, starts[j])
  }

  ghost predicate Recorded1(w: World, rows: seq<StepRow>, st: Start) {
    exists i :: 0 <= i < |rows| && Tells(w, rows[i], st)
  }

  /** Every step row records a start and what was said to it. */
  ghost predicate RowsTold(w: World, rows: seq<StepRow>, starts: seq<Start>) {
    forall i :: 0 <= i < |rows| && (rows[i].role.StepResult? || rows[i].mark.Some?) ==> Told(w, rows[i], starts)
  }

  /** Every start is recorded, and none got a reply that cannot be read. */
  ghost predicate StartsTold(w: World, rows: seq<StepRow>, starts: seq<Start>) {
    forall j :: 0 <= j < |starts| ==> Recorded1(w, rows, starts[j]) && !Garbled(w, ReplyTo(w, starts[j]))
  }

  /** No step is started where the flag reads set, at the head of its pass or before its stage. */
  ghost predicate StartsClear(w: World, starts: seq<Start>) {
    forall j :: 0 <= j < |starts| ==> !w.cancelled(starts[j].pass, 0) && !w.cancelled(starts[j].pass, starts[j].step.stage)
  }

  ghost predicate HeadsClear(w: World, n: nat) {
    forall p: nat :: p < n ==> !w.cancelled(p, 0)
  }

  /** What holds between stages. */
  ghost predicate AllTold(w: World, b: Books) {
    RowsTold(w, b.view.db.rows, b.starts) && StartsTold(w, b.view.db.rows, b.starts) && StartsClear(w, b.starts)
  }

  /** What holds when a stage crashed: its starts are not recorded, and one of them got a reply that cannot be read. */
  ghost predicate CrashTold(w: World, b: Books) {
    && RowsTold(w, b.view.db.rows, b.starts) && StartsClear(w, b.starts)
    && exists j :: 0 <= j < |b.starts| && Garbled(w, ReplyTo(w, b.starts[j]))
  }

  ghost predicate LeftTold(w: World, b: Books, crashed: bool) {
    if crashed then CrashTold(w, b) else AllTold(w, b)
  }

  // ----- one stage -------------------------------------------------------------------------

  lemma RowTells(w: World, st: Start, n: nat)
    requires StepRun(w, st.pass, st.step, st.outputs).Returned?
    ensures Tells(w, MarkedRow(n, StepRun(w, st.pass, st.step, st.outputs).outcome), st)
  {
    StepTold(w, st.pass, st.step, st.outputs);
  }

  lemma StageRowTold(w: World, pass: nat, g: Group, outputs: map<int, string>, s: PlanStep, row: StepRow, n: nat)
    requires s in g.steps && StepRun(w, pass, s, outputs).Returned?
    requires row == MarkedRow(n, StepRun(w, pass, s, outputs).outcome)
    ensures Told(w, row, StartsOf(g.steps, pass, outputs))
  {
    var k :| 0 <= k < |g.steps| && g.steps[k] == s;
    RowTells(w, Start(s, pass, outputs), n);
    assert StartsOf(g.steps, pass, outputs)[k] == Start(s, pass, outputs);
  }

  lemma StageStartTold(w: World, pass: nat, sorted: seq<PlanStep>, outputs: map<int, string>, s: PlanStep, n: nat)
    requires s in sorted && !SomeEscape(w, pass, sorted, outputs)
    ensures Recorded1(w, MarkedRows(n, OutcomesOf(w, pass, sorted, outputs)), Start(s, pass, outputs))
    ensures !Garbled(w, ReplyTo(w, Start(s, pass, outputs)))
  {
    var outs := OutcomesOf(w, pass, sorted, outputs);
    MarkedRowsAt(n, outs);
    var i :| 0 <= i < |sorted| && sorted[i] == s;
    assert StepRun(w, pass, sorted[i], outputs).Returned?;
    RowTells(w, Start(s, pass, outputs), n + 1 + i);
    StepTold(w, pass, s, outputs);
    assert MarkedRows(n, outs)[i] == MarkedRow(n + 1 + i, outs[i]);
  }

  /** The rows of a stage and its starts tell of each other. */
  lemma StageTells(w: World, pass: nat, g: Group, outputs: map<int, string>, n: nat)
    requires !SomeEscape(w, pass, ById(g.steps), outputs)
    ensures var rows, starts := MarkedRows(n, OutcomesOf(w, pass, ById(g.steps), outputs)), StartsOf(g.steps, pass, outputs);
            RowsTold(w, rows, starts) && StartsTold(w, rows, starts)
  {
    var sorted := ById(g.steps);
    var outs := OutcomesOf(w, pass, sorted, outputs);
    var rows, starts := MarkedRows(n, outs), StartsOf(g.steps, pass, outputs);
    MarkedRowsAt(n, outs);
    ByIdElements(g.steps);
    forall i | 0 <= i < |rows| ensures Told(w, rows[i], starts) {
      assert sorted[i] in sorted;
      StageRowTold(w, pass, g, outputs, sorted[i], rows[i], n + 1 + i);
    }
    forall j | 0 <= j < |starts| ensures Recorded1(w, rows, starts[j]) && !Garbled(w, ReplyTo(w, starts[j])) {
      assert g.steps[j] in sorted;
      StageStartTold(w, pass, sorted, outputs, g.steps[j], n);
    }
  }

  lemma ToldMore(w: World, rows: seq<StepRow>, starts: seq<Start>, more: seq<Start>)
    requires RowsTold(w, rows, starts)
    ensures RowsTold(w, rows, starts + more) && RowsTold(w, rows, more + starts)
  {
    forall i | 0 <= i < |rows| && (rows[i].role.StepResult? || rows[i].mark.Some?)
      ensures Told(w, rows[i], starts + more) && Told(w, rows[i], more + starts)
    {
      var j :| 0 <= j < |starts| && Tells(w, rows[i], starts[j]);
      assert (starts + more)[j] == starts[j] && (more + starts)[|more| + j] == starts[j];
    }
  }

  lemma RecordedMore(w: World, rows: seq<StepRow>, more: seq<StepRow>, starts: seq<Start>)
    requires StartsTold(w, rows, starts)
    ensures StartsTold(w, rows + more, starts) && StartsTold(w, more + rows, starts)
  {
    forall j | 0 <= j < |starts|
      ensures Recorded1(w, rows + more, starts[j]) && Recorded1(w, more + rows, starts[j])
    {
      var i :| 0 <= i < |rows| && Tells(w, rows[i], starts[j]);
      assert (rows + more)[i] == rows[i] && (more + rows)[|more| + i] == rows[i];
    }
  }

  lemma RowsJoin(w: World, a: seq<StepRow>, b: seq<StepRow>, starts: seq<Start>)
    requires RowsTold(w, a, starts) && RowsTold(w, b, starts)
    ensures RowsTold(w, a + b, starts)
  {
    forall i | 0 <= i < |a + b| && ((a + b)[i].role.StepResult? || (a + b)[i].mark.Some?) ensures Told(w, (a + b)[i], starts) {
      assert (a + b)[i] == if i < |a| then a[i] else b[i - |a|];
    }
  }

  lemma StartsJoin(w: World, rows: seq<StepRow>, s: seq<Start>, t: seq<Start>)
    requires StartsTold(w, rows, s) && StartsTold(w, rows, t)
    ensures StartsTold(w, rows, s + t)
  {
    forall j | 0 <= j < |s + t| ensures Recorded1(w, rows, (s + t)[j]) && !Garbled(w, ReplyTo(w, (s + t)[j])) {
      assert (s + t)[j] == if j < |s| then s[j] else t[j - |s|];
    }
  }

  lemma StageJoins(w: World, rows: seq<StepRow>, starts: seq<Start>, rows': seq<StepRow>, starts': seq<Start>)
    requires RowsTold(w, rows, starts) && StartsTold(w, rows, starts)
    requires RowsTold(w, rows', starts') && StartsTold(w, rows', starts')
    ensures RowsTold(w, rows + rows', starts + starts') && StartsTold(w, rows + rows', starts + starts')
  {
    ToldMore(w, rows, starts, starts');
    ToldMore(w, rows', starts', starts);
    RowsJoin(w, rows, rows', starts + starts');
    RecordedMore(w, rows, rows', starts);
    RecordedMore(w, rows', rows, starts');
    StartsJoin(w, rows + rows', starts, starts');
  }

  lemma NewStartsClear(w: World, starts: seq<Start>, steps: seq<PlanStep>, pass: nat, outputs: map<int, string>, stage: int)
    requires StartsClear(w, starts) && !w.cancelled(pass, 0) && !w.cancelled(pass, stage)
    requires forall s :: s in steps ==> s.stage == stage
    ensures StartsClear(w, starts + StartsOf(steps, pass, outputs))
  {
    var more := StartsOf(steps, pass, outputs);
    forall j | 0 <= j < |starts + more|
      ensures !w.cancelled((starts + more)[j].pass, 0) && !w.cancelled((starts + more)[j].pass, (starts + more)[j].step.stage)
    {
      if j >= |starts| {
        assert (starts + more)[j] == more[j - |starts|] && more[j - |starts|].step in steps;
      }
    }
  }

  lemma EscapeIsGarbled(w: World, pass: nat, g: Group, outputs: map<int, string>, starts: seq<Start>)
    requires SomeEscape(w, pass, g.steps, outputs)
    ensures var all := starts + StartsOf(g.steps, pass, outputs);
            exists j :: 0 <= j < |all| && Garbled(w, ReplyTo(w, all[j]))
  {
    var i :| 0 <= i < |g.steps| && StepRun(w, pass, g.steps[i], outputs).Escaped?;
    StepTold(w, pass, g.steps[i], outputs);
    assert (starts + StartsOf(g.steps, pass, outputs))[|starts| + i] == Start(g.steps[i], pass, outputs);
  }

  lemma CrashedRows(w: World, cfg: Config, pass: nat, b: Books, g: Group, start: Db)
    requires SomeEscape(w, pass, g.steps, b.outputs) && Calm(start, b.view)
    ensures StageStep(w, cfg, pass, b, g).0.view.db.rows == b.view.db.rows
  {
    LaunchView(start, b, g);
  }

  lemma StageKeepsTold(start: Db, w: World, cfg: Config, b: Books, g: Group, replans: nat)
    requires Good(start, b, replans) && StageReady(g, b.completed) && AllTold(w, b)
    requires !w.cancelled(b.replans, 0) && !w.cancelled(b.replans, g.stage)
    ensures var r := StageStep(w, cfg, b.replans, b, g); LeftTold(w, r.0, r.1.StopCrashed?)
  {
    var pass := b.replans;
    var starts := StartsOf(g.steps, pass, b.outputs);
    StageStarts(w, cfg, pass, b, g);
    NewStartsClear(w, b.starts, g.steps, pass, b.outputs, g.stage);
    if SomeEscape(w, pass, g.steps, b.outputs) {
      CrashedRows(w, cfg, pass, b, g, start);
      EscapeIsGarbled(w, pass, g, b.outputs, b.starts);
      ToldMore(w, b.view.db.rows, b.starts, starts);
    } else {
      ByIdEscapes(w, pass, g.steps, b.outputs);
      StageRows(start, w, cfg, pass, b, g, replans);
      StageTells(w, pass, g, b.outputs, b.runSeq);
      var outs := OutcomesOf(w, pass, ById(g.steps), b.outputs);
      StageJoins(w, b.view.db.rows, b.starts, MarkedRows(b.runSeq, outs), starts);
      NotCrashed(w, cfg, pass, b, g);
    }
  }

  lemma NotCrashed(w: World, cfg: Config, pass: nat, b: Books, g: Group)
    ensures StageStep(w, cfg, pass, b, g).1.StopCrashed? <==> SomeEscape(w, pass, g.steps, b.outputs)
    ensures !StageStep(w, cfg, pass, b, g).1.StopCancelled?
  {
  }

  lemma StageKeepsReplans(w: World, cfg: Config, pass: nat, b: Books, g: Group)
    ensures StageStep(w, cfg, pass, b, g).0.replans == b.replans
  {
    if !SomeEscape(w, pass, g.steps, b.outputs) {
      ByIdEscapes(w, pass, g.steps, b.outputs);
      var outs := OutcomesOf(w, pass, ById(g.steps), b.outputs);
      PersistKeepsReplans(Launch(b, g), outs);
      RecordKeepsReplans(Persisted(Launch(b, g), outs), outs);
    }
  }

  lemma {:induction false} PersistKeepsReplans(b: Books, outs: seq<StepOutcome>)
    ensures PersistAll(b, outs).replans == b.replans
    decreases |outs|
  {
    if outs != [] {
      PersistKeepsReplans(PersistOne(b, outs[0]), outs[1..]);
    }
  }

  lemma {:induction false} RecordKeepsReplans(b: Books, outs: seq<StepOutcome>)
    ensures RecordSuccesses(b, outs).replans == b.replans
    decreases |outs|
  {
    if outs != [] {
      if outs[0].status.Success? {
        RecordKeepsReplans(
          b.(completed := b.completed + {outs[0].step.id}, outputs := b.outputs[outs[0].step.id := outs[0].output]), outs[1..]);
      } else {
        RecordKeepsReplans(b, outs[1..]);
      }
    }
  }

  // ----- one pass --------------------------------------------------------------------------

  /** A step of the plan stands in a stage before which the flag reads set. */
  predicate StageCancelled(w: World, b: Books) {
    exists s :: s in b.plan.steps && w.cancelled(b.replans, s.stage)
  }

  /** What the stages of a pass leave. */
  ghost predicate PassTold(w: World, b: Books, r: (Books, Verdict)) {
    && LeftTold(w, r.0, r.1.StopCrashed?) && r.0.replans == b.replans && r.0.plan == b.plan
    && (r.1.StopCancelled? ==> StageCancelled(w, r.0))
  }

  predicate NoneEmpty(groups: seq<Group>) {
    forall i :: 0 <= i < |groups| ==> groups[i].steps != []
  }

  lemma FirstGroupInPlan(b: Books, groups: seq<Group>)
    requires PassReady(b.plan.steps, b.completed, groups) && groups != [] && NoneEmpty(groups)
    ensures exists s :: s in b.plan.steps && s.stage == groups[0].stage
  {
    assert PendingGroup(b.plan.steps, b.completed, groups[0]);
    var s := groups[0].steps[0];
    assert s in groups[0].steps;
  }

  /** The first of the stages still to run. */
  lemma FirstStageTold(start: Db, w: World, cfg: Config, b: Books, groups: seq<Group>, replans: nat)
    requires PassPoint(start, b, groups, replans) && groups != [] && AllTold(w, b)
    requires !w.cancelled(b.replans, 0) && !w.cancelled(b.replans, groups[0].stage)
    ensures PassTold(w, b, StageStep(w, cfg, b.replans, b, groups[0]))
  {
    FirstStageReady(b.plan.steps, b.completed, groups);
    StageKeepsTold(start, w, cfg, b, groups[0], replans);
    NotCrashed(w, cfg, b.replans, b, groups[0]);
    StageKeepsReplans(w, cfg, b.replans, b, groups[0]);
    StageKeepsPlan(w, cfg, b.replans, b, groups[0]);
  }

  lemma NoStageTold(w: World, b: Books)
    requires AllTold(w, b)
    ensures PassTold(w, b, (b, GoOn))
  {
  }

  lemma CancelledStage(w: World, b: Books, groups: seq<Group>)
    requires PassReady(b.plan.steps, b.completed, groups) && groups != [] && NoneEmpty(groups) && AllTold(w, b)
    requires w.cancelled(b.replans, groups[0].stage)
    ensures PassTold(w, b, (b, StopCancelled))
  {
    FirstGroupInPlan(b, groups);
  }

  lemma StagesAre(w: World, cfg: Config, pass: nat, b: Books, groups: seq<Group>, first: (Books, Verdict))
    requires groups != [] && !w.cancelled(pass, groups[0].stage) && first == StageStep(w, cfg, pass, b, groups[0])
    ensures RunStages(w, cfg, pass, b, groups) ==
            if first.1.GoOn? then RunStages(w, cfg, pass, first.0, groups[1..]) else first
  {
  }

  lemma PassGoesOn(w: World, b: Books, first: (Books, Verdict), r: (Books, Verdict))
    requires PassTold(w, b, first) && PassTold(w, first.0, r)
    ensures PassTold(w, b, r)
  {
  }

  lemma SecondStage(start: Db, w: World, cfg: Config, b: Books, groups: seq<Group>, replans: nat, first: (Books, Verdict))
    requires PassPoint(start, b, groups, replans) && groups != [] && first == StageStep(w, cfg, b.replans, b, groups[0])
    requires first.1.GoOn? && PassTold(w, b, first) && NoneEmpty(groups)
    ensures PassPoint(start, first.0, groups[1..], replans) && NoneEmpty(groups[1..]) && AllTold(w, first.0)
  {
    FirstStage(start, w, cfg, b.replans, b, groups, replans);
    NextPoint(start, b, groups, first.0, replans);
  }

  lemma {:induction false} StagesTold(start: Db, w: World, cfg: Config, b: Books, groups: seq<Group>, replans: nat)
    requires PassPoint(start, b, groups, replans) && NoneEmpty(groups) && AllTold(w, b) && !w.cancelled(b.replans, 0)
    ensures PassTold(w, b, RunStages(w, cfg, b.replans, b, groups))
    decreases |groups|
  {
    if groups == [] {
      NoStageTold(w, b);
    } else if w.cancelled(b.replans, groups[0].stage) {
      CancelledStage(w, b, groups);
    } else {
      var first := StageStep(w, cfg, b.replans, b, groups[0]);
      FirstStageTold(start, w, cfg, b, groups, replans);
      StagesAre(w, cfg, b.replans, b, groups, first);
      if first.1.GoOn? {
        SecondStage(start, w, cfg, b, groups, replans, first);
        StagesTold(start, w, cfg, first.0, groups[1..], replans);
        PassGoesOn(w, b, first, RunStages(w, cfg, first.0.replans, first.0, groups[1..]));
      }
    }
  }

  // ----- the passes ------------------------------------------------------------------------

  /** How the executing phase ends, by what was said and by the flag. */
  ghost predicate EndTold(w: World, b: Books, f: Finish) {
    && LeftTold(w, b, f.Escape?)
    && HeadsClear(w, b.replans)
    && (f.WasCancelled? ==> w.cancelled(b.replans, 0) || StageCancelled(w, b))
    && (w.cancelled(b.replans, 0) ==> f.WasCancelled? || f.PlannerGaveUp?)
  }

  lemma PlannerKeepsRows(start: Db, w: World, cfg: Config, b: Books)
    requires Calm(start, b.view)
    ensures CallPlanner(w, cfg, b.replans, 0, ZERO_TALLY, b.view).0.db.rows == b.view.db.rows
  {
    PlannerKeeps(start, w, cfg, b.replans, 0, ZERO_TALLY, b.view);
  }

  lemma AdoptTold(start: Db, w: World, cfg: Config, b: Books, plan: Plan, payload: Json, spent: Tally, first: bool)
    requires AllTold(w, b)
    ensures AllTold(w, Adopt(b, plan, payload, spent, first))
  {
    var row := PlanRow(b.runSeq + 1, plan, payload, spent.usage);
    var rows := b.view.db.rows;
    assert Adopt(b, plan, payload, spent, first).view.db.rows == rows + [row];
    assert RowsTold(w, [row], b.starts);
    RowsJoin(w, rows, [row], b.starts);
    RecordedMore(w, rows, [row], b.starts);
  }

  /** One turn of the loop. */
  ghost predicate TurnTold(w: World, b: Books, t: PlanExecuteSpec.Turn) {
    match t
    case Stops(b', f) => EndTold(w, b', f)
    case Continues(b') => AllTold(w, b') && HeadsClear(w, b'.replans)
  }

  lemma SameRowsTold(w: World, b: Books, b': Books)
    requires AllTold(w, b) && b'.view.db.rows == b.view.db.rows && b'.starts == b.starts
    ensures AllTold(w, b')
  {
  }

  lemma NextPlanTold(start: Db, w: World, cfg: Config, b: Books)
    requires Calm(start, b.view) && AllTold(w, b) && HeadsClear(w, b.replans)
    ensures TurnTold(w, b, NextPlan(w, cfg, b))
  {
    PlannerKeepsRows(start, w, cfg, b);
    var (view, end) := CallPlanner(w, cfg, b.replans, 0, ZERO_TALLY, b.view);
    SameRowsTold(w, b, b.(view := view));
    if end.Planned? {
      AdoptTold(start, w, cfg, b.(view := view), end.plan, end.payload, end.spent, false);
    }
  }

  lemma NextHeadClear(w: World, n: nat)
    requires HeadsClear(w, n) && !w.cancelled(n, 0)
    ensures HeadsClear(w, n + 1)
  {
  }

  lemma FinishTold(w: World, b: Books, r: (Books, Verdict))
    requires PassTold(w, b, r) && HeadsClear(w, b.replans) && !w.cancelled(b.replans, 0)
    ensures EndTold(w, r.0, FinishOf(r.1))
  {
  }

  lemma AfterPassTold(start: Db, w: World, cfg: Config, b: Books, r: (Books, Verdict))
    requires PassTold(w, b, r) && HeadsClear(w, b.replans) && !w.cancelled(b.replans, 0) && r.1.AskReplan?
    requires Sane(start, r.0)
    ensures TurnTold(w, b, NextPlan(w, cfg, Replanning(r.0, b.replans)))
  {
    var b2 := Replanning(r.0, b.replans);
    CalmStep(start, r.0.view, Emit(Working(Planning)));
    SameRowsTold(w, r.0, b2);
    NextHeadClear(w, b.replans);
    NextPlanTold(start, w, cfg, b2);
  }

  lemma TurnIsTold(start: Db, w: World, cfg: Config, b: Books)
    requires PassStart(start, cfg, b) && AllTold(w, b) && HeadsClear(w, b.replans)
    ensures TurnTold(w, b, PassTurn(w, cfg, b))
  {
    if !w.cancelled(b.replans, 0) && NotDone(b.plan.steps, b.completed) != [] {
      var groups := Groups(NotDone(b.plan.steps, b.completed));
      var r := RunStages(w, cfg, b.replans, b, groups);
      PassPointAt(start, cfg, b);
      GroupsPartition(NotDone(b.plan.steps, b.completed));
      PassKeeps(start, w, cfg, b);
      StagesTold(start, w, cfg, b, groups, b.replans);
      PassTurnIs(w, cfg, b, r.0, r.1);
      if r.1.AskReplan? && b.replans < MAX_REPLANS {
        AfterPassTold(start, w, cfg, b, r);
      } else {
        FinishTold(w, b, r);
      }
    }
  }

  lemma {:induction false} PassesTold(start: Db, w: World, cfg: Config, b: Books)
    requires PassStart(start, cfg, b) && AllTold(w, b) && HeadsClear(w, b.replans)
    ensures EndTold(w, Passes(w, cfg, b).0, Passes(w, cfg, b).1)
    decreases MAX_REPLANS + 1 - b.replans
  {
    var t := PassTurn(w, cfg, b);
    TurnIsTold(start, w, cfg, b);
    TurnKeeps(start, w, cfg, b);
    PassesUnfold(w, cfg, b);
    if t.Continues? {
      PassesTold(start, w, cfg, t.books);
    }
  }

  // ----- the run ---------------------------------------------------------------------------

  /** Every step row of a run records a start and what was said to it: status, output, tokens, tool result; every start is
      recorded and could be read, unless the run crashed on one that could not; no step is started where the flag reads
      set, and a run is cancelled at a head or before a stage where it does. */
  lemma RunTold(start: Db, w: World, cfg: Config)
    requires Theorems.FreshStart(start) && cfg.maxSteps >= 1
    ensures EndTold(w, PlanAndExecute(w, cfg, start).0, PlanAndExecute(w, cfg, start).1)
  {
    Theorems.OpeningCalm(start, cfg);
    PlannerKeeps(start, w, cfg, 0, 0, ZERO_TALLY, Opening(cfg, start));
    var (v, end) := CallPlanner(w, cfg, 0, 0, ZERO_TALLY, Opening(cfg, start));
    assert AllTold(w, EmptyBooks(v));
    if end.Planned? {
      AdoptTold(start, w, cfg, EmptyBooks(v), end.plan, end.payload, end.spent, true);
      Theorems.FirstPlan(start, cfg, v, end.plan, end.payload, end.spent);
      PassesTold(start, w, cfg, Adopt(EmptyBooks(v), end.plan, end.payload, end.spent, true));
    }
  }

  /** Some started step was told a failure, or nothing the program understands. */
  predicate SomeFails(w: World, starts: seq<Start>) {
    exists j :: 0 <= j < |starts| && Fails(w, ReplyTo(w, starts[j]))
  }

  predicate SomeGarbled(w: World, starts: seq<Start>) {
    exists j :: 0 <= j < |starts| && Garbled(w, ReplyTo(w, starts[j]))
  }

  lemma FailingStart(w: World, rows: seq<StepRow>, starts: seq<Start>)
    requires StartsTold(w, rows, starts) && SomeFails(w, starts)
    ensures !NoFailures(rows)
  {
    var j :| 0 <= j < |starts| && Fails(w, ReplyTo(w, starts[j]));
    assert Recorded1(w, rows, starts[j]);
    var i :| 0 <= i < |rows| && Tells(w, rows[i], starts[j]);
    assert HasStatus(rows[i], Failure);
  }

  lemma FailingRow(w: World, rows: seq<StepRow>, starts: seq<Start>)
    requires RowsTold(w, rows, starts) && !NoFailures(rows)
    ensures SomeFails(w, starts)
  {
    var i :| 0 <= i < |rows| && HasStatus(rows[i], Failure);
    assert Told(w, rows[i], starts);
    var j :| 0 <= j < |starts| && Tells(w, rows[i], starts[j]);
    assert Fails(w, ReplyTo(w, starts[j]));
  }

  lemma FailingRows(w: World, rows: seq<StepRow>, starts: seq<Start>)
    requires RowsTold(w, rows, starts) && StartsTold(w, rows, starts)
    ensures !NoFailures(rows) <==> SomeFails(w, starts)
  {
    if SomeFails(w, starts) {
      FailingStart(w, rows, starts);
    }
    if !NoFailures(rows) {
      FailingRow(w, rows, starts);
    }
  }

  /** A run crashes exactly when a step it started got a reply that cannot be read; else it ends for a failed step exactly
      when a step it started was told a failure or nothing the program understands. */
  lemma FailureDecided(start: Db, w: World, cfg: Config)
    requires Theorems.FreshStart(start) && cfg.maxSteps >= 1
    ensures var (b, f) := PlanAndExecute(w, cfg, start);
            && (f.Escape? <==> SomeGarbled(w, b.starts))
            && (f.StepFailure? <==> !SomeGarbled(w, b.starts) && SomeFails(w, b.starts))
  {
    var (b, f) := PlanAndExecute(w, cfg, start);
    RunTold(start, w, cfg);
    Theorems.CompletedWorkIsStable(start, w, cfg);
    if !f.Escape? {
      FailingRows(w, b.view.db.rows, b.starts);
    }
  }

  /** How each end of the executing phase is stored. */
  predicate StoredAs(e: Exit, status: Status, reason: Reason) {
    e.Left? && e.view.committed.run.status == status && e.view.committed.run.reason == Some(reason)
  }

  lemma ClosedAs(v: View, c: Closing)
    requires WellFormed(c) && c.reason.Some?
    ensures StoredAs(Left(CloseView(v, c)), c.status, c.reason.value)
  {
    CloseViewDb(v, c);
  }

  /** The stored ending: a failed step, one replan too many, a planner that gave up, a cancel, each as itself and none as
      another. */
  lemma EndingStored(start: Db, w: World, cfg: Config)
    requires Theorems.FreshStart(start) && cfg.maxSteps >= 1 && |start.messages| < HARD_CAP
    ensures var (b, f) := PlanAndExecute(w, cfg, start);
            var e := RunResult(w, cfg, start);
            && (StoredAs(e, Failed, StepFailed) <==> !SomeGarbled(w, b.starts) && SomeFails(w, b.starts))
            && (f.TooManyReplans? <==> StoredAs(e, Failed, ReplanExceeded))
            && (f.WasCancelled? <==> StoredAs(e, Cancelled, CancelRequested))
            && (f.PlannerGaveUp? ==> StoredAs(e, Failed, f.reason))
            && (SomeGarbled(w, b.starts) ==> e.Raised?)
  {
    var (b, f) := PlanAndExecute(w, cfg, start);
    FailureDecided(start, w, cfg);
    Theorems.RunPhases(start, w, cfg);
    ConcludedAs(start, w, cfg, b, f);
  }

  lemma ConcludedAs(start: Db, w: World, cfg: Config, b: Books, f: Finish)
    requires Theorems.RanFrom(start, cfg, b, f)
    ensures var e := Conclude(w, cfg, b, f);
            && (f.StepFailure? <==> StoredAs(e, Failed, StepFailed))
            && (f.TooManyReplans? <==> StoredAs(e, Failed, ReplanExceeded))
            && (f.WasCancelled? <==> StoredAs(e, Cancelled, CancelRequested))
            && (f.PlannerGaveUp? ==> StoredAs(e, Failed, f.reason))
            && (f.Escape? ==> e.Raised?)
  {
    Theorems.RanBalanced(start, cfg, b, f);
    match f {
      case WasCancelled => ClosedAs(b.view, Closing(Cancelled, Some(CancelRequested), None, b.tally, 0));
      case StepFailure => ClosedAs(b.view, Closing(Failed, Some(StepFailed), None, b.tally, 0));
      case TooManyReplans => ClosedAs(b.view, Closing(Failed, Some(ReplanExceeded), None, b.tally, 0));
      case PlannerGaveUp(reason, spent) =>
        ClosedAs(b.view, Closing(Failed, Some(reason), None, Charge(b.tally, spent.usage, spent.cost), 0));
      case Escape =>
      case AllDone => SynthesisAs(start, w, cfg, b, false);
      case HitTokens => SynthesisAs(start, w, cfg, b, true);
    }
  }

  lemma SynthesisAs(start: Db, w: World, cfg: Config, b: Books, hitTokens: bool)
    requires Calm(start, b.view) && Balanced(b.view, b.tally.usage, b.runSeq, 0)
    ensures var e := Synthesize(w, cfg, b, hitTokens);
            !StoredAs(e, Failed, StepFailed) && !StoredAs(e, Failed, ReplanExceeded) && !StoredAs(e, Cancelled, CancelRequested)
  {
    Theorems.SynthesizeExit(start, w, cfg, b, hitTokens);
  }
}
