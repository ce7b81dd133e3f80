/** A pass over a plan's stages and the replan loop: dependency safety, stability, the call budget. */
module PlanExecutePasses {
  import opened Basics
  import opened Sequences
  import opened Trace
  import opened Protocol
  import opened Invariants
  import opened Tools
  import opened PlanValidator
  import opened Stages
  import opened StepRunner
  import opened PlanExecuteSpec
  import opened PlanExecuteFacts
  import opened PlanExecuteStages

  // ----- dependency safety -----------------------------------------------------------------

  /** Group `g` holds pending steps of the plan, all of its own stage. */
  predicate PendingGroup(steps: seq<PlanStep>, completed: set<int>, g: Group) {
    DistinctIds(g.steps) && forall s :: s in g.steps ==> s in steps && s.stage == g.stage && s.id !in completed
  }

  predicate InSomeGroup(s: PlanStep, groups: seq<Group>) {
    exists i :: 0 <= i < |groups| && s in groups[i].steps
  }

  /** The stages still to run: ascending, made of pending steps, and covering every step not completed. */
  predicate PassReady(steps: seq<PlanStep>, completed: set<int>, groups: seq<Group>) {
    && DistinctIds(steps) && DependenciesOk(steps)
    && (forall i, j :: 0 <= i < j < |groups| ==> groups[i].stage < groups[j].stage)
    && (forall i :: 0 <= i < |groups| ==> PendingGroup(steps, completed, groups[i]))
    && (forall s :: s in steps ==> s.id in completed || InSomeGroup(s, groups))
  }

  lemma GroupedNotBelow(steps: seq<PlanStep>, completed: set<int>, groups: seq<Group>, s: PlanStep)
    requires PassReady(steps, completed, groups) && groups != []
    ensures InSomeGroup(s, groups) ==> groups[0].stage <= s.stage
  {
    if InSomeGroup(s, groups) {
      var k :| 0 <= k < |groups| && s in groups[k].steps;
      assert PendingGroup(steps, completed, groups[k]);
    }
  }

  /** A dependency of a step in the first stage is completed: it sits at a lower stage, and none is left. */
  lemma FirstStageDependency(steps: seq<PlanStep>, completed: set<int>, groups: seq<Group>, s: PlanStep, d: int)
    requires PassReady(steps, completed, groups) && groups != []
    requires s in groups[0].steps && d in s.dependsOn
    ensures d in completed
  {
    assert PendingGroup(steps, completed, groups[0]);
    var i :| 0 <= i < |steps| && steps[i] == s;
    var e :| 0 <= e < |s.dependsOn| && s.dependsOn[e] == d;
    assert LowerStep(steps, steps[i].dependsOn[e], steps[i].stage);
    var j :| 0 <= j < |steps| && steps[j].id == d && steps[j].stage < s.stage;
    assert steps[j] in steps;
    GroupedNotBelow(steps, completed, groups, steps[j]);
  }

  lemma SameIdSameStep(steps: seq<PlanStep>, s: PlanStep, t: PlanStep)
    requires DistinctIds(steps) && s in steps && t in steps && s.id == t.id
    ensures s == t
  {
    var a :| 0 <= a < |steps| && steps[a] == s;
    var b :| 0 <= b < |steps| && steps[b] == t;
    assert a == b;
  }

  lemma FirstStageReady(steps: seq<PlanStep>, completed: set<int>, groups: seq<Group>)
    requires PassReady(steps, completed, groups) && groups != []
    ensures StageReady(groups[0], completed)
  {
    assert PendingGroup(steps, completed, groups[0]);
    forall s, d | s in groups[0].steps && d in s.dependsOn ensures d in completed {
      FirstStageDependency(steps, completed, groups, s, d);
    }
  }

  lemma LaterGroupPending(steps: seq<PlanStep>, completed: set<int>, completed': set<int>, groups: seq<Group>, i: nat)
    requires PassReady(steps, completed, groups) && 1 <= i < |groups|
    requires forall id :: id in completed' ==> id in completed || exists s :: s in groups[0].steps && s.id == id
    ensures PendingGroup(steps, completed', groups[i])
  {
    assert PendingGroup(steps, completed, groups[i]) && PendingGroup(steps, completed, groups[0]);
    assert groups[0].stage < groups[i].stage;
    forall s, t | s in groups[i].steps && t in groups[0].steps ensures s.id != t.id {
      if s.id == t.id { SameIdSameStep(steps, s, t); }
    }
  }

  /** Once the first stage has gone on, the remaining stages are ready. */
  lemma NextStageReady(steps: seq<PlanStep>, completed: set<int>, completed': set<int>, groups: seq<Group>)
    requires PassReady(steps, completed, groups) && groups != []
    requires forall id :: id in completed' ==> id in completed || exists s :: s in groups[0].steps && s.id == id
    requires completed <= completed' && forall s :: s in groups[0].steps ==> s.id in completed'
    ensures PassReady(steps, completed', groups[1..])
  {
    var rest := groups[1..];
    forall i | 0 <= i < |rest| ensures PendingGroup(steps, completed', rest[i]) {
      LaterGroupPending(steps, completed, completed', groups, i + 1);
    }
    forall s | s in steps ensures s.id in completed' || InSomeGroup(s, rest) {
      if s.id !in completed' {
        var i :| 0 <= i < |groups| && s in groups[i].steps;
        assert rest[i - 1] == groups[i];
      }
    }
  }

  lemma {:induction false} NotDoneDistinct(steps: seq<PlanStep>, completed: set<int>)
    requires DistinctIds(steps)
    ensures DistinctIds(NotDone(steps, completed))
  {
    if steps != [] {
      var init := steps[..|steps| - 1];
      NotDoneDistinct(init, completed);
      NotDoneElements(init, completed);
      forall s | s in NotDone(init, completed) ensures s.id != steps[|steps| - 1].id {
        var j :| 0 <= j < |init| && init[j] == s;
      }
    }
  }

  lemma PassBegins(steps: seq<PlanStep>, completed: set<int>)
    requires DistinctIds(steps) && DependenciesOk(steps)
    ensures PassReady(steps, completed, Groups(NotDone(steps, completed)))
  {
    var left := NotDone(steps, completed);
    var groups := Groups(left);
    NotDoneDistinct(steps, completed);
    NotDoneElements(steps, completed);
    GroupsPartition(left);
    forall i | 0 <= i < |groups| ensures PendingGroup(steps, completed, groups[i]) {
      OfStageDistinct(left, groups[i].stage);
      OfStageElements(left, groups[i].stage);
      assert groups[i].steps == OfStage(left, groups[i].stage);
    }
    forall s | s in steps ensures s.id in completed || InSomeGroup(s, groups) {
      if s.id !in completed {
        assert s in left;
        var i :| 0 <= i < |groups| && groups[i].stage == s.stage && s in groups[i].steps;
      }
    }
  }

  // ----- how many steps a pass runs --------------------------------------------------------

  function TotalOver(steps: seq<PlanStep>, ks: seq<int>): nat {
    if ks == [] then 0 else TotalOver(steps, ks[..|ks| - 1]) + |OfStage(steps, ks[|ks| - 1])|
  }

  /** Adding one step adds to one stage at most. */
  lemma {:induction false} TotalOverSnoc(steps: seq<PlanStep>, ks: seq<int>)
    requires steps != [] && Ascending(ks)
    ensures TotalOver(steps, ks) <= TotalOver(steps[..|steps| - 1], ks) + if steps[|steps| - 1].stage in ks then 1 else 0
  {
    if ks != [] {
      var init, last := ks[..|ks| - 1], ks[|ks| - 1];
      TotalOverSnoc(steps, init);
      InitLast(ks);
      if steps[|steps| - 1].stage == last {
        assert last !in init;
      }
    }
  }

  lemma {:induction false} TotalBounded(steps: seq<PlanStep>, ks: seq<int>)
    requires Ascending(ks)
    ensures TotalOver(steps, ks) <= |steps|
  {
    if steps == [] {
      TotalOverNothing(steps, ks);
    } else {
      TotalOverSnoc(steps, ks);
      TotalBounded(steps[..|steps| - 1], ks);
    }
  }

  lemma {:induction false} TotalOverNothing(steps: seq<PlanStep>, ks: seq<int>)
    requires steps == []
    ensures TotalOver(steps, ks) == 0
  {
    if ks != [] { TotalOverNothing(steps, ks[..|ks| - 1]); }
  }

  lemma {:induction false} StageTotalSnoc(groups: seq<Group>, g: Group)
    ensures StageTotal(groups + [g]) == StageTotal(groups) + |g.steps|
  {
    if groups == [] {
      assert groups + [g] == [g];
    } else {
      StageTotalSnoc(groups[1..], g);
      assert (groups + [g])[1..] == groups[1..] + [g];
    }
  }

  lemma {:induction false} StageTotalIs(steps: seq<PlanStep>, ks: seq<int>, groups: seq<Group>)
    requires |groups| == |ks| && forall i :: 0 <= i < |ks| ==> groups[i].steps == OfStage(steps, ks[i])
    ensures StageTotal(groups) == TotalOver(steps, ks)
    decreases |ks|
  {
    if ks != [] {
      var n := |ks| - 1;
      StageTotalIs(steps, ks[..n], groups[..n]);
      StageTotalSnoc(groups[..n], groups[n]);
      InitLast(groups);
    }
  }

  lemma PassTotal(steps: seq<PlanStep>)
    ensures StageTotal(Groups(steps)) <= |steps|
  {
    StageNumbersAre(steps);
    StageTotalIs(steps, StageNumbers(steps), Groups(steps));
    TotalBounded(steps, StageNumbers(steps));
  }

  // ----- a pass ----------------------------------------------------------------------------

  /** What a pass leaves, by verdict. */
  predicate PassLeft(start: Db, b: Books, groups: seq<Group>, b': Books, v: Verdict, replans: nat) {
    && Sane(start, b')
    && Submap(b.outputs, b'.outputs)
    && (v.GoOn? || v.AskReplan? || v.StopTokens? || v.StopCancelled? ==> Good(start, b', replans))
    && (v.GoOn? ==> forall s :: s in b.plan.steps ==> s.id in b'.completed)
    && (v.StopFailed? <==> !NoFailures(b'.view.db.rows))
    && b'.plan == b.plan
    && Asks(b'.view.log) <= Asks(b.view.log) + StageTotal(groups)
  }

  lemma StageKeepsPlan(w: World, cfg: Config, pass: nat, b: Books, g: Group)
    ensures StageStep(w, cfg, pass, b, g).0.plan == b.plan
  {
    if !SomeEscape(w, pass, g.steps, b.outputs) {
      ByIdEscapes(w, pass, g.steps, b.outputs);
      var outs := OutcomesOf(w, pass, ById(g.steps), b.outputs);
      PersistKeepsPlan(Launch(b, g), outs);
      RecordKeepsPlan(Persisted(Launch(b, g), outs), outs);
    }
  }

  lemma {:induction false} PersistKeepsPlan(b: Books, outs: seq<StepOutcome>)
    ensures PersistAll(b, outs).plan == b.plan
    decreases |outs|
  {
    if outs != [] { PersistKeepsPlan(PersistOne(b, outs[0]), outs[1..]); }
  }

  lemma {:induction false} RecordKeepsPlan(b: Books, outs: seq<StepOutcome>)
    ensures RecordSuccesses(b, outs).plan == b.plan
    decreases |outs|
  {
    if outs != [] {
      if outs[0].status.Success? {
        var b1 := b.(completed := b.completed + {outs[0].step.id}, outputs := b.outputs[outs[0].step.id := outs[0].output]);
        RecordKeepsPlan(b1, outs[1..]);
      } else {
        RecordKeepsPlan(b, outs[1..]);
      }
    }
  }

  lemma PassLeftStop(start: Db, b: Books, groups: seq<Group>, b1: Books, v: Verdict, replans: nat)
    requires groups != [] && StageLeft(start, b, groups[0], b1, v, replans) && !v.GoOn? && b1.plan == b.plan
    ensures PassLeft(start, b, groups, b1, v, replans)
  {
  }

  lemma PassLeftCons(start: Db, b: Books, groups: seq<Group>, b1: Books, b2: Books, v: Verdict, replans: nat)
    requires groups != [] && StageLeft(start, b, groups[0], b1, GoOn, replans) && b1.plan == b.plan
    requires PassLeft(start, b1, groups[1..], b2, v, replans)
    ensures PassLeft(start, b, groups, b2, v, replans)
  {
  }

  lemma PassDone(start: Db, b: Books, groups: seq<Group>, v: Verdict, replans: nat)
    requires Good(start, b, replans) && PassReady(b.plan.steps, b.completed, groups)
    requires if groups == [] then v.GoOn? else v.StopCancelled?
    ensures PassLeft(start, b, groups, b, v, replans)
  {
    if groups == [] {
      forall s | s in b.plan.steps ensures s.id in b.completed {
        assert !InSomeGroup(s, groups);
      }
    }
  }

  /** Everything a pass may rely on when it is about to run these stages. */
  predicate PassPoint(start: Db, b: Books, groups: seq<Group>, replans: nat) {
    && Good(start, b, replans) && replans <= MAX_REPLANS
    && PassReady(b.plan.steps, b.completed, groups)
    && forall i :: 0 <= i < |groups| ==> PhaseOf(b.view.db.rows).stage < groups[i].stage
  }

  lemma FirstStage(start: Db, w: World, cfg: Config, pass: nat, b: Books, groups: seq<Group>, replans: nat)
    requires PassPoint(start, b, groups, replans) && groups != []
    ensures var (b1, v1) := StageStep(w, cfg, pass, b, groups[0]);
            StageLeft(start, b, groups[0], b1, v1, replans) && b1.plan == b.plan
  {
    FirstStageReady(b.plan.steps, b.completed, groups);
    StageKeeps(start, w, cfg, pass, b, groups[0], replans);
    StageKeepsPlan(w, cfg, pass, b, groups[0]);
  }

  lemma NextPoint(start: Db, b: Books, groups: seq<Group>, b1: Books, replans: nat)
    requires PassPoint(start, b, groups, replans) && groups != []
    requires StageLeft(start, b, groups[0], b1, GoOn, replans) && b1.plan == b.plan
    ensures PassPoint(start, b1, groups[1..], replans)
  {
    forall id | id in b.completed ensures id in b1.completed {
      assert id in b.outputs && id in b1.outputs;
    }
    NextStageReady(b.plan.steps, b.completed, b1.completed, groups);
  }

  lemma {:induction false} StagesKeep(
    start: Db, w: World, cfg: Config, pass: nat, b: Books, groups: seq<Group>, replans: nat)
    requires PassPoint(start, b, groups, replans)
    ensures var (b', v) := RunStages(w, cfg, pass, b, groups); PassLeft(start, b, groups, b', v, replans)
    decreases |groups|
  {
    if groups == [] || w.cancelled(pass, groups[0].stage) {
      PassDone(start, b, groups, if groups == [] then GoOn else StopCancelled, replans);
    } else {
      var (b1, v1) := StageStep(w, cfg, pass, b, groups[0]);
      FirstStage(start, w, cfg, pass, b, groups, replans);
      if v1.GoOn? {
        NextPoint(start, b, groups, b1, replans);
        var (b2, v2) := RunStages(w, cfg, pass, b1, groups[1..]);
        StagesKeep(start, w, cfg, pass, b1, groups[1..], replans);
        PassLeftCons(start, b, groups, b1, b2, v2, replans);
      } else {
        PassLeftStop(start, b, groups, b1, v1, replans);
      }
    }
  }

  // ----- the planner -----------------------------------------------------------------------

  /** What a planner round leaves. */
  predicate RoundLeft(start: Db, cfg: Config, v: View, v': View, end: PlannerEnd, calls: nat) {
    && Calm(start, v') && v'.db == v.db
    && Asks(v'.log) <= Asks(v.log) + calls
    && (end.Planned? ==> ValidPlan(end.plan, cfg.maxSteps, cfg.tools))
    && (end.PlannerFailed? ==> end.reason.LlmProviderError? || end.reason.PlanningFailed?)
  }

  lemma {:induction false} PlannerKeeps(start: Db, w: World, cfg: Config, pass: nat, attempt: nat, agg: Tally, v: View)
    requires Calm(start, v) && attempt <= MAX_PLANNER_RETRIES + 1
    ensures var (v', end) := CallPlanner(w, cfg, pass, attempt, agg, v);
            RoundLeft(start, cfg, v, v', end, MAX_PLANNER_RETRIES + 1 - attempt)
    decreases MAX_PLANNER_RETRIES + 1 - attempt
  {
    if attempt <= MAX_PLANNER_RETRIES {
      CalmStep(start, v, Ask);
      if w.planner(pass, attempt).Reply? {
        var r := w.planner(pass, attempt).reply;
        var data := w.loads(r.content);
        if Validated(data, cfg.maxSteps, cfg.tools).Some? {
          AcceptedPlansAreValid(data.value, cfg.maxSteps, cfg.tools);
        } else {
          PlannerKeeps(start, w, cfg, pass, attempt + 1, Charge(agg, r.usage, r.cost), Do(v, Ask));
        }
      }
    }
  }

  // ----- adopting a plan -------------------------------------------------------------------

  /** The point where a new pass starts: a valid plan has just been stored. */
  predicate PassStart(start: Db, cfg: Config, b: Books) {
    && Good(start, b, b.replans) && b.replans <= MAX_REPLANS
    && ValidPlan(b.plan, cfg.maxSteps, cfg.tools)
    && PhaseOf(b.view.db.rows) == InPlan(0, 0)
  }

  lemma RowsWithPlan(rows: seq<StepRow>, outputs: map<int, string>, starts: seq<Start>, row: StepRow)
    requires row.role.PlanRole? && row.mark.None?
    requires Recorded(rows, outputs) && FromStarts(rows, starts) && NoFailures(rows)
    ensures Recorded(rows + [row], outputs) && FromStarts(rows + [row], starts) && NoFailures(rows + [row])
  {
    var all := rows + [row];
    forall id | id in outputs ensures SuccessRow(all, id, outputs[id]) {
      var i :| 0 <= i < |rows| && HasStatus(rows[i], Success) && rows[i].mark.value.id == id && rows[i].content == Some(outputs[id]);
      assert all[i] == rows[i];
    }
    forall i | 0 <= i < |all| && all[i].role.StepResult? ensures Started(all[i], starts) {
      assert all[i] == rows[i];
    }
  }

  lemma PlanStored(start: Db, v: View, row: StepRow, payload: Json, first: bool)
    requires Calm(start, v)
    ensures Calm(start, StoredPlan(v, row, payload, first))
    ensures Asks(StoredPlan(v, row, payload, first).log) == Asks(v.log)
  {
    var v1 := Do(v, AddRow(row));
    CalmStep(start, v, AddRow(row));
    if first {
      CalmStep(start, v1, SetPlan(payload));
      CalmStep(start, Do(v1, SetPlan(payload)), Commit);
    } else {
      CalmStep(start, v1, Commit);
    }
  }

  lemma StoredPlanRows(v: View, row: StepRow, payload: Json, first: bool)
    ensures StoredPlan(v, row, payload, first).db.rows == v.db.rows + [row]
  {
  }

  lemma AdoptView(start: Db, b: Books, plan: Plan, payload: Json, spent: Tally, first: bool)
    requires Calm(start, b.view) && Balanced(b.view, b.tally.usage, b.runSeq, 0)
    ensures var b' := Adopt(b, plan, payload, spent, first);
            && Calm(start, b'.view) && Balanced(b'.view, b'.tally.usage, b'.runSeq, 0)
            && b'.view.db.rows == b.view.db.rows + [PlanRow(b.runSeq + 1, plan, payload, spent.usage)]
            && Asks(b'.view.log) == Asks(b.view.log)
  {
    var row := PlanRow(b.runSeq + 1, plan, payload, spent.usage);
    PlanStored(start, b.view, row, payload, first);
    StoredPlanRows(b.view, row, payload, first);
    BalancedRow(b.view, b.tally.usage, b.runSeq, 0, row);
  }

  lemma AdoptSame(b: Books, plan: Plan, payload: Json, spent: Tally, first: bool)
    ensures var b' := Adopt(b, plan, payload, spent, first);
            b'.outputs == b.outputs && b'.completed == b.completed && b'.starts == b.starts && b'.replans == b.replans
            && b'.plan == plan
  {
  }

  lemma PlanOpens(rows: seq<StepRow>, row: StepRow)
    requires row.role.PlanRole? && (PhaseOf(rows).AtStart? || PhaseOf(rows).InPlan?)
    ensures PhaseOf(rows + [row]) == InPlan(0, 0) && PlanRows(rows + [row]) == PlanRows(rows) + 1
  {
    PhaseSnoc(rows, row);
  }

  lemma GoodFrom(start: Db, b: Books, replans: nat)
    requires Calm(start, b.view) && Balanced(b.view, b.tally.usage, b.runSeq, 0)
    requires b.outputs.Keys == b.completed && Flows(b.starts, b.outputs)
    requires Recorded(b.view.db.rows, b.outputs) && FromStarts(b.view.db.rows, b.starts) && NoFailures(b.view.db.rows)
    requires PhaseOf(b.view.db.rows).InPlan? && PlanRows(b.view.db.rows) == replans + 1 <= MAX_REPLANS + 1
    ensures Good(start, b, replans)
  {
  }

  /** Storing a plan: the books stay sound, and the trace enters a new plan segment. */
  lemma AdoptKeeps(start: Db, cfg: Config, b: Books, plan: Plan, payload: Json, spent: Tally, first: bool)
    requires Calm(start, b.view) && Balanced(b.view, b.tally.usage, b.runSeq, 0)
    requires b.outputs.Keys == b.completed && Flows(b.starts, b.outputs)
    requires Recorded(b.view.db.rows, b.outputs) && FromStarts(b.view.db.rows, b.starts) && NoFailures(b.view.db.rows)
    requires PhaseOf(b.view.db.rows).AtStart? || PhaseOf(b.view.db.rows).InPlan?
    requires PlanRows(b.view.db.rows) == b.replans <= MAX_REPLANS
    requires ValidPlan(plan, cfg.maxSteps, cfg.tools)
    ensures PassStart(start, cfg, Adopt(b, plan, payload, spent, first))
    ensures Asks(Adopt(b, plan, payload, spent, first).view.log) == Asks(b.view.log)
  {
    var row := PlanRow(b.runSeq + 1, plan, payload, spent.usage);
    AdoptView(start, b, plan, payload, spent, first);
    AdoptSame(b, plan, payload, spent, first);
    RowsWithPlan(b.view.db.rows, b.outputs, b.starts, row);
    PlanOpens(b.view.db.rows, row);
    GoodFrom(start, Adopt(b, plan, payload, spent, first), b.replans);
  }

  // ----- the replan loop -------------------------------------------------------------------

  /** Chat calls a run may still make in its passes: this one's steps, and a planner round and a pass's steps
      for every replan left. */
  function Budget(maxSteps: int, replans: nat): (r: int)
    ensures maxSteps >= 0 ==> r >= maxSteps
    decreases MAX_REPLANS + 1 - replans
  {
    maxSteps + (if replans < MAX_REPLANS then MAX_PLANNER_RETRIES + 1 + Budget(maxSteps, replans + 1) else 0)
  }

  /** What the executing phase leaves, by finish. */
  predicate PhaseLeft(start: Db, cfg: Config, b: Books, f: Finish) {
    && Sane(start, b)
    && (f.StepFailure? <==> !NoFailures(b.view.db.rows))
    && (f.AllDone? ==> forall s :: s in b.plan.steps ==> s.id in b.completed)
    && (f.HitTokens? ==> b.tally.usage.tokensOut >= cfg.maxTokens)
    && (f.TooManyReplans? ==> PlanRows(b.view.db.rows) == MAX_REPLANS + 1)
    && (f.PlannerGaveUp? ==> f.reason.LlmProviderError? || f.reason.PlanningFailed?)
  }

  lemma StopTokensMeansBudget(w: World, cfg: Config, pass: nat, b: Books, groups: seq<Group>)
    ensures var (b', v) := RunStages(w, cfg, pass, b, groups); v.StopTokens? ==> b'.tally.usage.tokensOut >= cfg.maxTokens
    decreases |groups|
  {
    if groups != [] && !w.cancelled(pass, groups[0].stage) {
      var (b1, v1) := StageStep(w, cfg, pass, b, groups[0]);
      if v1.GoOn? {
        StopTokensMeansBudget(w, cfg, pass, b1, groups[1..]);
      } else if v1.StopTokens? {
        ByIdEscapes(w, pass, groups[0].steps, b.outputs);
        var outs := OutcomesOf(w, pass, ById(groups[0].steps), b.outputs);
        RecordKeepsTally(Persisted(Launch(b, groups[0]), outs), outs);
      }
    }
  }

  lemma {:induction false} RecordKeepsTally(b: Books, outs: seq<StepOutcome>)
    ensures RecordSuccesses(b, outs).tally == b.tally
    decreases |outs|
  {
    if outs != [] {
      if outs[0].status.Success? {
        var b1 := b.(completed := b.completed + {outs[0].step.id}, outputs := b.outputs[outs[0].step.id := outs[0].output]);
        RecordKeepsTally(b1, outs[1..]);
      } else {
        RecordKeepsTally(b, outs[1..]);
      }
    }
  }

  lemma PendingStagePositive(steps: seq<PlanStep>, completed: set<int>, i: nat)
    requires forall s :: s in steps ==> s.stage > 0
    requires i < |Groups(NotDone(steps, completed))|
    ensures Groups(NotDone(steps, completed))[i].stage > 0
  {
    var left := NotDone(steps, completed);
    StageNumbersAre(left);
    NotDoneElements(steps, completed);
    assert StageNumbers(left)[i] in StageNumbers(left);
  }

  lemma PassPointAt(start: Db, cfg: Config, b: Books)
    requires PassStart(start, cfg, b)
    ensures PassPoint(start, b, Groups(NotDone(b.plan.steps, b.completed)), b.replans)
    ensures StageTotal(Groups(NotDone(b.plan.steps, b.completed))) <= cfg.maxSteps
  {
    var left := NotDone(b.plan.steps, b.completed);
    PassBegins(b.plan.steps, b.completed);
    PassTotal(left);
    NotDoneElements(b.plan.steps, b.completed);
    forall i | 0 <= i < |Groups(left)| ensures 0 < Groups(left)[i].stage {
      PendingStagePositive(b.plan.steps, b.completed, i);
    }
  }

  /** One more planner round after a pass that asked for it. */
  lemma NextPlanKeeps(start: Db, w: World, cfg: Config, b: Books)
    requires Sane(start, b) && Recorded(b.view.db.rows, b.outputs) && NoFailures(b.view.db.rows)
    requires PlanRows(b.view.db.rows) == b.replans <= MAX_REPLANS
    ensures var t := NextPlan(w, cfg, b);
            && Asks(t.books.view.log) <= Asks(b.view.log) + MAX_PLANNER_RETRIES + 1
            && t.books.outputs == b.outputs
            && (t.Continues? ==> PassStart(start, cfg, t.books))
            && (t.Stops? ==> t.finish.PlannerGaveUp? && PhaseLeft(start, cfg, t.books, t.finish))
  {
    PlannerKeeps(start, w, cfg, b.replans, 0, ZERO_TALLY, b.view);
    var (view, end) := CallPlanner(w, cfg, b.replans, 0, ZERO_TALLY, b.view);
    if end.Planned? {
      AdoptKeeps(start, cfg, b.(view := view), end.plan, end.payload, end.spent, false);
    }
  }

  /** What the passes from `b` on may lead to. */
  predicate PassesLeft(start: Db, cfg: Config, b: Books, replans: nat, b': Books, f: Finish) {
    && PhaseLeft(start, cfg, b', f)
    && Submap(b.outputs, b'.outputs)
    && Asks(b'.view.log) <= Asks(b.view.log) + Budget(cfg.maxSteps, replans)
  }

  lemma LastPassLeft(start: Db, cfg: Config, b: Books, groups: seq<Group>, b1: Books, v: Verdict, replans: nat)
    requires PassLeft(start, b, groups, b1, v, replans) && StageTotal(groups) <= cfg.maxSteps
    requires v.AskReplan? ==> replans == MAX_REPLANS
    requires v.StopTokens? ==> b1.tally.usage.tokensOut >= cfg.maxTokens
    ensures PassesLeft(start, cfg, b, replans, b1, FinishOf(v))
  {
  }

  lemma NothingLeft(start: Db, cfg: Config, b: Books, f: Finish)
    requires PassStart(start, cfg, b)
    requires f.WasCancelled? || (f.AllDone? && NotDone(b.plan.steps, b.completed) == [])
    ensures PassesLeft(start, cfg, b, b.replans, b, f)
  {
    var left := NotDone(b.plan.steps, b.completed);
    NotDoneElements(b.plan.steps, b.completed);
    assert forall s :: s in b.plan.steps && s.id !in b.completed ==> s in left;
  }

  lemma MorePassesLeft(start: Db, cfg: Config, b: Books, replans: nat, b1: Books, b2: Books, f: Finish)
    requires PassesLeft(start, cfg, b1, replans + 1, b2, f) && replans < MAX_REPLANS
    requires Submap(b.outputs, b1.outputs)
    requires Asks(b1.view.log) <= Asks(b.view.log) + cfg.maxSteps + MAX_PLANNER_RETRIES + 1
    ensures PassesLeft(start, cfg, b, replans, b2, f)
  {
  }

  lemma PassKeeps(start: Db, w: World, cfg: Config, b: Books)
    requires PassStart(start, cfg, b)
    ensures var groups := Groups(NotDone(b.plan.steps, b.completed));
            var (b1, v) := RunStages(w, cfg, b.replans, b, groups);
            && PassLeft(start, b, groups, b1, v, b.replans)
            && StageTotal(groups) <= cfg.maxSteps
            && (v.StopTokens? ==> b1.tally.usage.tokensOut >= cfg.maxTokens)
  {
    var groups := Groups(NotDone(b.plan.steps, b.completed));
    PassPointAt(start, cfg, b);
    StagesKeep(start, w, cfg, b.replans, b, groups, b.replans);
    StopTokensMeansBudget(w, cfg, b.replans, b, groups);
  }

  lemma ReplanningKeeps(start: Db, b: Books, replans: nat)
    requires Good(start, b, replans)
    ensures Sane(start, Replanning(b, replans))
    ensures Replanning(b, replans).view.db == b.view.db
    ensures Asks(Replanning(b, replans).view.log) == Asks(b.view.log)
  {
    CalmStep(start, b.view, Emit(Working(Planning)));
  }

  /** What one turn of the loop leaves. */
  predicate TurnLeft(start: Db, cfg: Config, b: Books, t: Turn) {
    match t
    case Stops(b', f) => PassesLeft(start, cfg, b, b.replans, b', f)
    case Continues(b') =>
      && PassStart(start, cfg, b') && Submap(b.outputs, b'.outputs)
      && b.replans < MAX_REPLANS && b'.replans == b.replans + 1
      && Asks(b'.view.log) <= Asks(b.view.log) + cfg.maxSteps + MAX_PLANNER_RETRIES + 1
  }

  lemma TurnAfterRequest(start: Db, w: World, cfg: Config, b: Books, groups: seq<Group>, b1: Books, v: Verdict)
    requires PassStart(start, cfg, b) && b.replans < MAX_REPLANS
    requires PassLeft(start, b, groups, b1, v, b.replans) && v.AskReplan? && StageTotal(groups) <= cfg.maxSteps
    ensures TurnLeft(start, cfg, b, NextPlan(w, cfg, Replanning(b1, b.replans)))
  {
    var b2 := Replanning(b1, b.replans);
    ReplanningKeeps(start, b1, b.replans);
    NextPlanKeeps(start, w, cfg, b2);
  }

  lemma TurnKeeps(start: Db, w: World, cfg: Config, b: Books)
    requires PassStart(start, cfg, b)
    ensures TurnLeft(start, cfg, b, PassTurn(w, cfg, b))
  {
    var left := NotDone(b.plan.steps, b.completed);
    if w.cancelled(b.replans, 0) {
      NothingLeft(start, cfg, b, WasCancelled);
    } else if left == [] {
      NothingLeft(start, cfg, b, AllDone);
    } else {
      var groups := Groups(left);
      var (b1, v) := RunStages(w, cfg, b.replans, b, groups);
      PassKeeps(start, w, cfg, b);
      if v.AskReplan? && b.replans < MAX_REPLANS {
        TurnAfterRequest(start, w, cfg, b, groups, b1, v);
      } else {
        LastPassLeft(start, cfg, b, groups, b1, v, b.replans);
      }
    }
  }

  lemma TurnStop(start: Db, cfg: Config, b: Books, t: Turn, r: (Books, Finish))
    requires t.Stops? && TurnLeft(start, cfg, b, t) && r == (t.books, t.finish)
    ensures PassesLeft(start, cfg, b, b.replans, r.0, r.1)
  {
  }

  lemma TurnThen(start: Db, cfg: Config, b: Books, t: Turn, r: (Books, Finish))
    requires t.Continues? && TurnLeft(start, cfg, b, t) && PassesLeft(start, cfg, t.books, t.books.replans, r.0, r.1)
    ensures PassesLeft(start, cfg, b, b.replans, r.0, r.1)
  {
    MorePassesLeft(start, cfg, b, b.replans, t.books, r.0, r.1);
  }

  lemma PassesUnfold(w: World, cfg: Config, b: Books)
    ensures Passes(w, cfg, b) == match PassTurn(w, cfg, b)
                                 case Stops(b', f) => (b', f)
                                 case Continues(b') => Passes(w, cfg, b')
  {
  }

  /** The whole executing phase: every invariant survives all replans, completed work is never lost or
      overwritten, and the number of chat calls stays within budget. */
  lemma {:induction false} PassesKeep(start: Db, w: World, cfg: Config, b: Books)
    requires PassStart(start, cfg, b)
    ensures PassesLeft(start, cfg, b, b.replans, Passes(w, cfg, b).0, Passes(w, cfg, b).1)
    decreases MAX_REPLANS + 1 - b.replans
  {
    var t := PassTurn(w, cfg, b);
    var r := Passes(w, cfg, b);
    TurnKeeps(start, w, cfg, b);
    PassesUnfold(w, cfg, b);
    if t.Continues? {
      PassesKeep(start, w, cfg, t.books);
      TurnThen(start, cfg, b, t, r);
    } else {
      TurnStop(start, cfg, b, t, r);
    }
  }
}
