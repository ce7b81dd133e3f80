/** A stage, and a pass over the stages of a plan, keep what `PlanExecuteFacts` states. */
module PlanExecuteStages {
  import opened Basics
  import opened Trace
  import opened Protocol
  import opened Invariants
  import opened Tools
  import opened PlanValidator
  import opened Stages
  import opened Substitution
  import opened StepRunner
  import opened PlanExecuteSpec
  import opened PlanExecuteFacts

  /** A stage whose steps are all pending and whose dependencies are all completed. */
  predicate StageReady(g: Group, completed: set<int>) {
    && DistinctIds(g.steps)
    && (forall s :: s in g.steps ==> s.stage == g.stage && s.id !in completed)
    && (forall s, d :: s in g.steps && d in s.dependsOn ==> d in completed)
  }

  // ----- launch ----------------------------------------------------------------------------

  /** `u` is `v` after `n` provider calls. */
  predicate Asked(start: Db, v: View, u: View, n: nat) {
    Calm(start, u) && u.db == v.db && Asks(u.log) == Asks(v.log) + n
  }

  lemma AskedOnceMore(start: Db, v: View, u: View, n: nat)
    requires Asked(start, v, u, n)
    ensures Asked(start, v, Do(u, Ask), n + 1)
  {
    CalmStep(start, u, Ask);
  }

  lemma {:induction false} AskTimesCalm(start: Db, v: View, n: nat)
    requires Calm(start, v)
    ensures Asked(start, v, AskTimes(v, n), n)
  {
    if n > 0 {
      AskTimesCalm(start, v, n - 1);
      AskedOnceMore(start, v, AskTimes(v, n - 1), n - 1);
    }
  }

  lemma FlowsGrow(starts: seq<Start>, more: seq<Start>, outputs: map<int, string>, outputs': map<int, string>)
    requires Flows(starts, outputs) && Flows(more, outputs) && Submap(outputs, outputs')
    ensures Flows(starts + more, outputs')
  {
    var all := starts + more;
    forall i | 0 <= i < |all|
      ensures (forall d :: d in all[i].step.dependsOn ==> d in all[i].outputs) && Submap(all[i].outputs, outputs')
    {
      var st := if i < |starts| then starts[i] else more[i - |starts|];
      assert all[i] == st;
    }
  }

  lemma StartedMore(rows: seq<StepRow>, starts: seq<Start>, more: seq<Start>)
    requires FromStarts(rows, starts)
    ensures FromStarts(rows, starts + more)
  {
    forall i | 0 <= i < |rows| && rows[i].role.StepResult? ensures Started(rows[i], starts + more) {
      var j :| 0 <= j < |starts| && RowOfStart(rows[i], starts[j]);
      assert (starts + more)[j] == starts[j];
    }
  }

  lemma LaunchView(start: Db, b: Books, g: Group)
    requires Calm(start, b.view)
    ensures Calm(start, Launch(b, g).view) && Launch(b, g).view.db == b.view.db
    ensures Asks(Launch(b, g).view.log) == Asks(b.view.log) + |g.steps|
  {
    var a := Emit(Working(Executing(g.stage, IdsOf(g.steps))));
    CalmDo(start, b.view, a);
    AsksSnoc(b.view.log, a);
    AskTimesCalm(start, Do(b.view, a), |g.steps|);
  }

  lemma LaunchKeeps(start: Db, b: Books, g: Group, replans: nat)
    requires Good(start, b, replans) && StageReady(g, b.completed)
    ensures Good(start, Launch(b, g), replans)
  {
    LaunchView(start, b, g);
    var more := StartsOf(g.steps, b.replans, b.outputs);
    forall i | 0 <= i < |more|
      ensures (forall d :: d in more[i].step.dependsOn ==> d in more[i].outputs) && Submap(more[i].outputs, b.outputs)
    {
      assert g.steps[i] in g.steps;
    }
    FlowsGrow(b.starts, more, b.outputs, b.outputs);
    StartedMore(b.view.db.rows, b.starts, more);
  }

  // ----- outcomes --------------------------------------------------------------------------

  lemma OutcomesFit(w: World, pass: nat, g: Group, outputs: map<int, string>)
    requires DistinctIds(g.steps) && !SomeEscape(w, pass, ById(g.steps), outputs)
    requires forall s :: s in g.steps ==> s.stage == g.stage && s.id !in outputs
    ensures StageOutcomes(OutcomesOf(w, pass, ById(g.steps), outputs), g.stage, outputs)
  {
    ByIdAscending(g.steps);
    ByIdElements(g.steps);
    var sorted := ById(g.steps);
    var outs := OutcomesOf(w, pass, sorted, outputs);
    forall i | 0 <= i < |outs| ensures outs[i].step == sorted[i] && sorted[i] in g.steps {
      assert sorted[i] in sorted;
    }
  }

  lemma StartOf(steps: seq<PlanStep>, at: nat, outputs: map<int, string>, starts: seq<Start>, s: PlanStep) returns (j: nat)
    requires s in steps
    ensures j < |starts + StartsOf(steps, at, outputs)| && (starts + StartsOf(steps, at, outputs))[j] == Start(s, at, outputs)
  {
    var k :| 0 <= k < |steps| && steps[k] == s;
    j := |starts| + k;
  }

  /** The row of one step of a stage is the row of its start. */
  lemma StageRowStarted(w: World, pass: nat, at: nat, g: Group, outputs: map<int, string>, starts: seq<Start>, row: StepRow,
                        seqNo: nat, s: PlanStep)
    requires s in g.steps && StepRun(w, pass, s, outputs).Returned?
    requires row == MarkedRow(seqNo, StepRun(w, pass, s, outputs).outcome)
    ensures Started(row, starts + StartsOf(g.steps, at, outputs))
  {
    var j := StartOf(g.steps, at, outputs, starts, s);
    assert RowOfStart(row, (starts + StartsOf(g.steps, at, outputs))[j]);
  }

  /** The rows of a stage are rows of its starts, with the arguments as they were resolved there. */
  lemma StageRowsStarted(w: World, pass: nat, at: nat, g: Group, outputs: map<int, string>, n: nat, starts: seq<Start>)
    requires !SomeEscape(w, pass, ById(g.steps), outputs)
    ensures FromStarts(MarkedRows(n, OutcomesOf(w, pass, ById(g.steps), outputs)), starts + StartsOf(g.steps, at, outputs))
  {
    var sorted := ById(g.steps);
    var outs := OutcomesOf(w, pass, sorted, outputs);
    var rows := MarkedRows(n, outs);
    MarkedRowsAt(n, outs);
    ByIdElements(g.steps);
    forall i | 0 <= i < |rows| ensures Started(rows[i], starts + StartsOf(g.steps, at, outputs)) {
      assert sorted[i] in sorted;
      StageRowStarted(w, pass, at, g, outputs, starts, rows[i], n + 1 + i, sorted[i]);
    }
  }

  lemma FromStartsConcat(a: seq<StepRow>, b: seq<StepRow>, starts: seq<Start>)
    requires FromStarts(a, starts) && FromStarts(b, starts)
    ensures FromStarts(a + b, starts)
  {
    forall i | 0 <= i < |a + b| && (a + b)[i].role.StepResult? ensures Started((a + b)[i], starts) {
      assert (a + b)[i] == if i < |a| then a[i] else b[i - |a|];
    }
  }

  /** A stage has a failed outcome exactly when its rows show one. */
  lemma FailuresShow(rows: seq<StepRow>, n: nat, outs: seq<StepOutcome>)
    requires NoFailures(rows)
    ensures NoFailures(rows + MarkedRows(n, outs)) <==> !SomeStatus(outs, Failure)
  {
    MarkedRowsAt(n, outs);
    var more := MarkedRows(n, outs);
    var all := rows + more;
    if i :| 0 <= i < |outs| && outs[i].status == Failure {
      assert all[|rows| + i] == more[i];
      assert HasStatus(all[|rows| + i], Failure);
    }
    if !SomeStatus(outs, Failure) {
      forall i | 0 <= i < |all| ensures !HasStatus(all[i], Failure) {
        if i >= |rows| {
          assert all[i] == more[i - |rows|];
          assert outs[i - |rows|].status != Failure;
        } else {
          assert all[i] == rows[i];
        }
      }
    }
  }

  // ----- persist and judge -----------------------------------------------------------------

  /** Between persisting a stage and judging it: everything but the outputs is up to date. */
  predicate Stored(start: Db, b: Books, outs: seq<StepOutcome>, stage: int, replans: nat) {
    && Calm(start, b.view)
    && Balanced(b.view, b.tally.usage, b.runSeq, 0)
    && b.outputs.Keys == b.completed
    && Recorded(b.view.db.rows, Merge(b.outputs, outs))
    && OutputsRecorded(b.view.db.rows, b.outputs)
    && Submap(b.outputs, Merge(b.outputs, outs))
    && FromStarts(b.view.db.rows, b.starts)
    && Flows(b.starts, b.outputs)
    && PhaseOf(b.view.db.rows).InPlan? && PhaseOf(b.view.db.rows).stage <= stage
    && PlanRows(b.view.db.rows) == replans + 1 <= MAX_REPLANS + 1
    && (NoFailures(b.view.db.rows) <==> !SomeStatus(outs, Failure))
  }

  lemma SubmapRecorded(rows: seq<StepRow>, a: map<int, string>, b: map<int, string>)
    requires OutputsRecorded(rows, b) && Submap(a, b)
    ensures OutputsRecorded(rows, a)
  {
  }

  lemma PersistedView(start: Db, b: Books, outs: seq<StepOutcome>)
    requires Calm(start, b.view) && Balanced(b.view, b.tally.usage, b.runSeq, 0)
    ensures var b' := Persisted(b, outs);
            && Calm(start, b'.view) && Balanced(b'.view, b'.tally.usage, b'.runSeq, 0)
            && b'.view.db.rows == b.view.db.rows + MarkedRows(b.runSeq, outs)
            && b'.outputs == b.outputs && b'.completed == b.completed && b'.starts == b.starts
  {
    PersistAllRows(start, b, outs);
    CalmDo(start, PersistAll(b, outs).view, Commit);
  }

  lemma PersistStores(start: Db, w: World, pass: nat, b: Books, g: Group, replans: nat)
    requires Good(start, b, replans) && StageReady(g, b.completed) && replans <= MAX_REPLANS
    requires PhaseOf(b.view.db.rows).stage < g.stage
    requires !SomeEscape(w, pass, ById(g.steps), b.outputs)
    ensures var outs := OutcomesOf(w, pass, ById(g.steps), b.outputs);
            Stored(start, Persisted(Launch(b, g), outs), outs, g.stage, replans)
  {
    var outs := OutcomesOf(w, pass, ById(g.steps), b.outputs);
    var b1 := Launch(b, g);
    var rows := b.view.db.rows;
    LaunchKeeps(start, b, g, replans);
    LaunchView(start, b, g);
    OutcomesFit(w, pass, g, b.outputs);
    PersistedView(start, b1, outs);
    RecordedStage(rows, b.outputs, b.runSeq, outs, g.stage);
    SubmapRecorded(rows + MarkedRows(b.runSeq, outs), b.outputs, Merge(b.outputs, outs));
    PhaseStage(rows, b.runSeq, outs, g.stage, b.outputs);
    StageRowsStarted(w, pass, b.replans, g, b.outputs, b.runSeq, b.starts);
    FromStartsConcat(rows, MarkedRows(b.runSeq, outs), b1.starts);
    FailuresShow(rows, b.runSeq, outs);
  }

  lemma FlowsLift(starts: seq<Start>, outputs: map<int, string>, outputs': map<int, string>)
    requires Flows(starts, outputs) && Submap(outputs, outputs')
    ensures Flows(starts, outputs')
  {
    FlowsGrow(starts, [], outputs, outputs');
    assert starts + [] == starts;
  }

  /** A stage without a failure: its successes are recorded. */
  lemma RecordedGood(start: Db, b: Books, outs: seq<StepOutcome>, stage: int, replans: nat)
    requires Stored(start, b, outs, stage, replans) && !SomeStatus(outs, Failure)
    ensures var b' := RecordSuccesses(b, outs);
            Good(start, b', replans) && b'.outputs == Merge(b.outputs, outs) && b'.view == b.view && b'.starts == b.starts
  {
    RecordSuccessesMerges(b, outs);
    FlowsLift(b.starts, b.outputs, Merge(b.outputs, outs));
  }

  /** A stage with a failure: nothing of it is recorded. */
  lemma FailedSane(start: Db, b: Books, outs: seq<StepOutcome>, stage: int, replans: nat)
    requires Stored(start, b, outs, stage, replans)
    ensures Sane(start, b)
  {
  }

  /** What judging a stored stage leaves, by verdict. */
  predicate Judged(start: Db, b: Books, outs: seq<StepOutcome>, replans: nat, b': Books, v: Verdict) {
    && Sane(start, b')
    && (v.StopFailed? <==> !NoFailures(b'.view.db.rows))
    && (!v.StopFailed? ==> Good(start, b', replans) && b'.outputs == Merge(b.outputs, outs))
    && (v.StopFailed? ==> b'.outputs == b.outputs)
    && !v.StopCancelled? && !v.StopCrashed?
    && b'.view == b.view && b'.starts == b.starts
  }

  lemma GoodJudged(start: Db, b: Books, outs: seq<StepOutcome>, replans: nat, b': Books, v: Verdict)
    requires Good(start, b', replans) && b'.outputs == Merge(b.outputs, outs) && b'.view == b.view && b'.starts == b.starts
    requires v.AskReplan? || v.StopTokens? || v.GoOn?
    ensures Judged(start, b, outs, replans, b', v)
  {
  }

  lemma JudgeIs(cfg: Config, b: Books, outs: seq<StepOutcome>)
    requires !SomeStatus(outs, Failure)
    ensures var (b', v) := Judge(cfg, b, outs);
            b' == RecordSuccesses(b, outs) && (v.AskReplan? || v.StopTokens? || v.GoOn?)
  {
  }

  lemma JudgeKeeps(start: Db, cfg: Config, b: Books, outs: seq<StepOutcome>, stage: int, replans: nat)
    requires Stored(start, b, outs, stage, replans)
    ensures Judged(start, b, outs, replans, Judge(cfg, b, outs).0, Judge(cfg, b, outs).1)
  {
    if SomeStatus(outs, Failure) {
      FailedSane(start, b, outs, stage, replans);
    } else {
      var (b', v) := Judge(cfg, b, outs);
      RecordedGood(start, b, outs, stage, replans);
      JudgeIs(cfg, b, outs);
      GoodJudged(start, b, outs, replans, b', v);
    }
  }

  // ----- one stage -------------------------------------------------------------------------

  /** What a stage leaves, by verdict. */
  predicate StageLeft(start: Db, b: Books, g: Group, b': Books, v: Verdict, replans: nat) {
    && Sane(start, b')
    && Submap(b.outputs, b'.outputs)
    && (v.GoOn? || v.AskReplan? || v.StopTokens? ==> Good(start, b', replans))
    && (v.GoOn? ==> forall s :: s in g.steps ==> s.id in b'.completed)
    && (forall id :: id in b'.completed ==> id in b.completed || exists s :: s in g.steps && s.id == id)
    && PhaseOf(b'.view.db.rows).stage <= g.stage
    && (v.StopFailed? <==> !NoFailures(b'.view.db.rows))
    && !v.StopCancelled?
    && Asks(b'.view.log) == Asks(b.view.log) + |g.steps|
  }

  lemma {:induction false} PersistAllAsks(b: Books, outs: seq<StepOutcome>)
    ensures Asks(PersistAll(b, outs).view.log) == Asks(b.view.log)
    decreases |outs|
  {
    if outs != [] {
      var o := outs[0];
      var a1, a2 := AddRow(RowFor(b.runSeq + 1, o)), PatchRow(b.runSeq + 1, SetMark(MarkOf(o)));
      AsksSnoc(b.view.log, a1);
      AsksSnoc(Do(b.view, a1).log, a2);
      PersistAllAsks(PersistOne(b, o), outs[1..]);
    }
  }

  lemma OutcomeSteps(w: World, pass: nat, steps: seq<PlanStep>, outputs: map<int, string>)
    requires !SomeEscape(w, pass, steps, outputs)
    ensures var outs := OutcomesOf(w, pass, steps, outputs);
            |outs| == |steps| && forall i :: 0 <= i < |steps| ==> outs[i].step == steps[i]
  {
  }

  lemma AllSucceedAllMerge(outputs: map<int, string>, outs: seq<StepOutcome>, steps: seq<PlanStep>)
    requires |outs| == |steps| && forall i :: 0 <= i < |steps| ==> outs[i].step == steps[i]
    requires !SomeStatus(outs, Failure) && !SomeStatus(outs, ReplanRequested)
    ensures forall s :: s in steps ==> s.id in Merge(outputs, outs)
  {
    MergeHolds(outputs, outs);
    forall s | s in steps ensures s.id in Merge(outputs, outs) {
      var i :| 0 <= i < |steps| && steps[i] == s;
      assert outs[i].status != Failure && outs[i].status != ReplanRequested;
      assert outs[i].step == s;
    }
  }

  lemma OnlyStageMerges(outputs: map<int, string>, outs: seq<StepOutcome>, steps: seq<PlanStep>)
    requires |outs| == |steps| && forall i :: 0 <= i < |steps| ==> outs[i].step == steps[i]
    ensures forall id :: id in Merge(outputs, outs) ==> id in outputs || exists s :: s in steps && s.id == id
  {
    MergeHolds(outputs, outs);
    forall id | id in Merge(outputs, outs) && id !in outputs ensures exists s :: s in steps && s.id == id {
      var i :| 0 <= i < |outs| && outs[i].step.id == id;
      assert steps[i] in steps;
    }
  }

  /** Every pending step of a stage that went on is completed now; nothing else is. */
  lemma StageCompletes(w: World, pass: nat, b: Books, g: Group)
    requires !SomeEscape(w, pass, ById(g.steps), b.outputs)
    ensures var outs := OutcomesOf(w, pass, ById(g.steps), b.outputs);
            && (!SomeStatus(outs, Failure) && !SomeStatus(outs, ReplanRequested) ==>
                  forall s :: s in g.steps ==> s.id in Merge(b.outputs, outs))
            && (forall id :: id in Merge(b.outputs, outs) ==> id in b.outputs || exists s :: s in g.steps && s.id == id)
  {
    var sorted := ById(g.steps);
    var outs := OutcomesOf(w, pass, sorted, b.outputs);
    OutcomeSteps(w, pass, sorted, b.outputs);
    ByIdElements(g.steps);
    OnlyStageMerges(b.outputs, outs, sorted);
    if !SomeStatus(outs, Failure) && !SomeStatus(outs, ReplanRequested) {
      AllSucceedAllMerge(b.outputs, outs, sorted);
    }
  }

  lemma StageAsks(start: Db, cfg: Config, b: Books, g: Group, outs: seq<StepOutcome>)
    requires Calm(start, b.view)
    ensures Asks(Persisted(Launch(b, g), outs).view.log) == Asks(b.view.log) + |g.steps|
  {
    LaunchView(start, b, g);
    PersistAllAsks(Launch(b, g), outs);
    AsksSnoc(PersistAll(Launch(b, g), outs).view.log, Commit);
  }

  lemma StageKeeps(start: Db, w: World, cfg: Config, pass: nat, b: Books, g: Group, replans: nat)
    requires Good(start, b, replans) && StageReady(g, b.completed) && replans <= MAX_REPLANS
    requires PhaseOf(b.view.db.rows).stage < g.stage
    ensures var (b', v) := StageStep(w, cfg, pass, b, g); StageLeft(start, b, g, b', v, replans)
  {
    var (b', v) := StageStep(w, cfg, pass, b, g);
    if SomeEscape(w, pass, g.steps, b.outputs) {
      LaunchKeeps(start, b, g, replans);
      LaunchView(start, b, g);
    } else {
      ByIdEscapes(w, pass, g.steps, b.outputs);
      var outs := OutcomesOf(w, pass, ById(g.steps), b.outputs);
      var b2 := Persisted(Launch(b, g), outs);
      PersistStores(start, w, pass, b, g, replans);
      LaunchKeeps(start, b, g, replans);
      LaunchView(start, b, g);
      PersistedView(start, Launch(b, g), outs);
      JudgeKeeps(start, cfg, b2, outs, g.stage, replans);
      StageCompletes(w, pass, b, g);
      StageAsks(start, cfg, b, g, outs);
    }
  }
}
