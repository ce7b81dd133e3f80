/** The Plan & Execute executor, written as the code is: mutable totals, a loop per phase, each stage run as
    interleaved coroutines. Every method is proved to do what `PlanExecuteSpec` says. */
module PlanExecuteExecutorModule {
  import opened Basics
  import opened Trace
  import opened Protocol
  import opened Invariants
  import opened Tools
  import opened PlanValidator
  import opened Stages
  import opened Synthesis
  import opened SessionModule
  import opened StepRunner
  import opened PlanExecuteSpec
  import PassFacts = PlanExecutePasses
  import Theorems = PlanExecuteTheorems

  // ----- sorting a stage's outcomes --------------------------------------------------------

  predicate AscendingOutcomes(outs: seq<StepOutcome>) {
    forall i, j :: 0 <= i < j < |outs| ==> outs[i].step.id < outs[j].step.id
  }

  predicate DistinctOutcomes(outs: seq<StepOutcome>) {
    forall i, j :: 0 <= i < j < |outs| ==> outs[i].step.id != outs[j].step.id
  }

  /** Outcomes ordered by distinct ids are determined by their elements. */
  lemma {:induction false} AscendingOutcomesUnique(a: seq<StepOutcome>, b: seq<StepOutcome>)
    requires AscendingOutcomes(a) && AscendingOutcomes(b)
    requires forall o :: o in a <==> o in b
    ensures a == b
    decreases |a|
  {
    assert a != [] ==> a[0] in a && a[0] in b;
    assert b != [] ==> b[0] in b && b[0] in a;
    if a != [] && b != [] {
      assert a[0] == b[0];
      forall o ensures o in a[1..] <==> o in b[1..] {
        if o in a[1..] { assert o in a && o != a[0]; assert o in b; }
        if o in b[1..] { assert o in b && o != b[0]; assert o in a; }
      }
      AscendingOutcomesUnique(a[1..], b[1..]);
      assert a == [a[0]] + a[1..] && b == [b[0]] + b[1..];
    }
  }

  /** Where an outcome goes among outcomes already in order. */
  method Position(outs: seq<StepOutcome>, o: StepOutcome) returns (k: nat)
    requires AscendingOutcomes(outs) && forall i :: 0 <= i < |outs| ==> outs[i].step.id != o.step.id
    ensures k <= |outs|
    ensures forall i :: 0 <= i < k ==> outs[i].step.id < o.step.id
    ensures forall i :: k <= i < |outs| ==> o.step.id < outs[i].step.id
  {
    k := 0;
    while k < |outs| && outs[k].step.id < o.step.id
      invariant k <= |outs| && forall i :: 0 <= i < k ==> outs[i].step.id < o.step.id
    {
      k := k + 1;
    }
  }

  /** `sorted(outcomes, key=lambda o: o.step.id)`. */
  method SortOutcomes(outs: seq<StepOutcome>) returns (sorted: seq<StepOutcome>)
    requires DistinctOutcomes(outs)
    ensures AscendingOutcomes(sorted) && forall o :: o in sorted <==> o in outs
  {
    sorted := [];
    for i := 0 to |outs|
      invariant AscendingOutcomes(sorted) && forall o :: o in sorted <==> o in outs[..i]
    {
      assert forall o :: o in outs[..i + 1] <==> o == outs[i] || o in outs[..i];
      forall j | 0 <= j < |sorted| ensures sorted[j].step.id != outs[i].step.id {
        assert sorted[j] in outs[..i];
        var k :| 0 <= k < i && outs[k] == sorted[j];
      }
      var k := Position(sorted, outs[i]);
      ghost var before := sorted;
      sorted := sorted[..k] + [outs[i]] + sorted[k..];
      Inserted(before, k, outs[i], sorted);
    }
    assert outs[..|outs|] == outs;
  }

  lemma Inserted(before: seq<StepOutcome>, k: nat, o: StepOutcome, after: seq<StepOutcome>)
    requires k <= |before| && after == before[..k] + [o] + before[k..]
    ensures forall x :: x in after <==> x == o || x in before
  {
    assert before == before[..k] + before[k..];
  }

  lemma SameOutcomes(w: World, pass: nat, a: seq<PlanStep>, b: seq<PlanStep>, outputs: map<int, string>)
    requires forall s :: s in a ==> s in b
    requires !SomeEscape(w, pass, a, outputs) && !SomeEscape(w, pass, b, outputs)
    ensures forall o :: o in OutcomesOf(w, pass, a, outputs) ==> o in OutcomesOf(w, pass, b, outputs)
  {
    var x, y := OutcomesOf(w, pass, a, outputs), OutcomesOf(w, pass, b, outputs);
    forall o | o in x ensures o in y {
      var i :| 0 <= i < |x| && x[i] == o;
      assert a[i] in a;
      var j :| 0 <= j < |b| && b[j] == a[i];
      assert y[j] == o;
    }
  }

  lemma OutcomesAscend(w: World, pass: nat, steps: seq<PlanStep>, outputs: map<int, string>)
    requires AscendingIds(steps) && !SomeEscape(w, pass, steps, outputs)
    ensures AscendingOutcomes(OutcomesOf(w, pass, steps, outputs))
  {
    var outs := OutcomesOf(w, pass, steps, outputs);
    forall i | 0 <= i < |outs| ensures outs[i].step == steps[i] {
    }
  }

  lemma OutcomesDistinct(w: World, pass: nat, steps: seq<PlanStep>, outs: seq<StepOutcome>, outputs: map<int, string>)
    requires DistinctIds(steps) && !SomeEscape(w, pass, steps, outputs) && outs == OutcomesOf(w, pass, steps, outputs)
    ensures DistinctOutcomes(outs)
  {
    forall i | 0 <= i < |outs| ensures outs[i].step == steps[i] {
    }
  }

  /** Whatever order the coroutines are gathered in, sorting gives the outcomes of the steps in id order. */
  lemma SortedIsById(w: World, pass: nat, steps: seq<PlanStep>, outputs: map<int, string>,
                     outs: seq<StepOutcome>, sorted: seq<StepOutcome>)
    requires DistinctIds(steps) && !SomeEscape(w, pass, steps, outputs) && outs == OutcomesOf(w, pass, steps, outputs)
    requires AscendingOutcomes(sorted) && forall o :: o in sorted <==> o in outs
    ensures !SomeEscape(w, pass, ById(steps), outputs) && sorted == OutcomesOf(w, pass, ById(steps), outputs)
  {
    ByIdEscapes(w, pass, steps, outputs);
    ByIdAscending(steps);
    ByIdElements(steps);
    OutcomesAscend(w, pass, ById(steps), outputs);
    SameOutcomes(w, pass, steps, ById(steps), outputs);
    SameOutcomes(w, pass, ById(steps), steps, outputs);
    AscendingOutcomesUnique(sorted, OutcomesOf(w, pass, ById(steps), outputs));
  }

  // ----- reading a stage's outcomes --------------------------------------------------------

  /** `next((o for o in outs if o.status == s), None)`. */
  method FirstWith(outs: seq<StepOutcome>, s: StepStatus) returns (found: Option<StepOutcome>)
    ensures found.Some? <==> SomeStatus(outs, s)
    ensures found.Some? ==> exists i :: 0 <= i < |outs| && outs[i] == found.value && outs[i].status == s
                                        && forall j :: 0 <= j < i ==> outs[j].status != s
    ensures found.Some? && s.ReplanRequested? ==>
              ReplanReason(outs) == if found.value.reason != "" then found.value.reason else "replan_requested"
  {
    for i := 0 to |outs|
      invariant forall j :: 0 <= j < i ==> outs[j].status != s
      invariant s.ReplanRequested? ==> ReplanReason(outs[i..]) == ReplanReason(outs)
    {
      if outs[i].status == s {
        return Some(outs[i]);
      }
    }
    return None;
  }

  class PlanExecuteExecutor {
    const session: Session
    const world: World
    const cfg: Config
    var tally: Tally
    var runSeq: nat
    var loops: nat
    var plan: Plan
    var replanCount: nat
    var stepOutputs: map<int, string>
    var completedStepIds: set<int>
    var finalized: bool
    ghost var starts: seq<Start>

    constructor (session: Session, world: World, cfg: Config)
      ensures this.session == session && this.world == world && this.cfg == cfg
      ensures tally == ZERO_TALLY && loops == 0 && !finalized
      ensures State() == EmptyBooks(session.Now())
    {
      this.session, this.world, this.cfg := session, world, cfg;
      tally, runSeq, loops := ZERO_TALLY, 0, 0;
      plan, replanCount := Plan("", []), 0;
      stepOutputs, completedStepIds := map[], {};
      finalized := false;
      starts := [];
    }

    ghost function State(): Books
      reads this, session
    {
      Books(session.Now(), tally, runSeq, plan, replanCount, stepOutputs, completedStepIds, starts)
    }

    // ----- a stage -------------------------------------------------------------------------

    /** The insert, then the UPDATE keyed by the row's number. */
    method StoreOutcome(n: nat, o: StepOutcome)
      requires session.Valid()
      modifies session
      ensures session.Valid() && session.Now() == StoredOutcome(old(session.Now()), n, o)
    {
      session.AppendRunStep(RowFor(n, o));
      session.UpdateRunStep(n, SetMark(MarkOf(o)));
    }

    method Persist(o: StepOutcome)
      requires session.Valid()
      modifies this`tally, this`runSeq, session
      ensures session.Valid() && State() == PersistOne(old(State()), o)
    {
      tally := Charge(tally, o.usage, o.cost);
      runSeq := runSeq + 1;
      StoreOutcome(runSeq, o);
    }

    method PersistStage(outs: seq<StepOutcome>)
      requires session.Valid()
      modifies this`tally, this`runSeq, session
      ensures session.Valid() && State() == Persisted(old(State()), outs)
    {
      for i := 0 to |outs|
        invariant session.Valid() && PersistAll(State(), outs[i..]) == PersistAll(old(State()), outs)
      {
        Persist(outs[i]);
        assert outs[i..][1..] == outs[i + 1..];
      }
      session.CommitAll();
    }

    /** The loop that marks successful siblings completed before a replan. */
    method RecordSiblings(outs: seq<StepOutcome>)
      modifies this`completedStepIds, this`stepOutputs
      ensures State() == RecordSuccesses(old(State()), outs)
    {
      for i := 0 to |outs|
        invariant RecordSuccesses(State(), outs[i..]) == RecordSuccesses(old(State()), outs)
      {
        if outs[i].status.Success? {
          completedStepIds := completedStepIds + {outs[i].step.id};
          stepOutputs := stepOutputs[outs[i].step.id := outs[i].output];
        }
        assert outs[i..][1..] == outs[i + 1..];
      }
    }

    /** The loop that records a stage in which everything succeeded. */
    method RecordAll(outs: seq<StepOutcome>)
      requires forall i :: 0 <= i < |outs| ==> outs[i].status.Success?
      modifies this`completedStepIds, this`stepOutputs
      ensures State() == RecordSuccesses(old(State()), outs)
    {
      for i := 0 to |outs|
        invariant RecordSuccesses(State(), outs[i..]) == RecordSuccesses(old(State()), outs)
      {
        completedStepIds := completedStepIds + {outs[i].step.id};
        stepOutputs := stepOutputs[outs[i].step.id := outs[i].output];
        assert outs[i..][1..] == outs[i + 1..];
      }
    }

    /** The checks after a stage has been stored. */
    method JudgeStage(outs: seq<StepOutcome>) returns (v: Verdict)
      modifies this`completedStepIds, this`stepOutputs
      ensures (State(), v) == Judge(cfg, old(State()), outs)
    {
      var failure := FirstWith(outs, Failure);
      if failure.Some? {
        return StopFailed;
      }
      var request := FirstWith(outs, ReplanRequested);
      if request.Some? {
        RecordSiblings(outs);
        return AskReplan(if request.value.reason != "" then request.value.reason else "replan_requested");
      }
      forall i | 0 <= i < |outs| ensures outs[i].status.Success? {
        assert outs[i].status != Failure && outs[i].status != ReplanRequested;
      }
      RecordAll(outs);
      if tally.usage.tokensOut >= cfg.maxTokens {
        return StopTokens;
      }
      return GoOn;
    }

    /** Announces a stage and runs its coroutines under an arbitrary schedule. */
    method GatherStage(pass: nat, g: Group, schedule: seq<nat>) returns (ends: seq<StepEnd>)
      requires session.Valid()
      modifies this`starts, session
      ensures session.Valid() && State() == Launch(old(State()), g)
      ensures |ends| == |g.steps|
      ensures forall i :: 0 <= i < |ends| ==> ends[i] == StepRun(world, pass, g.steps[i], stepOutputs)
    {
      session.Yield(Working(Executing(g.stage, IdsOf(g.steps))));
      starts := starts + StartsOf(g.steps, replanCount, stepOutputs);
      ends := RunInterleaved(session, world, pass, g.steps, stepOutputs, schedule);
    }

    /** `asyncio.gather` raises when a coroutine does. */
    method CollectOutcomes(pass: nat, steps: seq<PlanStep>, ends: seq<StepEnd>)
      returns (raised: bool, outs: seq<StepOutcome>)
      requires |ends| == |steps|
      requires forall i :: 0 <= i < |ends| ==> ends[i] == StepRun(world, pass, steps[i], stepOutputs)
      ensures raised <==> SomeEscape(world, pass, steps, stepOutputs)
      ensures !raised ==> outs == OutcomesOf(world, pass, steps, stepOutputs)
    {
      raised, outs := false, [];
      for i := 0 to |ends|
        invariant |outs| == i && forall j :: 0 <= j < i ==> ends[j] == StepEnd.Returned(outs[j])
      {
        if ends[i].Escaped? {
          assert StepRun(world, pass, steps[i], stepOutputs).Escaped?;
          return true, [];
        }
        outs := outs + [ends[i].outcome];
      }
    }

    method RunStage(pass: nat, g: Group, schedule: seq<nat>) returns (v: Verdict)
      requires session.Valid() && DistinctIds(g.steps)
      modifies this`tally, this`runSeq, this`completedStepIds, this`stepOutputs, this`starts, session
      ensures session.Valid() && (State(), v) == StageStep(world, cfg, pass, old(State()), g)
    {
      var ends := GatherStage(pass, g, schedule);
      var raised, outs := CollectOutcomes(pass, g.steps, ends);
      if raised {
        return StopCrashed;
      }
      OutcomesDistinct(world, pass, g.steps, outs, stepOutputs);
      var sorted := SortOutcomes(outs);
      SortedIsById(world, pass, g.steps, stepOutputs, outs, sorted);
      PersistStage(sorted);
      v := JudgeStage(sorted);
    }

    /** The loop over the stages of a pass; `schedule` gives the interleaving of each stage. */
    method RunStageLoop(pass: nat, groups: seq<Group>, schedule: int -> seq<nat>) returns (v: Verdict)
      requires session.Valid() && forall i :: 0 <= i < |groups| ==> DistinctIds(groups[i].steps)
      modifies this`tally, this`runSeq, this`completedStepIds, this`stepOutputs, this`starts, session
      ensures session.Valid() && (State(), v) == RunStages(world, cfg, pass, old(State()), groups)
    {
      for i := 0 to |groups|
        invariant session.Valid()
        invariant RunStages(world, cfg, pass, State(), groups[i..]) == RunStages(world, cfg, pass, old(State()), groups)
      {
        assert groups[i..][0] == groups[i] && groups[i..][1..] == groups[i + 1..];
        if world.cancelled(pass, groups[i].stage) {
          return StopCancelled;
        }
        v := RunStage(pass, groups[i], schedule(groups[i].stage));
        if !v.GoOn? {
          return v;
        }
      }
      return GoOn;
    }

    // ----- the planner ---------------------------------------------------------------------

    /** One call of the planner: the end of the round, or what has been spent before the next attempt. */
    method Attempt(pass: nat, attempt: nat, agg: Tally) returns (end: Option<PlannerEnd>, spent: Tally)
      requires session.Valid() && attempt <= MAX_PLANNER_RETRIES
      modifies session
      ensures session.Valid()
      ensures CallPlanner(world, cfg, pass, attempt, agg, old(session.Now())) ==
                match end
                case Some(e) => (session.Now(), e)
                case None => CallPlanner(world, cfg, pass, attempt + 1, spent, session.Now())
      ensures end.Some? && end.value.Planned? ==> DistinctIds(end.value.plan.steps)
    {
      session.Chat();
      match world.planner(pass, attempt) {
        case ProviderError => return Some(PlannerFailed(LlmProviderError, agg)), agg;
        case Reply(r) =>
          spent := Charge(agg, r.usage, r.cost);
          var data := world.loads(r.content);
          var verdict := ParseAndValidatePlan(data, cfg.maxSteps, cfg.tools);
          if verdict.Accepted? {
            AcceptedPlansAreValid(data.value, cfg.maxSteps, cfg.tools);
            return Some(Planned(verdict.plan, data.value, spent)), spent;
          }
          end := None;
      }
    }

    /** `_call_planner`: one retry after a reply that does not validate. */
    method PlannerRound(pass: nat) returns (end: PlannerEnd)
      requires session.Valid()
      modifies session
      ensures session.Valid()
      ensures (session.Now(), end) == CallPlanner(world, cfg, pass, 0, ZERO_TALLY, old(session.Now()))
      ensures end.Planned? ==> DistinctIds(end.plan.steps)
    {
      var agg := ZERO_TALLY;
      ghost var round := CallPlanner(world, cfg, pass, 0, agg, session.Now());
      for attempt := 0 to MAX_PLANNER_RETRIES + 1
        invariant session.Valid()
        invariant CallPlanner(world, cfg, pass, attempt, agg, session.Now()) == round
      {
        var ended: Option<PlannerEnd>;
        ended, agg := Attempt(pass, attempt, agg);
        if ended.Some? {
          return ended.value;
        }
      }
      return PlannerFailed(PlanningFailed, agg);
    }

    method StorePlan(row: StepRow, payload: Json, first: bool)
      requires session.Valid()
      modifies session
      ensures session.Valid() && State() == old(State()).(view := StoredPlan(old(session.Now()), row, payload, first))
    {
      session.AppendRunStep(row);
      if first {
        session.StampPlan(payload);
      }
      session.CommitAll();
    }

    method ChargeTotals(usage: Usage, cost: Option<real>)
      modifies this`tally
      ensures tally == Charge(old(tally), usage, cost)
    {
      tally := Charge(tally, usage, cost);
    }

    /** Charges a planner round and stores its plan. */
    method AdoptPlan(p: Plan, payload: Json, spent: Tally, first: bool)
      requires session.Valid()
      modifies this`tally, this`runSeq, this`plan, session
      ensures session.Valid() && State() == Adopt(old(State()), p, payload, spent, first)
    {
      BookPlan(p, spent);
      StorePlan(PlanRow(runSeq, p, payload, spent.usage), payload, first);
    }

    method BookPlan(p: Plan, spent: Tally)
      modifies this`tally, this`runSeq, this`plan
      ensures State() == Booked(old(State()), p, spent)
    {
      ChargeTotals(spent.usage, spent.cost);
      runSeq := runSeq + 1;
      plan := p;
    }

    // ----- the replan loop -----------------------------------------------------------------

    /** The comprehension that leaves out completed steps. */
    method PendingSteps() returns (remaining: seq<PlanStep>)
      ensures remaining == NotDone(plan.steps, completedStepIds)
    {
      remaining := [];
      for i := 0 to |plan.steps|
        invariant remaining == NotDone(plan.steps[..i], completedStepIds)
      {
        assert plan.steps[..i + 1][..i] == plan.steps[..i];
        if plan.steps[i].id !in completedStepIds {
          remaining := remaining + [plan.steps[i]];
        }
      }
      assert plan.steps[..|plan.steps|] == plan.steps;
    }

    /** The pending stages of the current plan, run in order. */
    method RunPass(schedule: int -> seq<nat>) returns (nothingLeft: bool, v: Verdict)
      requires session.Valid() && DistinctIds(plan.steps)
      modifies this`tally, this`runSeq, this`completedStepIds, this`stepOutputs, this`starts, session
      ensures session.Valid() && plan == old(plan)
      ensures nothingLeft <==> NotDone(plan.steps, old(completedStepIds)) == []
      ensures nothingLeft ==> State() == old(State())
      ensures !nothingLeft ==>
                (State(), v) == RunStages(world, cfg, replanCount, old(State()), Groups(NotDone(plan.steps, old(completedStepIds))))
    {
      var remaining := PendingSteps();
      if remaining == [] {
        return true, GoOn;
      }
      var groups := GroupByStage(remaining);
      PassFacts.NotDoneDistinct(plan.steps, completedStepIds);
      forall i | 0 <= i < |groups| ensures DistinctIds(groups[i].steps) {
        OfStageDistinct(remaining, groups[i].stage);
      }
      v := RunStageLoop(replanCount, groups, schedule);
      return false, v;
    }

    /** A turn of the loop as this executor reports it: finished, or going on with the state it is in. */
    ghost function TurnEnd(finish: Option<PlanExecuteSpec.Finish>): Turn
      reads this, session
    {
      match finish
      case Some(f) => Stops(State(), f)
      case None => Continues(State())
    }

    /** A planner round that replaces the plan; completed work stays. */
    method Replan() returns (finish: Option<PlanExecuteSpec.Finish>)
      requires session.Valid()
      modifies this`tally, this`runSeq, this`plan, session
      ensures session.Valid() && TurnEnd(finish) == NextPlan(world, cfg, old(State()))
      ensures finish.None? ==> DistinctIds(plan.steps)
    {
      var end := PlannerRound(replanCount);
      match end {
        case PlannerFailed(reason, spent) => return Some(PlannerGaveUp(reason, spent));
        case Planned(p, payload, spent) =>
          AdoptPlan(p, payload, spent, false);
          return None;
      }
    }

    method Turn(schedule: int -> seq<nat>) returns (finish: Option<PlanExecuteSpec.Finish>)
      requires session.Valid() && DistinctIds(plan.steps) && replanCount <= MAX_REPLANS
      modifies this`tally, this`runSeq, this`plan, this`replanCount, this`completedStepIds, this`stepOutputs, this`starts, session
      ensures session.Valid() && TurnEnd(finish) == PassTurn(world, cfg, old(State()))
      ensures finish.None? ==> DistinctIds(plan.steps)
    {
      if world.cancelled(replanCount, 0) {
        return Some(WasCancelled);
      }
      var nothingLeft, v := RunPass(schedule);
      if nothingLeft {
        return Some(AllDone);
      }
      if !v.AskReplan? || replanCount >= MAX_REPLANS {
        return Some(FinishOf(v));
      }
      replanCount := replanCount + 1;
      session.Yield(Working(Planning));
      finish := Replan();
    }

    /** The `while True` loop: at most three replans in all, each keeping the completed work. */
    method Execute(schedules: (nat, int) -> seq<nat>) returns (finish: PlanExecuteSpec.Finish)
      requires session.Valid() && DistinctIds(plan.steps) && replanCount <= MAX_REPLANS
      modifies this`tally, this`runSeq, this`plan, this`replanCount, this`completedStepIds, this`stepOutputs, this`starts, session
      ensures session.Valid() && (State(), finish) == Passes(world, cfg, old(State()))
    {
      ghost var b0 := State();
      while true
        invariant session.Valid() && DistinctIds(plan.steps) && replanCount <= MAX_REPLANS
        invariant Passes(world, cfg, State()) == Passes(world, cfg, b0)
        decreases MAX_REPLANS - replanCount
      {
        var pass := replanCount;
        var ended := Turn(stage => schedules(pass, stage));
        if ended.Some? {
          return ended.value;
        }
      }
    }

    // ----- the exits -----------------------------------------------------------------------

    /** An inline failure: terminal row, commit, `failed` event. */
    method Fail(reason: Reason, atLoops: nat)
      requires session.Valid()
      modifies this`finalized, session
      ensures session.Valid() && finalized
      ensures Left(session.Now()) == FailedWith(old(State()), reason, atLoops)
    {
      session.Close(Closing(Failed, Some(reason), None, tally, atLoops));
      finalized := true;
    }

    method StoreAnswer(r: ChatReply) returns (full: bool)
      requires session.Valid()
      modifies this`runSeq, session
      ensures session.Valid() && runSeq == old(runSeq) + 1
      ensures var v := Do(old(session.Now()), AddRow(TextRow(old(runSeq) + 1, Trace.Synthesis, r.content, r.usage)));
              && (full <==> |v.db.messages| >= HARD_CAP)
              && session.Now() == if full then v else Do(v, AddMessage(AssistantSpeaker, r.content, [], None))
    {
      runSeq := runSeq + 1;
      session.AppendRunStep(TextRow(runSeq, Trace.Synthesis, r.content, r.usage));
      full := session.AppendMessage(AssistantSpeaker, r.content, [], None);
    }

    /** Stores the synthesised answer and completes the run, unless the context is full. */
    method Complete(r: ChatReply, hitTokens: bool) returns (raised: bool)
      requires session.Valid() && loops == 1
      modifies this`finalized, this`runSeq, session
      ensures session.Valid() && finalized == if raised then old(finalized) else true
      ensures Answered(old(State()), r, hitTokens) == if raised then Raised(session.Now(), tally, loops) else Left(session.Now())
    {
      raised := StoreAnswer(r);
      if !raised {
        session.Close(Closing(Completed, if hitTokens then Some(MaxTokens) else None, Some(r.content), tally, loops));
        finalized := true;
      }
    }

    /** Surfaces the model's reasoning, if it gave any. */
    method YieldReasoning(r: ChatReply)
      requires session.Valid()
      modifies session
      ensures session.Valid() && session.Now() == WithReasoning(old(session.Now()), r)
    {
      if !Blank(r.reasoning) {
        session.Yield(Working(Reasoning(Strip(r.reasoning))));
      }
    }

    method AskForSynthesis()
      requires session.Valid()
      modifies session
      ensures session.Valid()
      ensures session.Now() == Do(Do(old(session.Now()), Emit(Working(Synthesizing))), Ask)
    {
      session.Yield(Working(Synthesizing));
      session.Chat();
    }

    /** Charges the synthesis reply, then fails on an empty answer or completes with it. */
    method UseSynthesis(r: ChatReply, hitTokens: bool) returns (raised: bool)
      requires session.Valid() && !finalized
      modifies this`tally, this`loops, this`finalized, this`runSeq, session
      ensures session.Valid() && (finalized <==> !raised)
      ensures var b := old(State()).(view := WithReasoning(old(session.Now()), r),
                                     tally := Charge(old(tally), r.usage, r.cost));
              (match EmptyReason(r) case Some(reason) => FailedWith(b, reason, 1) case None => Answered(b, r, hitTokens))
              == if raised then Raised(session.Now(), tally, loops) else Left(session.Now())
    {
      tally := Charge(tally, r.usage, r.cost);
      loops := 1;
      YieldReasoning(r);
      var reason := EmptyReason(r);
      if reason.Some? {
        Fail(reason.value, loops);
        return false;
      }
      raised := Complete(r, hitTokens);
    }

    method ForceSynthesis(hitTokens: bool) returns (raised: bool)
      requires session.Valid() && !finalized && loops == 0
      modifies this`tally, this`loops, this`finalized, this`runSeq, session
      ensures session.Valid() && (finalized <==> !raised)
      ensures Synthesize(world, cfg, old(State()), hitTokens)
           == if raised then Raised(session.Now(), tally, loops) else Left(session.Now())
    {
      var scratchpad := FormatStepOutputs(stepOutputs);
      if SkipSynthesis(tally.usage.tokensOut, cfg.maxTokens, |scratchpad|) {
        Fail(GuardrailNoSynthesis, loops);
        return false;
      }
      AskForSynthesis();
      match world.synthesis {
        case ProviderError =>
          Fail(LlmProviderError, loops);
          return false;
        case Reply(r) => raised := UseSynthesis(r, hitTokens);
      }
    }

    /** What follows the executing phase. */
    method Finish(finish: PlanExecuteSpec.Finish) returns (raised: bool)
      requires session.Valid() && !finalized && loops == 0
      modifies this`tally, this`loops, this`finalized, this`runSeq, session
      ensures session.Valid() && (finalized <==> !raised)
      ensures Conclude(world, cfg, old(State()), finish)
           == if raised then Raised(session.Now(), tally, loops) else Left(session.Now())
    {
      match finish {
        case WasCancelled =>
          session.Close(Closing(Cancelled, Some(CancelRequested), None, tally, loops));
          finalized := true;
          return false;
        case StepFailure => Fail(StepFailed, loops);
        case TooManyReplans => Fail(ReplanExceeded, loops);
        case PlannerGaveUp(reason, spent) =>
          tally := Charge(tally, spent.usage, spent.cost);
          Fail(reason, loops);
        case Escape => return true;
        case AllDone => raised := ForceSynthesis(false); return raised;
        case HitTokens => raised := ForceSynthesis(true); return raised;
      }
      return false;
    }

    /** Planning and executing. */
    method PlanThenExecute(schedules: (nat, int) -> seq<nat>) returns (finish: PlanExecuteSpec.Finish)
      requires session.Valid() && State() == EmptyBooks(session.Now())
      requires session.Now() == Opening(cfg, session.start)
      modifies this`tally, this`runSeq, this`plan, this`replanCount, this`completedStepIds, this`stepOutputs, this`starts, session
      ensures session.Valid() && (State(), finish) == PlanAndExecute(world, cfg, session.start)
    {
      var end := PlannerRound(0);
      match end {
        case PlannerFailed(reason, spent) => return PlannerGaveUp(reason, spent);
        case Planned(p, payload, spent) =>
          AdoptPlan(p, payload, spent, true);
          finish := Execute(schedules);
      }
    }

    /** Stores the user's message and announces the run; a full context ends it at once. */
    method Open() returns (full: bool)
      requires session.Valid() && session.Now() == View(session.start, session.start, [])
      requires !finalized
      modifies this`finalized, session
      ensures session.Valid() && (full <==> |session.start.messages| >= HARD_CAP) && finalized == full
      ensures session.Now() == if full then ContextFullView(View(session.start, session.start, [])) else Opening(cfg, session.start)
    {
      full := session.AppendMessage(User, cfg.userText, [], None);
      if full {
        session.FinalizeRun(Closing(Failed, Some(ContextFull), None, ZERO_TALLY, 0));
        finalized := true;
        session.Yield(Working(Plain));
        session.Yield(FailedEvent(ContextFull));
        return;
      }
      session.CommitAll();
      session.Yield(Working(Plain));
      session.Yield(Working(Planning));
    }

    /** Everything after the opening. */
    method Phases(schedules: (nat, int) -> seq<nat>) returns (raised: bool)
      requires session.Valid() && session.Now() == Opening(cfg, session.start) && |session.start.messages| < HARD_CAP
      requires State() == EmptyBooks(session.Now()) && !finalized && loops == 0
      modifies this, session
      ensures session.Valid() && (finalized <==> !raised)
      ensures RunResult(world, cfg, session.start)
           == if raised then Raised(session.Now(), tally, loops) else Left(session.Now())
    {
      var finish := PlanThenExecute(schedules);
      raised := Finish(finish);
    }

    /** The body of the outer `try`. */
    method Body(schedules: (nat, int) -> seq<nat>) returns (raised: bool)
      requires session.Valid() && session.Now() == View(session.start, session.start, [])
      requires State() == EmptyBooks(session.Now()) && !finalized && loops == 0
      modifies this, session
      ensures session.Valid() && (finalized <==> !raised)
      ensures RunResult(world, cfg, session.start)
           == if raised then Raised(session.Now(), tally, loops) else Left(session.Now())
    {
      var full := Open();
      if full {
        return false;
      }
      raised := Phases(schedules);
    }

    /** `run`: whatever the world does and however the coroutines interleave, the run ends with one terminal
        row; if no exception escaped, the yielded events agree with it. */
    method Run(schedules: (nat, int) -> seq<nat>, flagSet: bool)
      requires session.Valid() && session.Now() == View(session.start, session.start, [])
      requires Theorems.FreshStart(session.start) && cfg.maxSteps >= 1
      requires State() == EmptyBooks(session.Now()) && !finalized && loops == 0
      modifies this, session
      ensures session.committed.run.closed && Terminal(session.committed.run.status)
      ensures session.log == RunResult(world, cfg, session.start).view.log
      ensures finalized ==> StreamAgrees(session.events, session.committed.run)
      ensures Settles(session.log) == if finalized then 1 else 0
    {
      var raised := Body(schedules);
      Theorems.StreamAgreesWithDatabase(session.start, world, cfg);
      ExitSettles(session.start, RunResult(world, cfg, session.start));
      if !finalized {
        session.OrphanFinalize(flagSet, Crashed, tally, loops);
      }
    }
  }
}
