/** A parallel stage does not depend on how its coroutines interleave, nor on the order the plan lists its steps in. */
module Confluence {
  import opened Basics
  import opened Trace
  import opened Tools
  import opened PlanValidator
  import opened Stages
  import opened StepRunner
  import opened PlanExecuteSpec

  // ----- schedules -------------------------------------------------------------------------

  /** The event loop resumes the `i`-th coroutine, if there is one that has not ended. */
  function Pick(w: World, pass: nat, steps: seq<PlanStep>, outputs: map<int, string>, cs: seq<Coroutine>, i: nat): (r: seq<Coroutine>)
    requires |cs| == |steps|
    ensures |r| == |steps|
  {
    if i < |cs| && !cs[i].Ended? then cs[i := Advance(w, pass, steps[i], outputs, cs[i])] else cs
  }

  /** The coroutines of a stage after any list of picks. */
  function Play(w: World, pass: nat, steps: seq<PlanStep>, outputs: map<int, string>, cs: seq<Coroutine>, schedule: seq<nat>)
    : (r: seq<Coroutine>)
    requires |cs| == |steps|
    ensures |r| == |steps|
    decreases |schedule|
  {
    if schedule == [] then cs
    else Play(w, pass, steps, outputs, Pick(w, pass, steps, outputs, cs, schedule[0]), schedule[1..])
  }

  function AllFresh(n: nat): seq<Coroutine> {
    seq(n, _ => Fresh)
  }

  lemma {:induction false} PlayStaysOnTrack(w: World, pass: nat, steps: seq<PlanStep>, outputs: map<int, string>,
                                            cs: seq<Coroutine>, schedule: seq<nat>)
    requires AllOnTrack(w, pass, steps, outputs, cs)
    ensures AllOnTrack(w, pass, steps, outputs, Play(w, pass, steps, outputs, cs, schedule))
    decreases |schedule|
  {
    if schedule != [] {
      var i := schedule[0];
      if i < |cs| && !cs[i].Ended? {
        TickKeeps(w, pass, steps, outputs, cs, i);
      }
      PlayStaysOnTrack(w, pass, steps, outputs, Pick(w, pass, steps, outputs, cs, i), schedule[1..]);
    }
  }

  predicate Finished(cs: seq<Coroutine>) {
    forall i :: 0 <= i < |cs| ==> cs[i].Ended?
  }

  /** Whatever the interleaving: a coroutine that has ended has the result of its step run alone from the outputs
      the stage started with. */
  lemma EachEndsAsIfAlone(w: World, pass: nat, steps: seq<PlanStep>, outputs: map<int, string>, schedule: seq<nat>, i: nat)
    requires i < |steps|
    requires Play(w, pass, steps, outputs, AllFresh(|steps|), schedule)[i].Ended?
    ensures Play(w, pass, steps, outputs, AllFresh(|steps|), schedule)[i].end == StepRun(w, pass, steps[i], outputs)
  {
    PlayStaysOnTrack(w, pass, steps, outputs, AllFresh(|steps|), schedule);
    assert OnTrack(w, pass, steps[i], outputs, Play(w, pass, steps, outputs, AllFresh(|steps|), schedule)[i]);
  }

  /** Any two schedules that run a stage to its end leave it in the same state. */
  lemma SchedulesAgree(w: World, pass: nat, steps: seq<PlanStep>, outputs: map<int, string>, s1: seq<nat>, s2: seq<nat>)
    requires Finished(Play(w, pass, steps, outputs, AllFresh(|steps|), s1))
    requires Finished(Play(w, pass, steps, outputs, AllFresh(|steps|), s2))
    ensures Play(w, pass, steps, outputs, AllFresh(|steps|), s1) == Play(w, pass, steps, outputs, AllFresh(|steps|), s2)
  {
    var a, b := Play(w, pass, steps, outputs, AllFresh(|steps|), s1), Play(w, pass, steps, outputs, AllFresh(|steps|), s2);
    forall i | 0 <= i < |steps| ensures a[i] == b[i] {
      EachEndsAsIfAlone(w, pass, steps, outputs, s1, i);
      EachEndsAsIfAlone(w, pass, steps, outputs, s2, i);
    }
  }

  // ----- the order of the plan -------------------------------------------------------------

  ghost predicate SameSteps(a: seq<PlanStep>, b: seq<PlanStep>) {
    |a| == |b| && forall s :: s in a <==> s in b
  }

  /** Steps with distinct ids have one listing in id order. */
  lemma {:induction false} AscendingIdsUnique(a: seq<PlanStep>, b: seq<PlanStep>)
    requires AscendingIds(a) && AscendingIds(b) && SameSteps(a, b)
    ensures a == b
    decreases |a|
  {
    if a != [] {
      assert a[0] in b && b[0] in a;
      assert a[0] == b[0];
      forall s ensures s in a[1..] <==> s in b[1..] {
        if s in a[1..] { assert s in a && s != a[0]; assert s in b; }
        if s in b[1..] { assert s in b && s != b[0]; assert s in a; }
      }
      AscendingIdsUnique(a[1..], b[1..]);
      assert a == [a[0]] + a[1..] && b == [b[0]] + b[1..];
    }
  }

  lemma ByIdIgnoresOrder(a: seq<PlanStep>, b: seq<PlanStep>)
    requires DistinctIds(a) && DistinctIds(b) && SameSteps(a, b)
    ensures ById(a) == ById(b)
  {
    ByIdElements(a);
    ByIdElements(b);
    ByIdAscending(a);
    ByIdAscending(b);
    AscendingIdsUnique(ById(a), ById(b));
  }

  /** What a stage records and decides. */
  predicate SameRecord(b: Books, c: Books) {
    && b.view.db == c.view.db && b.view.committed == c.view.committed
    && b.tally == c.tally && b.runSeq == c.runSeq && b.outputs == c.outputs && b.completed == c.completed
  }

  lemma {:induction false} AskTimesRecords(v: View, n: nat)
    ensures AskTimes(v, n).db == v.db && AskTimes(v, n).committed == v.committed
  {
    if n > 0 {
      AskTimesRecords(v, n - 1);
    }
  }

  lemma LaunchRecords(b: Books, g: Group)
    ensures SameRecord(Launch(b, g), b)
  {
    AskTimesRecords(Do(b.view, Emit(Working(Executing(g.stage, IdsOf(g.steps))))), |g.steps|);
  }

  lemma {:induction false} PersistSame(b: Books, c: Books, outs: seq<StepOutcome>)
    requires SameRecord(b, c)
    ensures SameRecord(PersistAll(b, outs), PersistAll(c, outs))
    decreases |outs|
  {
    if outs != [] {
      PersistSame(PersistOne(b, outs[0]), PersistOne(c, outs[0]), outs[1..]);
    }
  }

  lemma {:induction false} RecordSame(b: Books, c: Books, outs: seq<StepOutcome>)
    requires SameRecord(b, c)
    ensures SameRecord(RecordSuccesses(b, outs), RecordSuccesses(c, outs))
    decreases |outs|
  {
    if outs != [] {
      var o := outs[0];
      if o.status.Success? {
        RecordSame(b.(completed := b.completed + {o.step.id}, outputs := b.outputs[o.step.id := o.output]),
                   c.(completed := c.completed + {o.step.id}, outputs := c.outputs[o.step.id := o.output]), outs[1..]);
      } else {
        RecordSame(b, c, outs[1..]);
      }
    }
  }

  lemma JudgeSame(cfg: Config, b: Books, c: Books, outs: seq<StepOutcome>)
    requires SameRecord(b, c)
    ensures SameRecord(Judge(cfg, b, outs).0, Judge(cfg, c, outs).0) && Judge(cfg, b, outs).1 == Judge(cfg, c, outs).1
  {
    RecordSame(b, c, outs);
  }

  lemma EscapesSame(w: World, pass: nat, a: seq<PlanStep>, b: seq<PlanStep>, outputs: map<int, string>)
    requires ById(a) == ById(b)
    ensures SomeEscape(w, pass, a, outputs) <==> SomeEscape(w, pass, b, outputs)
  {
    ByIdEscapes(w, pass, a, outputs);
    ByIdEscapes(w, pass, b, outputs);
  }

  /** However the plan lists the steps of a stage, the rows with their numbers, the token and cost totals, the
      recorded outputs, the completed ids and the decision are the same. */
  lemma StageIgnoresPlanOrder(w: World, cfg: Config, pass: nat, b: Books, stage: int, a: seq<PlanStep>, c: seq<PlanStep>)
    requires DistinctIds(a) && DistinctIds(c) && SameSteps(a, c)
    ensures var (b1, v1) := StageStep(w, cfg, pass, b, Group(stage, a));
            var (b2, v2) := StageStep(w, cfg, pass, b, Group(stage, c));
            SameRecord(b1, b2) && v1 == v2
  {
    ByIdIgnoresOrder(a, c);
    EscapesSame(w, pass, a, c, b.outputs);
    var l1, l2 := Launch(b, Group(stage, a)), Launch(b, Group(stage, c));
    LaunchRecords(b, Group(stage, a));
    LaunchRecords(b, Group(stage, c));
    if !SomeEscape(w, pass, a, b.outputs) {
      ByIdEscapes(w, pass, a, b.outputs);
      var outs := OutcomesOf(w, pass, ById(a), b.outputs);
      PersistSame(l1, l2, outs);
      JudgeSame(cfg, Persisted(l1, outs), Persisted(l2, outs), outs);
    }
  }

  // ----- the decision ----------------------------------------------------------------------

  /** The outcome at `i` asks for a replan, and none before it does. */
  predicate FirstReplan(outs: seq<StepOutcome>, i: nat) {
    i < |outs| && outs[i].status.ReplanRequested? && forall j :: 0 <= j < i ==> !outs[j].status.ReplanRequested?
  }

  lemma {:induction false} LowestIdSuppliesReason(outs: seq<StepOutcome>, i: nat)
    requires FirstReplan(outs, i)
    ensures ReplanReason(outs) == if outs[i].reason != "" then outs[i].reason else "replan_requested"
    decreases |outs|
  {
    if i > 0 {
      forall j | 0 <= j < i - 1 ensures !outs[1..][j].status.ReplanRequested? {
        assert outs[1..][j] == outs[j + 1];
      }
      LowestIdSuppliesReason(outs[1..], i - 1);
    }
  }

  /** A failure beats a replan request, a request beats the token budget, and the lowest id that asks supplies the
      reason. */
  lemma DecisionRule(cfg: Config, b: Books, outs: seq<StepOutcome>)
    ensures var v := Judge(cfg, b, outs).1;
            && (v.StopFailed? <==> SomeStatus(outs, Failure))
            && (v.AskReplan? <==> !SomeStatus(outs, Failure) && SomeStatus(outs, ReplanRequested))
            && (v.StopTokens? ==> b.tally.usage.tokensOut >= cfg.maxTokens)
            && (v.GoOn? ==> b.tally.usage.tokensOut < cfg.maxTokens
                            && forall i :: 0 <= i < |outs| ==> outs[i].status == Success)
            && forall i: nat :: v.AskReplan? && FirstReplan(outs, i) ==>
                 v.reason == if outs[i].reason != "" then outs[i].reason else "replan_requested"
  {
    forall i: nat | FirstReplan(outs, i)
      ensures ReplanReason(outs) == if outs[i].reason != "" then outs[i].reason else "replan_requested"
    {
      LowestIdSuppliesReason(outs, i);
    }
    var v := Judge(cfg, b, outs).1;
    if v.GoOn? {
      forall i | 0 <= i < |outs| ensures outs[i].status == Success {
        assert !(outs[i].status == Failure) && !(outs[i].status == ReplanRequested);
      }
    }
  }
}
