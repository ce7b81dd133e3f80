/** What the planner and the synthesis of a Plan & Execute run said, against the plans it stores, the passes it makes and the
    answer it gives. */
module PlanExecuteRounds {
  import opened Basics
  import opened Sequences
  import opened Trace
  import opened Protocol
  import opened Invariants
  import opened Tools
  import opened PlanValidator
  import opened Stages
  import opened Synthesis
  import opened StepRunner
  import opened StepReadings
  import opened PlanExecuteSpec
  import opened PlanExecuteFacts
  import opened PlanExecuteStages
  import opened PlanExecutePasses
  import opened PlanExecuteReuse
  import opened PlanExecuteReadings
  import Theorems = PlanExecuteTheorems

  // ----- what the planner said -------------------------------------------------------------

  /** The planner's reply decodes to this document, and the document is acceptable. */
  predicate Usable(w: World, cfg: Config, c: ChatOutcome, payload: Json) {
    c.Reply? && w.loads(c.reply.content) == Some(payload) && Acceptable(payload, cfg.maxSteps, cfg.tools)
  }

  /** The planner replied, but with no acceptable document. */
  predicate Unusable(w: World, cfg: Config, c: ChatOutcome) {
    && c.Reply?
    && (w.loads(c.reply.content).Some? ==> !Acceptable(w.loads(c.reply.content).value, cfg.maxSteps, cfg.tools))
  }

  function Sum(a: Usage, b: Usage): Usage {
    Usage(a.tokensIn + b.tokensIn, a.tokensOut + b.tokensOut)
  }

  /** The plan of a pass is the document of the planner's first reply, or of its second when the first cannot be used; what it
      costs is what the replies up to then cost. */
  predicate RoundTold(w: World, cfg: Config, pass: nat, payload: Json, usage: Usage) {
    || (Usable(w, cfg, w.planner(pass, 0), payload) && usage == w.planner(pass, 0).reply.usage)
    || (&& Unusable(w, cfg, w.planner(pass, 0)) && Usable(w, cfg, w.planner(pass, 1), payload)
        && usage == Sum(w.planner(pass, 0).reply.usage, w.planner(pass, 1).reply.usage))
  }

  /** The planner gave up: a call raised, or neither of two replies could be used. */
  predicate GaveUpTold(w: World, cfg: Config, pass: nat, reason: Reason, usage: Usage) {
    match reason
    case LlmProviderError =>
      || (w.planner(pass, 0).ProviderError? && usage == Usage(0, 0))
      || (Unusable(w, cfg, w.planner(pass, 0)) && w.planner(pass, 1).ProviderError? && usage == w.planner(pass, 0).reply.usage)
    case PlanningFailed =>
      && Unusable(w, cfg, w.planner(pass, 0)) && Unusable(w, cfg, w.planner(pass, 1))
      && usage == Sum(w.planner(pass, 0).reply.usage, w.planner(pass, 1).reply.usage)
    case _ => false
  }

  predicate PlannerTold(w: World, cfg: Config, pass: nat, end: PlannerEnd) {
    match end
    case Planned(plan, payload, spent) =>
      && RoundTold(w, cfg, pass, payload, spent.usage)
      && Acceptable(payload, cfg.maxSteps, cfg.tools) && plan == PlanOf(payload, cfg.maxSteps, cfg.tools)
    case PlannerFailed(reason, spent) => GaveUpTold(w, cfg, pass, reason, spent.usage)
  }

  lemma ZeroPlus(u: Usage)
    ensures Plus(NO_USAGE, u) == u
  {
  }

  /** The second attempt, after a first that could not be used. */
  lemma SecondAttempt(w: World, cfg: Config, pass: nat, agg: Tally, v: View, attempt: nat)
    requires attempt == 1
    ensures var c, end := w.planner(pass, attempt), CallPlanner(w, cfg, pass, attempt, agg, v).1;
            && (c.ProviderError? ==> end == PlannerFailed(LlmProviderError, agg))
            && (Unusable(w, cfg, c) ==> end.PlannerFailed? && end.reason == PlanningFailed && end.spent.usage == Plus(agg.usage, c.reply.usage))
            && (end.Planned? ==> Usable(w, cfg, c, end.payload) && end.plan == PlanOf(end.payload, cfg.maxSteps, cfg.tools)
                                 && end.spent.usage == Plus(agg.usage, c.reply.usage))
            && (c.Reply? && !Unusable(w, cfg, c) ==> end.Planned?)
  {
  }

  /** One round with the planner. */
  lemma RoundIsTold(w: World, cfg: Config, pass: nat, v: View, attempt: nat, agg: Tally)
    requires attempt == 0 && agg == ZERO_TALLY
    ensures PlannerTold(w, cfg, pass, CallPlanner(w, cfg, pass, attempt, agg, v).1)
    ensures CallPlanner(w, cfg, pass, attempt, agg, v).0.db == v.db
  {
    var c := w.planner(pass, attempt);
    if c.Reply? {
      ZeroPlus(c.reply.usage);
      var spent := Charge(agg, c.reply.usage, c.reply.cost);
      if Unusable(w, cfg, c) {
        SecondAttempt(w, cfg, pass, spent, Do(v, Ask), attempt + 1);
        RoundKeepsDb(w, cfg, pass, attempt + 1, spent, Do(v, Ask));
      }
    }
  }

  lemma {:induction false} RoundKeepsDb(w: World, cfg: Config, pass: nat, attempt: nat, agg: Tally, v: View)
    ensures CallPlanner(w, cfg, pass, attempt, agg, v).0.db == v.db
    decreases MAX_PLANNER_RETRIES + 1 - attempt
  {
    if attempt <= MAX_PLANNER_RETRIES && w.planner(pass, attempt).Reply? {
      var r := w.planner(pass, attempt).reply;
      RoundKeepsDb(w, cfg, pass, attempt + 1, Charge(agg, r.usage, r.cost), Do(v, Ask));
    }
  }

  // ----- the plan rows ---------------------------------------------------------------------

  /** The plan row of a pass: the goal and the document the planner gave for it. */
  predicate PlanRowTold(w: World, cfg: Config, pass: nat, row: StepRow) {
    && row.args.JsonArgs? && row.usage.Some? && RoundTold(w, cfg, pass, row.args.json, row.usage.value)
    && row.args.json.JObj? && "goal" in row.args.json.fields
    && row.content.Some? && row.args.json.fields["goal"] == JStr(row.content.value)
  }

  /** The plan rows are those of the passes, in order. */
  ghost predicate PlansTold(w: World, cfg: Config, rows: seq<StepRow>) {
    forall i :: 0 <= i < |rows| && rows[i].role.PlanRole? ==> PlanRowTold(w, cfg, PlanRows(rows[..i]), rows[i])
  }

  lemma PlansMore(w: World, cfg: Config, rows: seq<StepRow>, more: seq<StepRow>)
    requires PlansTold(w, cfg, rows) && forall i :: 0 <= i < |more| ==> !more[i].role.PlanRole?
    ensures PlansTold(w, cfg, rows + more)
  {
    forall i | 0 <= i < |rows + more| && (rows + more)[i].role.PlanRole?
      ensures PlanRowTold(w, cfg, PlanRows((rows + more)[..i]), (rows + more)[i])
    {
      if i < |rows| {
        assert (rows + more)[..i] == rows[..i];
      }
    }
  }

  lemma {:induction false} NoMorePlans(rows: seq<StepRow>, more: seq<StepRow>)
    requires forall i :: 0 <= i < |more| ==> !more[i].role.PlanRole?
    ensures PlanRows(rows + more) == PlanRows(rows)
    decreases |more|
  {
    if more == [] {
      assert rows + more == rows;
    } else {
      NoMorePlans(rows, more[..|more| - 1]);
      PhaseSnoc(rows + more[..|more| - 1], more[|more| - 1]);
      assert rows + more == (rows + more[..|more| - 1]) + [more[|more| - 1]];
    }
  }

  lemma PlanAdded(w: World, cfg: Config, rows: seq<StepRow>, row: StepRow)
    requires PlansTold(w, cfg, rows) && PlanRowTold(w, cfg, PlanRows(rows), row)
    ensures PlansTold(w, cfg, rows + [row])
  {
    forall i | 0 <= i < |rows + [row]| && (rows + [row])[i].role.PlanRole?
      ensures PlanRowTold(w, cfg, PlanRows((rows + [row])[..i]), (rows + [row])[i])
    {
      if i < |rows| {
        assert (rows + [row])[..i] == rows[..i];
      } else {
        assert (rows + [row])[..i] == rows;
      }
    }
  }

  lemma PlanRowReads(w: World, cfg: Config, pass: nat, n: nat, plan: Plan, payload: Json, spent: Tally)
    requires PlannerTold(w, cfg, pass, Planned(plan, payload, spent))
    ensures PlanRowTold(w, cfg, pass, PlanRow(n, plan, payload, spent.usage))
  {
  }

  // ----- which pass asked for another plan -------------------------------------------------

  /** A step started in this pass was told to ask for another plan. */
  predicate AskedIn(w: World, starts: seq<Start>, pass: nat) {
    exists j :: 0 <= j < |starts| && starts[j].pass == pass && Says(w, ReplyTo(w, starts[j]), "status", "replan_requested")
  }

  predicate NoneAfter(starts: seq<Start>, pass: nat) {
    forall j :: 0 <= j < |starts| ==> starts[j].pass <= pass
  }

  /** Every pass before this one ended with a request for another plan. */
  ghost predicate PassesAsked(w: World, starts: seq<Start>, n: nat) {
    forall p: nat :: p < n ==> AskedIn(w, starts, p)
  }

  /** The plan stored with the run is the first plan row's. */
  predicate Stamped(db: Db) {
    && db.rows != [] && db.rows[0].role.PlanRole? && db.rows[0].args.JsonArgs?
    && db.run.plan == Some(db.rows[0].args.json)
  }

  /** The plan in hand is the one the planner gave for this pass. */
  ghost predicate PlanHeld(w: World, cfg: Config, pass: nat, plan: Plan) {
    exists payload: Json, usage: Usage ::
      && RoundTold(w, cfg, pass, payload, usage) && Acceptable(payload, cfg.maxSteps, cfg.tools)
      && plan == PlanOf(payload, cfg.maxSteps, cfg.tools)
  }

  /** What holds from the first plan on. */
  ghost predicate Planning(w: World, cfg: Config, ms: seq<Message>, b: Books) {
    && PlansTold(w, cfg, b.view.db.rows) && Stamped(b.view.db) && b.view.db.messages == ms
    && NoneAfter(b.starts, b.replans) && PassesAsked(w, b.starts, b.replans)
  }

  /** Within a pass that nobody asked to end. */
  ghost predicate InPass(w: World, cfg: Config, ms: seq<Message>, b: Books) {
    && Planning(w, cfg, ms, b) && PlanRows(b.view.db.rows) == b.replans + 1
    && PlanHeld(w, cfg, b.replans, b.plan) && !AskedIn(w, b.starts, b.replans)
  }

  /** What the stages of a pass leave. */
  ghost predicate PassEnds(w: World, cfg: Config, ms: seq<Message>, b: Books, r: (Books, Verdict)) {
    && Planning(w, cfg, ms, r.0) && PlanRows(r.0.view.db.rows) == b.replans + 1
    && r.0.replans == b.replans && r.0.plan == b.plan
    && (r.1.GoOn? || r.1.StopTokens? ==> !AskedIn(w, r.0.starts, b.replans))
    && (r.1.AskReplan? ==> AskedIn(w, r.0.starts, b.replans))
  }

  // ----- one stage -------------------------------------------------------------------------

  lemma {:induction false} PersistKeepsRest(b: Books, outs: seq<StepOutcome>)
    ensures var db := PersistAll(b, outs).view.db; db.run == b.view.db.run && db.messages == b.view.db.messages
    decreases |outs|
  {
    if outs != [] {
      PersistKeepsRest(PersistOne(b, outs[0]), outs[1..]);
    }
  }

  predicate SameRest(u: View, v: View) {
    v.db.run == u.db.run && v.db.messages == u.db.messages
  }

  lemma PersistedRest(b: Books, outs: seq<StepOutcome>)
    ensures SameRest(b.view, Persisted(b, outs).view)
  {
    PersistKeepsRest(b, outs);
  }

  lemma JudgedRest(cfg: Config, b: Books, outs: seq<StepOutcome>)
    ensures SameRest(b.view, Judge(cfg, b, outs).0.view)
  {
    JudgeGrows(cfg, b, outs);
  }

  lemma LaunchedRest(start: Db, b: Books, g: Group)
    requires Calm(start, b.view)
    ensures SameRest(b.view, Launch(b, g).view)
  {
    LaunchView(start, b, g);
  }

  lemma StageKeepsRest(start: Db, w: World, cfg: Config, pass: nat, b: Books, g: Group)
    requires Calm(start, b.view)
    ensures SameRest(b.view, StageStep(w, cfg, pass, b, g).0.view)
  {
    var b1 := Launch(b, g);
    LaunchedRest(start, b, g);
    if !SomeEscape(w, pass, g.steps, b.outputs) {
      ByIdEscapes(w, pass, g.steps, b.outputs);
      var outs := OutcomesOf(w, pass, ById(g.steps), b.outputs);
      PersistedRest(b1, outs);
      JudgedRest(cfg, Persisted(b1, outs), outs);
    }
  }

  /** The rows of a stage, none when it crashed, are no plan rows. */
  lemma StageAddsNoPlan(start: Db, w: World, cfg: Config, pass: nat, b: Books, g: Group, replans: nat) returns (more: seq<StepRow>)
    requires Good(start, b, replans) && StageReady(g, b.completed)
    ensures StageStep(w, cfg, pass, b, g).0.view.db.rows == b.view.db.rows + more
    ensures forall i :: 0 <= i < |more| ==> !more[i].role.PlanRole?
  {
    if SomeEscape(w, pass, g.steps, b.outputs) {
      CrashedRows(w, cfg, pass, b, g, start);
      more := [];
    } else {
      ByIdEscapes(w, pass, g.steps, b.outputs);
      StageRows(start, w, cfg, pass, b, g, replans);
      var outs := OutcomesOf(w, pass, ById(g.steps), b.outputs);
      more := MarkedRows(b.runSeq, outs);
      MarkedRowsAt(b.runSeq, outs);
    }
  }

  lemma AskedByOne(w: World, pass: nat, steps: seq<PlanStep>, outputs: map<int, string>, s: PlanStep)
    requires s in steps && Says(w, w.step(pass, s.id), "status", "replan_requested")
    ensures AskedIn(w, StartsOf(steps, pass, outputs), pass)
  {
    var j :| 0 <= j < |steps| && steps[j] == s;
    assert StartsOf(steps, pass, outputs)[j] == Start(s, pass, outputs);
  }

  lemma RequestedByOne(w: World, pass: nat, steps: seq<PlanStep>, outputs: map<int, string>, s: PlanStep)
    requires !SomeEscape(w, pass, steps, outputs) && s in steps && Says(w, w.step(pass, s.id), "status", "replan_requested")
    ensures SomeStatus(OutcomesOf(w, pass, steps, outputs), ReplanRequested)
  {
    var i :| 0 <= i < |steps| && steps[i] == s;
    assert StepRun(w, pass, steps[i], outputs).Returned?;
    StepTold(w, pass, s, outputs);
    assert OutcomesOf(w, pass, steps, outputs)[i] == StepRun(w, pass, s, outputs).outcome;
  }

  lemma ReplanSaid(w: World, pass: nat, g: Group, outputs: map<int, string>)
    requires !SomeEscape(w, pass, ById(g.steps), outputs)
    ensures SomeStatus(OutcomesOf(w, pass, ById(g.steps), outputs), ReplanRequested)
            <==> AskedIn(w, StartsOf(g.steps, pass, outputs), pass)
  {
    var sorted := ById(g.steps);
    var outs := OutcomesOf(w, pass, sorted, outputs);
    var starts := StartsOf(g.steps, pass, outputs);
    ByIdElements(g.steps);
    if i :| 0 <= i < |outs| && outs[i].status == ReplanRequested {
      StepTold(w, pass, sorted[i], outputs);
      assert sorted[i] in sorted;
      AskedByOne(w, pass, g.steps, outputs, sorted[i]);
    }
    if j :| 0 <= j < |starts| && Says(w, ReplyTo(w, starts[j]), "status", "replan_requested") {
      assert g.steps[j] in sorted;
      RequestedByOne(w, pass, sorted, outputs, g.steps[j]);
    }
  }

  lemma JudgeReads(cfg: Config, b: Books, outs: seq<StepOutcome>)
    ensures var v := Judge(cfg, b, outs).1;
            && (v.GoOn? || v.StopTokens? ==> !SomeStatus(outs, ReplanRequested))
            && (v.AskReplan? ==> SomeStatus(outs, ReplanRequested))
  {
  }

  lemma VerdictTold(w: World, cfg: Config, pass: nat, b: Books, g: Group)
    ensures var v := StageStep(w, cfg, pass, b, g).1;
            && (v.GoOn? || v.StopTokens? ==> !AskedIn(w, StartsOf(g.steps, pass, b.outputs), pass))
            && (v.AskReplan? ==> AskedIn(w, StartsOf(g.steps, pass, b.outputs), pass))
  {
    if !SomeEscape(w, pass, g.steps, b.outputs) {
      ByIdEscapes(w, pass, g.steps, b.outputs);
      var outs := OutcomesOf(w, pass, ById(g.steps), b.outputs);
      ReplanSaid(w, pass, g, b.outputs);
      JudgeReads(cfg, Persisted(Launch(b, g), outs), outs);
    }
  }

  lemma AskedMore(w: World, starts: seq<Start>, more: seq<Start>, pass: nat)
    ensures AskedIn(w, starts + more, pass) <==> AskedIn(w, starts, pass) || AskedIn(w, more, pass)
  {
    var all := starts + more;
    if j :| 0 <= j < |starts| && starts[j].pass == pass && Says(w, ReplyTo(w, starts[j]), "status", "replan_requested") {
      assert all[j] == starts[j];
    }
    if j :| 0 <= j < |more| && more[j].pass == pass && Says(w, ReplyTo(w, more[j]), "status", "replan_requested") {
      assert all[|starts| + j] == more[j];
    }
    if j :| 0 <= j < |all| && all[j].pass == pass && Says(w, ReplyTo(w, all[j]), "status", "replan_requested") {
      assert all[j] == if j < |starts| then starts[j] else more[j - |starts|];
    }
  }

  lemma PassesAskedMore(w: World, starts: seq<Start>, more: seq<Start>, n: nat)
    requires PassesAsked(w, starts, n)
    ensures PassesAsked(w, starts + more, n)
  {
    forall p: nat | p < n ensures AskedIn(w, starts + more, p) {
      AskedMore(w, starts, more, p);
    }
  }

  lemma StartsMore(w: World, b: Books, g: Group)
    requires NoneAfter(b.starts, b.replans) && PassesAsked(w, b.starts, b.replans) && !AskedIn(w, b.starts, b.replans)
    ensures var more := StartsOf(g.steps, b.replans, b.outputs);
            && NoneAfter(b.starts + more, b.replans) && PassesAsked(w, b.starts + more, b.replans)
            && (AskedIn(w, b.starts + more, b.replans) <==> AskedIn(w, more, b.replans))
  {
    var more := StartsOf(g.steps, b.replans, b.outputs);
    PassesAskedMore(w, b.starts, more, b.replans);
    AskedMore(w, b.starts, more, b.replans);
  }

  lemma StampedMore(db: Db, db': Db, more: seq<StepRow>)
    requires Stamped(db) && db'.rows == db.rows + more && db'.run == db.run
    ensures Stamped(db')
  {
  }

  lemma StageKeepsPlans(start: Db, w: World, cfg: Config, ms: seq<Message>, b: Books, g: Group, replans: nat)
    requires Good(start, b, replans) && StageReady(g, b.completed) && InPass(w, cfg, ms, b)
    ensures PassEnds(w, cfg, ms, b, StageStep(w, cfg, b.replans, b, g))
  {
    var b' := StageStep(w, cfg, b.replans, b, g).0;
    var more := StageAddsNoPlan(start, w, cfg, b.replans, b, g, replans);
    StageKeepsRest(start, w, cfg, b.replans, b, g);
    StampedMore(b.view.db, b'.view.db, more);
    PlansMore(w, cfg, b.view.db.rows, more);
    NoMorePlans(b.view.db.rows, more);
    StageStarts(w, cfg, b.replans, b, g);
    StartsMore(w, b, g);
    VerdictTold(w, cfg, b.replans, b, g);
    StageKeepsReplans(w, cfg, b.replans, b, g);
    StageKeepsPlan(w, cfg, b.replans, b, g);
  }

  // ----- the passes ------------------------------------------------------------------------

  lemma StillInPass(w: World, cfg: Config, ms: seq<Message>, b: Books, r: (Books, Verdict))
    requires InPass(w, cfg, ms, b) && PassEnds(w, cfg, ms, b, r) && r.1.GoOn?
    ensures InPass(w, cfg, ms, r.0)
  {
  }

  lemma {:induction false} StagesKeepPlans(start: Db, w: World, cfg: Config, ms: seq<Message>, b: Books, groups: seq<Group>,
                                           replans: nat)
    requires PassPoint(start, b, groups, replans) && InPass(w, cfg, ms, b)
    ensures PassEnds(w, cfg, ms, b, RunStages(w, cfg, b.replans, b, groups))
    decreases |groups|
  {
    if groups != [] && !w.cancelled(b.replans, groups[0].stage) {
      var (b1, v1) := StageStep(w, cfg, b.replans, b, groups[0]);
      FirstStage(start, w, cfg, b.replans, b, groups, replans);
      FirstStageReady(b.plan.steps, b.completed, groups);
      StageKeepsPlans(start, w, cfg, ms, b, groups[0], replans);
      if v1.GoOn? {
        NextPoint(start, b, groups, b1, replans);
        StillInPass(w, cfg, ms, b, (b1, v1));
        StagesKeepPlans(start, w, cfg, ms, b1, groups[1..], replans);
      }
    }
  }

  /** How the executing phase ends. */
  ghost predicate PhaseTold(w: World, cfg: Config, ms: seq<Message>, b: Books, f: Finish) {
    && Planning(w, cfg, ms, b)
    && (f.AllDone? || f.HitTokens? ==> !AskedIn(w, b.starts, b.replans) && PlanHeld(w, cfg, b.replans, b.plan))
    && (f.TooManyReplans? ==> AskedIn(w, b.starts, b.replans) && b.replans >= 3)
    && (f.PlannerGaveUp? ==> GaveUpTold(w, cfg, b.replans, f.reason, f.spent.usage))
  }

  ghost predicate RoundTurn(w: World, cfg: Config, ms: seq<Message>, t: PlanExecuteSpec.Turn) {
    match t
    case Stops(b, f) => PhaseTold(w, cfg, ms, b, f)
    case Continues(b) => InPass(w, cfg, ms, b)
  }

  /** Before the first plan, or after a pass that asked for another. */
  ghost predicate BetweenPlans(w: World, cfg: Config, ms: seq<Message>, b: Books) {
    && PlansTold(w, cfg, b.view.db.rows) && PlanRows(b.view.db.rows) == b.replans && b.view.db.messages == ms
    && (b.replans > 0 ==> Stamped(b.view.db)) && (b.replans == 0 ==> b.view.db.rows == [])
    && NoneAfter(b.starts, b.replans) && PassesAsked(w, b.starts, b.replans) && !AskedIn(w, b.starts, b.replans)
  }

  lemma AdoptedDb(b: Books, plan: Plan, payload: Json, spent: Tally, first: bool)
    ensures var b' := Adopt(b, plan, payload, spent, first);
            && b'.view.db.rows == b.view.db.rows + [PlanRow(b.runSeq + 1, plan, payload, spent.usage)]
            && b'.view.db.messages == b.view.db.messages
            && b'.view.db.run == (if first then b.view.db.run.(plan := Some(payload)) else b.view.db.run)
            && b'.starts == b.starts && b'.replans == b.replans && b'.plan == plan
  {
  }

  lemma AdoptedInPass(w: World, cfg: Config, ms: seq<Message>, b: Books, plan: Plan, payload: Json, spent: Tally, first: bool)
    requires BetweenPlans(w, cfg, ms, b) && (first <==> b.replans == 0)
    requires PlannerTold(w, cfg, b.replans, Planned(plan, payload, spent))
    ensures InPass(w, cfg, ms, Adopt(b, plan, payload, spent, first))
  {
    var row := PlanRow(b.runSeq + 1, plan, payload, spent.usage);
    AdoptedDb(b, plan, payload, spent, first);
    PlanRowReads(w, cfg, b.replans, b.runSeq + 1, plan, payload, spent);
    PlanAdded(w, cfg, b.view.db.rows, row);
    PhaseSnoc(b.view.db.rows, row);
    assert RoundTold(w, cfg, b.replans, payload, spent.usage);
  }

  lemma GaveUpEnds(w: World, cfg: Config, ms: seq<Message>, b: Books, reason: Reason, spent: Tally)
    requires BetweenPlans(w, cfg, ms, b) && b.replans > 0 && GaveUpTold(w, cfg, b.replans, reason, spent.usage)
    ensures PhaseTold(w, cfg, ms, b, PlannerGaveUp(reason, spent))
  {
  }

  lemma NextPlanIsTold(w: World, cfg: Config, ms: seq<Message>, b: Books)
    requires BetweenPlans(w, cfg, ms, b) && b.replans > 0
    ensures RoundTurn(w, cfg, ms, NextPlan(w, cfg, b))
  {
    RoundIsTold(w, cfg, b.replans, b.view, 0, ZERO_TALLY);
    var (view, end) := CallPlanner(w, cfg, b.replans, 0, ZERO_TALLY, b.view);
    match end {
      case Planned(plan, payload, spent) => AdoptedInPass(w, cfg, ms, b.(view := view), plan, payload, spent, false);
      case PlannerFailed(reason, spent) => GaveUpEnds(w, cfg, ms, b.(view := view), reason, spent);
    }
  }

  lemma ReplanningBetween(w: World, cfg: Config, ms: seq<Message>, b: Books, r: (Books, Verdict))
    requires PassEnds(w, cfg, ms, b, r) && r.1.AskReplan?
    ensures BetweenPlans(w, cfg, ms, Replanning(r.0, b.replans))
  {
    var b' := Replanning(r.0, b.replans);
    assert b'.view.db == r.0.view.db && b'.starts == r.0.starts;
    forall p: nat | p < b'.replans ensures AskedIn(w, b'.starts, p) {
      assert p < b.replans || p == b.replans;
    }
  }

  lemma FinishIsTold(w: World, cfg: Config, ms: seq<Message>, b: Books, r: (Books, Verdict))
    requires InPass(w, cfg, ms, b) && PassEnds(w, cfg, ms, b, r) && (r.1.AskReplan? ==> b.replans >= 3)
    ensures PhaseTold(w, cfg, ms, r.0, FinishOf(r.1))
  {
  }

  lemma TurnKeepsPlans(start: Db, w: World, cfg: Config, ms: seq<Message>, b: Books)
    requires PassStart(start, cfg, b) && InPass(w, cfg, ms, b)
    ensures RoundTurn(w, cfg, ms, PassTurn(w, cfg, b))
  {
    if !w.cancelled(b.replans, 0) && NotDone(b.plan.steps, b.completed) != [] {
      var groups := Groups(NotDone(b.plan.steps, b.completed));
      var r := RunStages(w, cfg, b.replans, b, groups);
      PassPointAt(start, cfg, b);
      StagesKeepPlans(start, w, cfg, ms, b, groups, b.replans);
      PassTurnIs(w, cfg, b, r.0, r.1);
      if r.1.AskReplan? && b.replans < MAX_REPLANS {
        ReplanningBetween(w, cfg, ms, b, r);
        NextPlanIsTold(w, cfg, ms, Replanning(r.0, b.replans));
      } else {
        FinishIsTold(w, cfg, ms, b, r);
      }
    }
  }

  lemma {:induction false} PassesKeepPlans(start: Db, w: World, cfg: Config, ms: seq<Message>, b: Books)
    requires PassStart(start, cfg, b) && InPass(w, cfg, ms, b)
    ensures PhaseTold(w, cfg, ms, Passes(w, cfg, b).0, Passes(w, cfg, b).1)
    decreases MAX_REPLANS + 1 - b.replans
  {
    var t := PassTurn(w, cfg, b);
    TurnKeepsPlans(start, w, cfg, ms, b);
    TurnKeeps(start, w, cfg, b);
    PassesUnfold(w, cfg, b);
    if t.Continues? {
      PassesKeepPlans(start, w, cfg, ms, t.books);
    }
  }

  // ----- the run ---------------------------------------------------------------------------

  /** The planner gave up before there was a plan. */
  ghost predicate NeverPlanned(w: World, cfg: Config, ms: seq<Message>, b: Books, f: Finish) {
    && b.view.db.rows == [] && b.starts == [] && b.view.db.messages == ms
    && f.PlannerGaveUp? && GaveUpTold(w, cfg, 0, f.reason, f.spent.usage)
  }

  function Asked(start: Db, cfg: Config): seq<Message> {
    start.messages + [Message(User, cfg.userText, [], None, |start.messages|)]
  }

  lemma OpeningBetween(start: Db, w: World, cfg: Config, v: View)
    requires Theorems.FreshStart(start) && v.db == Opening(cfg, start).db
    ensures BetweenPlans(w, cfg, Asked(start, cfg), EmptyBooks(v))
  {
  }

  /** Every plan row is the planner's document for its pass, at the first or second try; a pass follows another only when a
      step of that one was told to ask for it, and the last asked for none when the run went on to its answer; the planner
      gives up, or the replans run out, only where it did. */
  lemma RoundsTold(start: Db, w: World, cfg: Config)
    requires Theorems.FreshStart(start) && cfg.maxSteps >= 1
    ensures var (b, f) := PlanAndExecute(w, cfg, start);
            NeverPlanned(w, cfg, Asked(start, cfg), b, f) || PhaseTold(w, cfg, Asked(start, cfg), b, f)
  {
    var v0 := Opening(cfg, start);
    RoundIsTold(w, cfg, 0, v0, 0, ZERO_TALLY);
    Theorems.OpeningCalm(start, cfg);
    PlannerKeeps(start, w, cfg, 0, 0, ZERO_TALLY, v0);
    var (v, end) := CallPlanner(w, cfg, 0, 0, ZERO_TALLY, v0);
    OpeningBetween(start, w, cfg, v);
    if end.Planned? {
      AdoptedInPass(w, cfg, Asked(start, cfg), EmptyBooks(v), end.plan, end.payload, end.spent, true);
      Theorems.FirstPlan(start, cfg, v, end.plan, end.payload, end.spent);
      PassesKeepPlans(start, w, cfg, Asked(start, cfg), Adopt(EmptyBooks(v), end.plan, end.payload, end.spent, true));
    }
  }

  // ----- the answer ------------------------------------------------------------------------

  predicate SynthesisBlank(w: World) {
    w.synthesis.Reply? && AllSpace(w.synthesis.reply.content)
  }

  /** The answer of a completed run is the synthesis reply: as answer, as last row and as last message. */
  predicate Answers(w: World, ms: seq<Message>, rows: seq<StepRow>, db: Db) {
    && w.synthesis.Reply? && !AllSpace(w.synthesis.reply.content)
    && db.run.answer == Some(w.synthesis.reply.content)
    && |db.rows| == |rows| + 1 && db.rows[..|rows|] == rows && db.rows[|rows|].role.Synthesis?
    && db.rows[|rows|].content == Some(w.synthesis.reply.content) && db.rows[|rows|].usage == Some(w.synthesis.reply.usage)
    && db.messages == ms + [Message(AssistantSpeaker, w.synthesis.reply.content, [], None, |ms|)]
  }

  /** The cause of a failed synthesis. */
  ghost predicate NoAnswer(w: World, cfg: Config, b: Books, reason: Option<Reason>) {
    match reason
    case Some(GuardrailNoSynthesis) =>
      cfg.maxTokens > 0 && 2 * (b.tally.usage.tokensOut + |FormatOutputs(b.outputs)| / 4) > 3 * cfg.maxTokens
    case Some(LlmProviderError) => w.synthesis.ProviderError?
    case Some(MaxTokens) => SynthesisBlank(w) && w.synthesis.reply.finish == Length
    case Some(ContentFilter) => SynthesisBlank(w) && w.synthesis.reply.finish == Filtered
    case Some(EmptyResponse) => SynthesisBlank(w) && w.synthesis.reply.finish !in {Length, Filtered}
    case _ => false
  }

  ghost predicate SynthesisTold(w: World, cfg: Config, ms: seq<Message>, b: Books, e: Exit) {
    match e
    case Left(v) =>
      if v.db.run.status == Completed then Answers(w, ms, b.view.db.rows, v.db) && v.db.run.loops == 1
      else
        && v.db.run.status == Failed && v.db.messages == ms && NoAnswer(w, cfg, b, v.db.run.reason)
        && v.db.run.loops == if v.db.run.reason in {Some(GuardrailNoSynthesis), Some(LlmProviderError)} then 0 else 1
    case Raised(v, _, _) => |ms| >= HARD_CAP && w.synthesis.Reply? && !AllSpace(w.synthesis.reply.content)
  }

  /** An exit before the synthesis: not completed, and no loop counted. */
  predicate Unanswered(e: Exit) {
    e.view.db.run.status != Completed && if e.Left? then e.view.db.run.loops == 0 else e.loops == 0
  }

  lemma FailureStored(b: Books, reason: Reason, loops: nat)
    ensures var e := FailedWith(b, reason, loops);
            && e.Left? && e.view.db.run.status == Failed && e.view.db.run.reason == Some(reason)
            && e.view.db.messages == b.view.db.messages && e.view.db.run.loops == loops
  {
    CloseViewDb(b.view, Closing(Failed, Some(reason), None, b.tally, loops));
  }

  lemma AnswerLeaves(b: Books, r: ChatReply, hitTokens: bool)
    ensures var e, ms := Answered(b, r, hitTokens), b.view.db.messages;
            && (e.Left? ==>
                  && e.view.db.rows == b.view.db.rows + [TextRow(b.runSeq + 1, Trace.Synthesis, r.content, r.usage)]
                  && e.view.db.messages == ms + [Message(AssistantSpeaker, r.content, [], None, |ms|)]
                  && e.view.db.run.status == Completed && e.view.db.run.answer == Some(r.content) && e.view.db.run.loops == 1)
            && (e.Raised? ==> |ms| >= HARD_CAP)
  {
    var v := Do(b.view, AddRow(TextRow(b.runSeq + 1, Trace.Synthesis, r.content, r.usage)));
    CloseViewDb(Do(v, AddMessage(AssistantSpeaker, r.content, [], None)),
                Closing(Completed, if hitTokens then Some(MaxTokens) else None, Some(r.content), b.tally, 1));
  }

  lemma AnswersWith(w: World, ms: seq<Message>, rows: seq<StepRow>, row: StepRow, r: ChatReply, db: Db)
    requires w.synthesis == Reply(r) && !AllSpace(r.content) && db.run.answer == Some(r.content)
    requires row.role.Synthesis? && row.content == Some(r.content) && row.usage == Some(r.usage) && db.rows == rows + [row]
    requires db.messages == ms + [Message(AssistantSpeaker, r.content, [], None, |ms|)]
    ensures Answers(w, ms, rows, db)
  {
  }

  lemma AnswerIsTold(w: World, cfg: Config, ms: seq<Message>, b0: Books, b: Books, r: ChatReply, hitTokens: bool)
    requires b.view.db == b0.view.db && b.view.db.messages == ms && w.synthesis == Reply(r) && !Blank(r.content)
    ensures SynthesisTold(w, cfg, ms, b0, Answered(b, r, hitTokens))
  {
    var e := Answered(b, r, hitTokens);
    BlankMeansAllSpace(r.content);
    AnswerLeaves(b, r, hitTokens);
    if e.Left? {
      AnswersWith(w, ms, b0.view.db.rows, TextRow(b.runSeq + 1, Trace.Synthesis, r.content, r.usage), r, e.view.db);
    }
  }

  lemma ReplyIsTold(w: World, cfg: Config, ms: seq<Message>, b0: Books, b: Books, r: ChatReply, hitTokens: bool)
    requires b.view.db == b0.view.db && b.view.db.messages == ms && w.synthesis == Reply(r)
    ensures SynthesisTold(w, cfg, ms, b0, Synthesized(b, r, hitTokens))
  {
    EmptyReasonSays(r);
    BlankMeansAllSpace(r.content);
    match EmptyReason(r) {
      case Some(reason) => FailureStored(b, reason, 1);
      case None => AnswerIsTold(w, cfg, ms, b0, b, r, hitTokens);
    }
  }

  lemma SkipRead(cfg: Config, b: Books)
    ensures SkipSynthesis(b.tally.usage.tokensOut, cfg.maxTokens, |FormatOutputs(b.outputs)|) <==>
            cfg.maxTokens > 0 && 2 * (b.tally.usage.tokensOut + |FormatOutputs(b.outputs)| / 4) > 3 * cfg.maxTokens
  {
    if cfg.maxTokens > 0 {
      SkipMeansOverBudget(b.tally.usage.tokensOut, cfg.maxTokens, |FormatOutputs(b.outputs)|);
    }
  }

  lemma SynthesisIsTold(w: World, cfg: Config, ms: seq<Message>, b: Books, hitTokens: bool)
    requires b.view.db.messages == ms
    ensures SynthesisTold(w, cfg, ms, b, Synthesize(w, cfg, b, hitTokens))
  {
    SkipRead(cfg, b);
    if SkipSynthesis(b.tally.usage.tokensOut, cfg.maxTokens, |FormatOutputs(b.outputs)|) {
      FailureStored(b, GuardrailNoSynthesis, 0);
    } else {
      var v := Do(Do(b.view, Emit(Working(Synthesizing))), Ask);
      match w.synthesis {
        case ProviderError => FailureStored(b.(view := v), LlmProviderError, 0);
        case Reply(r) =>
          ReplyIsTold(w, cfg, ms, b, b.(view := WithReasoning(v, r), tally := Charge(b.tally, r.usage, r.cost)), r, hitTokens);
      }
    }
  }

  lemma PhaseMessages(start: Db, w: World, cfg: Config)
    requires Theorems.FreshStart(start) && cfg.maxSteps >= 1
    ensures PlanAndExecute(w, cfg, start).0.view.db.messages == Asked(start, cfg)
  {
    RoundsTold(start, w, cfg);
  }

  /** A run whose passes came to an end answers with the synthesis reply, or fails for the cause its reason names; no other
      run is completed, and no other has messages beside the user's. */
  lemma AnswerGiven(start: Db, w: World, cfg: Config)
    requires Theorems.FreshStart(start) && cfg.maxSteps >= 1 && |start.messages| < 1000
    ensures var (b, f) := PlanAndExecute(w, cfg, start);
            var e := RunResult(w, cfg, start);
            if f.AllDone? || f.HitTokens? then SynthesisTold(w, cfg, Asked(start, cfg), b, e)
            else Unanswered(e) && e.view.db.messages == Asked(start, cfg)
  {
    var (b, f) := PlanAndExecute(w, cfg, start);
    PhaseMessages(start, w, cfg);
    Theorems.RunPhases(start, w, cfg);
    ConclusionTold(start, w, cfg, b, f);
  }

  lemma ConclusionTold(start: Db, w: World, cfg: Config, b: Books, f: Finish)
    requires Theorems.FreshStart(start) && Theorems.RanFrom(start, cfg, b, f)
    ensures var e := Conclude(w, cfg, b, f);
            if f.AllDone? || f.HitTokens? then SynthesisTold(w, cfg, b.view.db.messages, b, e)
            else Unanswered(e) && e.view.db.messages == b.view.db.messages
  {
    match f {
      case AllDone => SynthesisIsTold(w, cfg, b.view.db.messages, b, false);
      case HitTokens => SynthesisIsTold(w, cfg, b.view.db.messages, b, true);
      case _ => OtherwiseNotCompleted(start, w, cfg, b, f);
    }
  }

  lemma OtherwiseNotCompleted(start: Db, w: World, cfg: Config, b: Books, f: Finish)
    requires Theorems.FreshStart(start) && Theorems.RanFrom(start, cfg, b, f) && !f.AllDone? && !f.HitTokens?
    ensures var e := Conclude(w, cfg, b, f);
            Unanswered(e) && e.view.db.messages == b.view.db.messages
  {
    Theorems.RanBalanced(start, cfg, b, f);
    match f {
      case WasCancelled => CloseViewDb(b.view, Closing(Cancelled, Some(CancelRequested), None, b.tally, 0));
      case StepFailure => FailureStored(b, StepFailed, 0);
      case TooManyReplans => FailureStored(b, ReplanExceeded, 0);
      case PlannerGaveUp(reason, spent) => FailureStored(b.(tally := Charge(b.tally, spent.usage, spent.cost)), reason, 0);
      case Escape => assert b.view.db.run == start.run.(plan := b.view.db.run.plan);
    }
  }

  /** A conversation of a thousand messages takes no run. */
  lemma FullConversation(start: Db, w: World, cfg: Config)
    requires |start.messages| >= 1000
    ensures RunResult(w, cfg, start).Left? && TurnedAway(start, RunResult(w, cfg, start).view)
  {
    TurnedAwayWhenFull(start);
  }
}
