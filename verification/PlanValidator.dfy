/** The planner's JSON becomes a plan only when it meets every rule of the plan contract. */
module PlanValidator {
  import opened Basics

  datatype PlanStep = PlanStep(
    id: int, stage: int, description: string, tool: string,
    args: map<string, Json>, criterion: string, dependsOn: seq<int>)

  datatype Plan = Plan(goal: string, steps: seq<PlanStep>)

  datatype PlanError =
    | InvalidJson | NotAnObject | GoalNotAString | StepsNotAnArray | NoSteps | TooManySteps(count: nat)
    | StepNotAnObject | BadId | DuplicateId(id: int) | BadStage(id: int) | BadTool(id: int)
    | UnknownTool(id: int, tool: string) | BadArgs(id: int) | BadDescription(id: int) | BadCriterion(id: int)
    | BadDependsOn(id: int) | UnknownDependency(id: int, dep: int) | ForwardDependency(id: int, dep: int)

  datatype PlanVerdict = Accepted(plan: Plan) | Rejected(error: PlanError)

  const SYNTHESIZE := "synthesize"

  // ----- the rules -------------------------------------------------------------------------

  predicate PositiveInt(v: Json) {
    v.JInt? && v.n > 0
  }

  predicate KnownTool(v: Json, tools: set<string>) {
    v.JStr? && v.s != "" && (v.s == SYNTHESIZE || v.s in tools)
  }

  predicate IntList(v: Json) {
    v.JArr? && forall i :: 0 <= i < |v.items| ==> v.items[i].JInt?
  }

  /** The field rules of one step. */
  predicate StepOk(raw: Json, tools: set<string>) {
    && raw.JObj?
    && PositiveInt(Field(raw.fields, "id"))
    && PositiveInt(Field(raw.fields, "stage"))
    && KnownTool(Field(raw.fields, "tool"), tools)
    && (Field(raw.fields, "args").JNull? || Field(raw.fields, "args").JObj?)
    && FieldOr(raw.fields, "description", JStr("")).JStr?
    && FieldOr(raw.fields, "success_criterion", JStr("")).JStr?
    && (Field(raw.fields, "depends_on").JNull? || IntList(Field(raw.fields, "depends_on")))
  }

  function Ints(items: seq<Json>): seq<int>
    requires forall i :: 0 <= i < |items| ==> items[i].JInt?
  {
    seq(|items|, i requires 0 <= i < |items| => items[i].n)
  }

  function StepOf(raw: Json, tools: set<string>): PlanStep
    requires StepOk(raw, tools)
  {
    var f := raw.fields;
    PlanStep(
      Field(f, "id").n, Field(f, "stage").n, FieldOr(f, "description", JStr("")).s, Field(f, "tool").s,
      if Field(f, "args").JObj? then Field(f, "args").fields else map[],
      FieldOr(f, "success_criterion", JStr("")).s,
      if Field(f, "depends_on").JArr? then Ints(Field(f, "depends_on").items) else [])
  }

  function StepsOf(raws: seq<Json>, tools: set<string>): seq<PlanStep>
    requires forall i :: 0 <= i < |raws| ==> StepOk(raws[i], tools)
  {
    seq(|raws|, i requires 0 <= i < |raws| => StepOf(raws[i], tools))
  }

  predicate DistinctIds(steps: seq<PlanStep>) {
    forall i, j :: 0 <= i < j < |steps| ==> steps[i].id != steps[j].id
  }

  /** Some step has this id and a strictly lower stage. */
  predicate LowerStep(steps: seq<PlanStep>, dep: int, stage: int) {
    exists j :: 0 <= j < |steps| && steps[j].id == dep && steps[j].stage < stage
  }

  predicate DependenciesOk(steps: seq<PlanStep>) {
    forall i, d :: 0 <= i < |steps| && 0 <= d < |steps[i].dependsOn| ==>
      LowerStep(steps, steps[i].dependsOn[d], steps[i].stage)
  }

  /** The shape of the document: an object with a goal and 1..maxSteps steps. */
  predicate DocumentOk(data: Json, maxSteps: int) {
    && data.JObj?
    && Field(data.fields, "goal").JStr?
    && Field(data.fields, "steps").JArr?
    && 1 <= |Field(data.fields, "steps").items| <= maxSteps
  }

  /** The declarative rules for a planner document. */
  predicate Acceptable(data: Json, maxSteps: int, tools: set<string>) {
    && DocumentOk(data, maxSteps)
    && var raws := Field(data.fields, "steps").items;
    && (forall i :: 0 <= i < |raws| ==> StepOk(raws[i], tools))
    && DistinctIds(StepsOf(raws, tools))
    && DependenciesOk(StepsOf(raws, tools))
  }

  function PlanOf(data: Json, maxSteps: int, tools: set<string>): Plan
    requires Acceptable(data, maxSteps, tools)
  {
    Plan(Field(data.fields, "goal").s, StepsOf(Field(data.fields, "steps").items, tools))
  }

  /** The outcome of validating a decoded planner reply, `None` standing for text that is not JSON. */
  function Validated(data: Option<Json>, maxSteps: int, tools: set<string>): Option<Plan> {
    if data.Some? && Acceptable(data.value, maxSteps, tools) then Some(PlanOf(data.value, maxSteps, tools)) else None
  }

  // ----- what an accepted plan promises ----------------------------------------------------

  predicate ValidPlan(plan: Plan, maxSteps: int, tools: set<string>) {
    && 1 <= |plan.steps| <= maxSteps
    && (forall i :: 0 <= i < |plan.steps| ==>
          && plan.steps[i].id > 0 && plan.steps[i].stage > 0
          && plan.steps[i].tool != "" && (plan.steps[i].tool == SYNTHESIZE || plan.steps[i].tool in tools))
    && DistinctIds(plan.steps)
    && DependenciesOk(plan.steps)
  }

  lemma AcceptedPlansAreValid(data: Json, maxSteps: int, tools: set<string>)
    requires Acceptable(data, maxSteps, tools)
    ensures ValidPlan(PlanOf(data, maxSteps, tools), maxSteps, tools)
  {
    var raws := Field(data.fields, "steps").items;
    assert forall i :: 0 <= i < |raws| ==> StepsOf(raws, tools)[i] == StepOf(raws[i], tools);
  }

  // ----- payloads --------------------------------------------------------------------------

  function JInts(ids: seq<int>): Json {
    JArr(seq(|ids|, i requires 0 <= i < |ids| => JInt(ids[i])))
  }

  function StepPayload(s: PlanStep): Json {
    JObj(map[
      "id" := JInt(s.id), "stage" := JInt(s.stage), "description" := JStr(s.description), "tool" := JStr(s.tool),
      "args" := JObj(s.args), "success_criterion" := JStr(s.criterion), "depends_on" := JInts(s.dependsOn)])
  }

  function PlanPayload(p: Plan): Json {
    JObj(map["goal" := JStr(p.goal), "steps" := JArr(seq(|p.steps|, i requires 0 <= i < |p.steps| => StepPayload(p.steps[i])))])
  }

  lemma StepPayloadReads(s: PlanStep, tools: set<string>)
    requires s.id > 0 && s.stage > 0 && s.tool != "" && (s.tool == SYNTHESIZE || s.tool in tools)
    ensures StepOk(StepPayload(s), tools) && StepOf(StepPayload(s), tools) == s
  {
    var f := StepPayload(s).fields;
    assert Field(f, "id") == JInt(s.id) && Field(f, "stage") == JInt(s.stage) && Field(f, "tool") == JStr(s.tool);
    assert Field(f, "args") == JObj(s.args) && Field(f, "depends_on") == JInts(s.dependsOn);
    assert FieldOr(f, "description", JStr("")) == JStr(s.description);
    assert FieldOr(f, "success_criterion", JStr("")) == JStr(s.criterion);
    assert Ints(JInts(s.dependsOn).items) == s.dependsOn;
  }

  /** Every valid plan is accepted again from its own payload, and comes back unchanged. */
  lemma PayloadRoundTrip(p: Plan, maxSteps: int, tools: set<string>)
    requires ValidPlan(p, maxSteps, tools)
    ensures Validated(Some(PlanPayload(p)), maxSteps, tools) == Some(p)
  {
    var data := PlanPayload(p);
    assert Field(data.fields, "goal") == JStr(p.goal);
    var raws := Field(data.fields, "steps").items;
    assert |raws| == |p.steps|;
    forall i | 0 <= i < |raws| ensures StepOk(raws[i], tools) && StepOf(raws[i], tools) == p.steps[i] {
      StepPayloadReads(p.steps[i], tools);
    }
    assert StepsOf(raws, tools) == p.steps;
  }

  // ----- acyclicity ------------------------------------------------------------------------

  predicate DependsOn(steps: seq<PlanStep>, i: nat, j: nat) {
    i < |steps| && j < |steps| && steps[j].id in steps[i].dependsOn
  }

  predicate DependencyPath(steps: seq<PlanStep>, path: seq<nat>) {
    forall k :: 0 <= k < |path| - 1 ==> DependsOn(steps, path[k], path[k + 1])
  }

  lemma DependencyLowersStage(steps: seq<PlanStep>, i: nat, j: nat)
    requires DistinctIds(steps) && DependenciesOk(steps) && DependsOn(steps, i, j)
    ensures steps[j].stage < steps[i].stage
  {
    var d :| 0 <= d < |steps[i].dependsOn| && steps[i].dependsOn[d] == steps[j].id;
    assert LowerStep(steps, steps[i].dependsOn[d], steps[i].stage);
    var k :| 0 <= k < |steps| && steps[k].id == steps[i].dependsOn[d] && steps[k].stage < steps[i].stage;
    assert k == j;
  }

  lemma {:induction false} PathLowersStage(steps: seq<PlanStep>, path: seq<nat>)
    requires DistinctIds(steps) && DependenciesOk(steps) && |path| >= 2 && DependencyPath(steps, path)
    ensures path[0] < |steps| && path[|path| - 1] < |steps|
    ensures steps[path[|path| - 1]].stage < steps[path[0]].stage
  {
    assert DependsOn(steps, path[0], path[1]);
    DependencyLowersStage(steps, path[0], path[1]);
    if |path| > 2 {
      var rest := path[1..];
      forall k | 0 <= k < |rest| - 1 ensures DependsOn(steps, rest[k], rest[k + 1]) {
        assert DependsOn(steps, path[k + 1], path[k + 2]);
      }
      PathLowersStage(steps, rest);
    }
  }

  /** The dependency graph of an accepted plan has no cycle, of any length. */
  lemma AcceptedPlansAreAcyclic(data: Json, maxSteps: int, tools: set<string>, path: seq<nat>)
    requires Acceptable(data, maxSteps, tools)
    requires |path| >= 2 && DependencyPath(PlanOf(data, maxSteps, tools).steps, path)
    ensures path[0] != path[|path| - 1]
  {
    PathLowersStage(PlanOf(data, maxSteps, tools).steps, path);
  }

  // ----- the code --------------------------------------------------------------------------

  predicate HasId(raw: Json, id: int) {
    raw.JObj? && Field(raw.fields, "id") == JInt(id) && id > 0
  }

  /** The step has a fresh id and passes the first `k` of the remaining checks, in the order the code makes them. */
  predicate PassesChecks(raw: Json, tools: set<string>, seen: set<int>, id: int, k: nat) {
    && HasId(raw, id) && id !in seen
    && (k >= 1 ==> PositiveInt(Field(raw.fields, "stage")))
    && (k >= 2 ==> Field(raw.fields, "tool").JStr? && Field(raw.fields, "tool").s != "")
    && (k >= 3 ==> KnownTool(Field(raw.fields, "tool"), tools))
    && (k >= 4 ==> Field(raw.fields, "args").JNull? || Field(raw.fields, "args").JObj?)
    && (k >= 5 ==> FieldOr(raw.fields, "description", JStr("")).JStr?)
    && (k >= 6 ==> FieldOr(raw.fields, "success_criterion", JStr("")).JStr?)
    && (k >= 7 ==> Field(raw.fields, "depends_on").JNull? || IntList(Field(raw.fields, "depends_on")))
  }

  /** The error names the first rule this step breaks, after steps with the ids `seen`. */
  predicate StepBroken(e: PlanError, raw: Json, tools: set<string>, seen: set<int>) {
    match e
    case StepNotAnObject => !raw.JObj?
    case BadId => raw.JObj? && !PositiveInt(Field(raw.fields, "id"))
    case DuplicateId(id) => HasId(raw, id) && id in seen
    case BadStage(id) => PassesChecks(raw, tools, seen, id, 0) && !PassesChecks(raw, tools, seen, id, 1)
    case BadTool(id) => PassesChecks(raw, tools, seen, id, 1) && !PassesChecks(raw, tools, seen, id, 2)
    case UnknownTool(id, tool) =>
      PassesChecks(raw, tools, seen, id, 2) && !PassesChecks(raw, tools, seen, id, 3) && Field(raw.fields, "tool") == JStr(tool)
    case BadArgs(id) => PassesChecks(raw, tools, seen, id, 3) && !PassesChecks(raw, tools, seen, id, 4)
    case BadDescription(id) => PassesChecks(raw, tools, seen, id, 4) && !PassesChecks(raw, tools, seen, id, 5)
    case BadCriterion(id) => PassesChecks(raw, tools, seen, id, 5) && !PassesChecks(raw, tools, seen, id, 6)
    case BadDependsOn(id) => PassesChecks(raw, tools, seen, id, 6) && !PassesChecks(raw, tools, seen, id, 7)
    case _ => false
  }

  function SeenIds(steps: seq<PlanStep>): set<int> {
    set s | s in steps :: s.id
  }

  /** The steps before the `i`-th are fine, and it is the one the error speaks about. */
  predicate FirstBrokenStep(e: PlanError, raws: seq<Json>, tools: set<string>, i: nat) {
    && i < |raws|
    && (forall j :: 0 <= j < i ==> StepOk(raws[j], tools))
    && DistinctIds(StepsOf(raws[..i], tools))
    && StepBroken(e, raws[i], tools, SeenIds(StepsOf(raws[..i], tools)))
  }

  predicate Known(steps: seq<PlanStep>, id: int) {
    exists j :: 0 <= j < |steps| && steps[j].id == id
  }

  /** Every dependency before the `d`-th one of step `i` is fine, and that one is unknown, or not at a lower stage. */
  predicate FirstBadDependency(e: PlanError, steps: seq<PlanStep>, i: nat, d: nat) {
    && i < |steps| && d < |steps[i].dependsOn|
    && (forall k, x :: 0 <= k < i && 0 <= x < |steps[k].dependsOn| ==> LowerStep(steps, steps[k].dependsOn[x], steps[k].stage))
    && (forall x :: 0 <= x < d ==> LowerStep(steps, steps[i].dependsOn[x], steps[i].stage))
    && !LowerStep(steps, steps[i].dependsOn[d], steps[i].stage)
    && e == if Known(steps, steps[i].dependsOn[d]) then ForwardDependency(steps[i].id, steps[i].dependsOn[d])
            else UnknownDependency(steps[i].id, steps[i].dependsOn[d])
  }

  /** The error names the first rule the document breaks. */
  ghost predicate Justified(e: PlanError, data: Option<Json>, maxSteps: int, tools: set<string>) {
    match data
    case None => e == InvalidJson
    case Some(doc) =>
      if !doc.JObj? then e == NotAnObject
      else if !Field(doc.fields, "goal").JStr? then e == GoalNotAString
      else if !Field(doc.fields, "steps").JArr? then e == StepsNotAnArray
      else
        var raws := Field(doc.fields, "steps").items;
        if raws == [] then e == NoSteps
        else if |raws| > maxSteps then e == TooManySteps(|raws|)
        else
          || (exists i: nat :: FirstBrokenStep(e, raws, tools, i))
          || ((forall i :: 0 <= i < |raws| ==> StepOk(raws[i], tools)) && DistinctIds(StepsOf(raws, tools))
              && exists i: nat, d: nat :: FirstBadDependency(e, StepsOf(raws, tools), i, d))
  }

  /** The checks on one step, in the order the code makes them. */
  method CheckStep(raw: Json, tools: set<string>, seenIds: set<int>) returns (error: Option<PlanError>)
    ensures error.None? <==> StepOk(raw, tools) && StepOf(raw, tools).id !in seenIds
    ensures error.Some? ==> StepBroken(error.value, raw, tools, seenIds)
  {
    if !raw.JObj? { return Some(StepNotAnObject); }
    var sid := Field(raw.fields, "id");
    if !sid.JInt? || sid.n <= 0 { return Some(BadId); }
    if sid.n in seenIds { return Some(DuplicateId(sid.n)); }
    var stage := Field(raw.fields, "stage");
    if !stage.JInt? || stage.n <= 0 { return Some(BadStage(sid.n)); }
    var tool := Field(raw.fields, "tool");
    if !tool.JStr? || tool.s == "" { return Some(BadTool(sid.n)); }
    if tool.s != SYNTHESIZE && tool.s !in tools { return Some(UnknownTool(sid.n, tool.s)); }
    var args := FieldOr(raw.fields, "args", JObj(map[]));
    if args.JNull? { args := JObj(map[]); }
    if !args.JObj? { return Some(BadArgs(sid.n)); }
    if !FieldOr(raw.fields, "description", JStr("")).JStr? { return Some(BadDescription(sid.n)); }
    if !FieldOr(raw.fields, "success_criterion", JStr("")).JStr? { return Some(BadCriterion(sid.n)); }
    var deps := FieldOr(raw.fields, "depends_on", JArr([]));
    if deps.JNull? { deps := JArr([]); }
    if !IntList(deps) { return Some(BadDependsOn(sid.n)); }
    return None;
  }

  /** The pass over `depends_on`: looks every dependency up by id. */
  method CheckDependencies(steps: seq<PlanStep>) returns (error: Option<PlanError>)
    requires DistinctIds(steps)
    ensures error.None? <==> DependenciesOk(steps)
    ensures error.Some? ==> exists i: nat, d: nat :: FirstBadDependency(error.value, steps, i, d)
  {
    var byId: map<int, PlanStep> := map[];
    for i := 0 to |steps|
      invariant forall k :: k in byId <==> exists j :: 0 <= j < i && steps[j].id == k
      invariant forall j :: 0 <= j < i ==> steps[j].id in byId && byId[steps[j].id] == steps[j]
    {
      byId := byId[steps[i].id := steps[i]];
    }
    for i := 0 to |steps|
      invariant forall k, d :: 0 <= k < i && 0 <= d < |steps[k].dependsOn| ==>
                  LowerStep(steps, steps[k].dependsOn[d], steps[k].stage)
    {
      var step := steps[i];
      for d := 0 to |step.dependsOn|
        invariant forall e :: 0 <= e < d ==> LowerStep(steps, step.dependsOn[e], step.stage)
      {
        var dep := step.dependsOn[d];
        if dep !in byId {
          assert FirstBadDependency(UnknownDependency(step.id, dep), steps, i, d);
          return Some(UnknownDependency(step.id, dep));
        }
        var j :| 0 <= j < |steps| && steps[j].id == dep;
        assert byId[dep] == steps[j];
        if byId[dep].stage >= step.stage {
          assert FirstBadDependency(ForwardDependency(step.id, dep), steps, i, d);
          return Some(ForwardDependency(step.id, dep));
        }
      }
    }
    return None;
  }

  /** The loop over the raw steps. */
  method ParseSteps(raws: seq<Json>, tools: set<string>) returns (steps: seq<PlanStep>, error: Option<PlanError>)
    ensures error.None? <==> (forall i :: 0 <= i < |raws| ==> StepOk(raws[i], tools)) && DistinctIds(StepsOf(raws, tools))
    ensures error.None? ==> steps == StepsOf(raws, tools)
    ensures error.Some? ==> exists i: nat :: FirstBrokenStep(error.value, raws, tools, i)
  {
    steps := [];
    var seenIds: set<int> := {};
    for i := 0 to |raws|
      invariant forall j :: 0 <= j < i ==> StepOk(raws[j], tools)
      invariant steps == StepsOf(raws[..i], tools) && seenIds == SeenIds(steps) && DistinctIds(steps)
    {
      error := CheckStep(raws[i], tools, seenIds);
      if error.Some? {
        assert FirstBrokenStep(error.value, raws, tools, i);
        if StepOk(raws[i], tools) {
          ClashMeansDuplicate(raws, tools, i);
        }
        return;
      }
      var step := StepOf(raws[i], tools);
      OneMoreStep(raws, tools, i);
      steps := steps + [step];
      seenIds := seenIds + {step.id};
    }
    assert raws[..|raws|] == raws;
    error := None;
  }

  lemma OneMoreStep(raws: seq<Json>, tools: set<string>, i: nat)
    requires i < |raws| && forall j :: 0 <= j <= i ==> StepOk(raws[j], tools)
    requires DistinctIds(StepsOf(raws[..i], tools)) && StepOf(raws[i], tools).id !in SeenIds(StepsOf(raws[..i], tools))
    ensures StepsOf(raws[..i + 1], tools) == StepsOf(raws[..i], tools) + [StepOf(raws[i], tools)]
    ensures DistinctIds(StepsOf(raws[..i + 1], tools))
    ensures SeenIds(StepsOf(raws[..i + 1], tools)) == SeenIds(StepsOf(raws[..i], tools)) + {StepOf(raws[i], tools).id}
  {
    var before, after := StepsOf(raws[..i], tools), StepsOf(raws[..i + 1], tools);
    assert after == before + [StepOf(raws[i], tools)];
    assert forall j :: 0 <= j < i ==> before[j] in before && before[j].id in SeenIds(before);
    assert forall s :: s in after <==> s in before || s == StepOf(raws[i], tools);
  }

  lemma ClashMeansDuplicate(raws: seq<Json>, tools: set<string>, i: nat)
    requires i < |raws| && (forall j :: 0 <= j <= i ==> StepOk(raws[j], tools))
    requires StepOf(raws[i], tools).id in SeenIds(StepsOf(raws[..i], tools))
    ensures (forall j :: 0 <= j < |raws| ==> StepOk(raws[j], tools)) ==> !DistinctIds(StepsOf(raws, tools))
  {
    if forall j :: 0 <= j < |raws| ==> StepOk(raws[j], tools) {
      var s :| s in StepsOf(raws[..i], tools) && s.id == StepOf(raws[i], tools).id;
      var j :| 0 <= j < i && StepsOf(raws[..i], tools)[j] == s;
      assert StepsOf(raws, tools)[j].id == StepsOf(raws, tools)[i].id;
    }
  }

  /** `parse_and_validate_plan`, from the decoded document on: accepts exactly the acceptable documents, and otherwise
      reports the first rule broken. */
  method ParseAndValidatePlan(data: Option<Json>, maxSteps: int, tools: set<string>) returns (verdict: PlanVerdict)
    ensures verdict.Accepted? <==> Validated(data, maxSteps, tools).Some?
    ensures verdict.Accepted? ==> Validated(data, maxSteps, tools) == Some(verdict.plan)
    ensures verdict.Rejected? ==> Justified(verdict.error, data, maxSteps, tools)
  {
    if data.None? { return Rejected(InvalidJson); }
    var doc := data.value;
    if !doc.JObj? { return Rejected(NotAnObject); }
    var goal := Field(doc.fields, "goal");
    if !goal.JStr? { return Rejected(GoalNotAString); }
    var rawSteps := Field(doc.fields, "steps");
    if !rawSteps.JArr? { return Rejected(StepsNotAnArray); }
    if |rawSteps.items| < 1 { return Rejected(NoSteps); }
    if |rawSteps.items| > maxSteps { return Rejected(TooManySteps(|rawSteps.items|)); }

    var steps, error := ParseSteps(rawSteps.items, tools);
    if error.Some? { return Rejected(error.value); }
    error := CheckDependencies(steps);
    if error.Some? { return Rejected(error.value); }
    return Accepted(Plan(goal.s, steps));
  }
}
