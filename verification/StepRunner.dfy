/** One plan step as a coroutine, and a stage of coroutines under any interleaving. */
module StepRunner {
  import opened Basics
  import opened Trace
  import opened Tools
  import opened PlanValidator
  import opened Substitution
  import opened SessionModule

  /** Everything outside the program a Plan & Execute run consults, as arbitrary total functions.
      Keys: planner replies by pass and attempt, step replies and tool attempts by pass and step id,
      the cancel flag by pass and stage (stage 0 is the check at the head of a pass). */
  datatype World = World(
    loads: string -> Option<Json>,
    dumps: Json -> string,
    show: Json -> string,
    repr: Json -> string,
    planner: (nat, nat) -> ChatOutcome,
    target: string -> Target,
    attempt: (nat, int, nat) -> Attempt,
    step: (nat, int) -> ChatOutcome,
    synthesis: ChatOutcome,
    cancelled: (nat, int) -> bool)

  datatype StepOutcome = StepOutcome(
    step: PlanStep, status: StepStatus, output: string, reason: string,
    usage: Usage, cost: Option<real>, args: map<string, Json>, result: Option<ToolPayload>)

  /** `_run_step` returns an outcome, or an exception escapes it. */
  datatype StepEnd = Returned(outcome: StepOutcome) | Escaped

  datatype Envelope = Parsed(status: StepStatus, output: string, reason: string) | Unhashable

  function StatusNamed(s: string): Option<StepStatus> {
    if s == "success" then Some(Success)
    else if s == "failure" then Some(Failure)
    else if s == "replan_requested" then Some(ReplanRequested)
    else None
  }

  /** `_parse_step_response`. A list or object as status cannot be looked up in a set: the lookup raises. */
  function ParseStepResponse(w: World, content: string): Envelope {
    var trimmed := Strip(content);
    var data := if trimmed != "" then w.loads(trimmed) else Some(JObj(map[]));
    if data.None? then Parsed(Failure, "", "executor_response_invalid_json")
    else if !data.value.JObj? then Parsed(Failure, "", "executor_response_not_object")
    else
      var fields := data.value.fields;
      var raw := Field(fields, "status");
      var output := FieldOr(fields, "output", JStr(""));
      if raw.JArr? || raw.JObj? then Unhashable
      else if !raw.JStr? || StatusNamed(raw.s).None? then
        Parsed(Failure, if !Truthy(output) then "" else if output.JStr? then output.s else w.show(output),
               "executor_response_invalid_status:" + w.repr(raw))
      else
        var reason := FieldOr(fields, "reason", JStr(""));
        Parsed(StatusNamed(raw.s).value, if output.JStr? then output.s else w.dumps(output),
               if reason.JStr? then reason.s else "")
  }

  function AttemptsOf(w: World, pass: nat, step: PlanStep): nat -> Attempt {
    (n: nat) => w.attempt(pass, step.id, n)
  }

  /** The tool result a step's evaluation sees; `synthesize` steps call no tool. */
  function ToolResultOf(w: World, pass: nat, step: PlanStep): Option<ToolPayload> {
    if step.tool == SYNTHESIZE then None
    else Some(InvokeResult(step.tool, w.target(step.tool), AttemptsOf(w, pass, step)))
  }

  function Evaluate(w: World, pass: nat, step: PlanStep, args: map<string, Json>, result: Option<ToolPayload>): StepEnd {
    match w.step(pass, step.id)
    case ProviderError => Returned(StepOutcome(step, Failure, "", "llm_provider_error", NO_USAGE, None, args, result))
    case Reply(r) =>
      match ParseStepResponse(w, r.content)
      case Unhashable => Escaped
      case Parsed(status, output, reason) =>
        Returned(StepOutcome(step, status, output, reason, r.usage, r.cost, args, result))
  }

  /** `_run_step` run on its own from start to end. */
  function StepRun(w: World, pass: nat, step: PlanStep, outputs: map<int, string>): StepEnd {
    Evaluate(w, pass, step, SubstituteArgs(step.args, outputs), ToolResultOf(w, pass, step))
  }

  // ----- coroutines ------------------------------------------------------------------------

  /** Where a step coroutine is suspended. */
  datatype Coroutine =
    | Fresh
    | Calling(args: map<string, Json>, tried: nat, lastError: string)
    | Asking(args: map<string, Json>, result: Option<ToolPayload>)
    | Ended(end: StepEnd)

  /** Runs a coroutine to its next suspension. */
  function Advance(w: World, pass: nat, step: PlanStep, outputs: map<int, string>, c: Coroutine): Coroutine {
    match c
    case Fresh =>
      var args := SubstituteArgs(step.args, outputs);
      if step.tool == SYNTHESIZE then Asking(args, None)
      else
        (match w.target(step.tool)
         case UnknownTarget => Asking(args, Some(ToolPayload(true, "unknown tool: " + step.tool)))
         case BadTransport(t) => Asking(args, Some(ToolPayload(true, "unknown transport: " + t)))
         case Live => Calling(args, 0, ""))
    case Calling(args, tried, _) =>
      var a := w.attempt(pass, step.id, tried);
      if Succeeds(a) then Asking(args, Some(a.payload))
      else if tried + 1 < ATTEMPTS then Calling(args, tried + 1, ErrorText(a))
      else Asking(args, Some(ToolPayload(true, if ErrorText(a) != "" then ErrorText(a) else "tool_failed")))
    case Asking(args, result) => Ended(Evaluate(w, pass, step, args, result))
    case Ended(_) => c
  }

  /** Suspension points still ahead of a coroutine, at most. */
  function Remaining(c: Coroutine): nat {
    match c
    case Fresh => 5
    case Calling(_, tried, _) => if tried < ATTEMPTS then 4 - tried else 1
    case Asking(_, _) => 1
    case Ended(_) => 0
  }

  /** The states a coroutine can be suspended in. */
  ghost predicate OnTrack(w: World, pass: nat, step: PlanStep, outputs: map<int, string>, c: Coroutine) {
    match c
    case Fresh => true
    case Calling(args, tried, _) =>
      && args == SubstituteArgs(step.args, outputs) && tried < ATTEMPTS
      && step.tool != SYNTHESIZE && w.target(step.tool).Live?
      && FirstSuccess(AttemptsOf(w, pass, step), tried).None?
    case Asking(args, result) =>
      args == SubstituteArgs(step.args, outputs) && result == ToolResultOf(w, pass, step)
    case Ended(end) => end == StepRun(w, pass, step, outputs)
  }

  lemma AdvanceStaysOnTrack(w: World, pass: nat, step: PlanStep, outputs: map<int, string>, c: Coroutine)
    requires OnTrack(w, pass, step, outputs, c)
    ensures OnTrack(w, pass, step, outputs, Advance(w, pass, step, outputs, c))
    ensures !c.Ended? ==> Remaining(Advance(w, pass, step, outputs, c)) < Remaining(c)
    ensures Advance(w, pass, step, outputs, c).Ended? <==> c.Asking? || c.Ended?
  {
    if c.Calling? {
      var f := AttemptsOf(w, pass, step);
      assert FirstSuccess(f, c.tried + 1).Some? <==> Succeeds(f(c.tried));
      if Succeeds(f(c.tried)) {
        FirstSuccessStays(f, c.tried + 1, ATTEMPTS);
      }
    }
  }

  // ----- a stage ---------------------------------------------------------------------------

  /** `n` provider calls in a row. */
  function AskTimes(v: View, n: nat): View {
    if n == 0 then v else Do(AskTimes(v, n - 1), Ask)
  }

  function EndedCount(cs: seq<Coroutine>): nat {
    if cs == [] then 0 else EndedCount(cs[..|cs| - 1]) + (if cs[|cs| - 1].Ended? then 1 else 0)
  }

  lemma {:induction false} EndedCountUpdate(cs: seq<Coroutine>, i: nat, c: Coroutine)
    requires i < |cs| && !cs[i].Ended?
    ensures EndedCount(cs[i := c]) == EndedCount(cs) + if c.Ended? then 1 else 0
  {
    var n := |cs| - 1;
    if i < n {
      EndedCountUpdate(cs[..n], i, c);
      assert cs[i := c][..n] == cs[..n][i := c];
    } else {
      assert cs[i := c][..n] == cs[..n];
    }
  }

  lemma {:induction false} EndedCountBounds(cs: seq<Coroutine>)
    ensures (forall i :: 0 <= i < |cs| ==> cs[i].Ended?) ==> EndedCount(cs) == |cs|
    ensures (forall i :: 0 <= i < |cs| ==> !cs[i].Ended?) ==> EndedCount(cs) == 0
  {
    if cs != [] {
      EndedCountBounds(cs[..|cs| - 1]);
    }
  }

  ghost predicate AllOnTrack(w: World, pass: nat, steps: seq<PlanStep>, outputs: map<int, string>, cs: seq<Coroutine>) {
    |cs| == |steps| && forall i :: 0 <= i < |steps| ==> OnTrack(w, pass, steps[i], outputs, cs[i])
  }

  /** One coroutine resumed: all stay on track, and an `Asking` one ends. */
  lemma TickKeeps(w: World, pass: nat, steps: seq<PlanStep>, outputs: map<int, string>, cs: seq<Coroutine>, i: nat)
    requires AllOnTrack(w, pass, steps, outputs, cs) && i < |cs| && !cs[i].Ended?
    ensures var c := Advance(w, pass, steps[i], outputs, cs[i]);
            && AllOnTrack(w, pass, steps, outputs, cs[i := c])
            && EndedCount(cs[i := c]) == EndedCount(cs) + (if cs[i].Asking? then 1 else 0)
            && Remaining(c) < Remaining(cs[i])
  {
    AdvanceStaysOnTrack(w, pass, steps[i], outputs, cs[i]);
    EndedCountUpdate(cs, i, Advance(w, pass, steps[i], outputs, cs[i]));
  }

  /** Between ticks: every coroutine is on track, and each one that ended made its one chat. */
  ghost predicate StageInv(session: Session, v0: View, w: World, pass: nat, steps: seq<PlanStep>,
                           outputs: map<int, string>, cs: array<Coroutine>)
    reads session, cs
  {
    && session.Valid()
    && AllOnTrack(w, pass, steps, outputs, cs[..])
    && session.Now() == AskTimes(v0, EndedCount(cs[..]))
  }

  /** One scheduling decision: coroutine `i` runs to its next suspension. */
  method Tick(session: Session, ghost v0: View, w: World, pass: nat, steps: seq<PlanStep>, outputs: map<int, string>,
              cs: array<Coroutine>, i: nat)
    requires StageInv(session, v0, w, pass, steps, outputs, cs)
    requires i < |steps| && !cs[i].Ended?
    modifies session, cs
    ensures StageInv(session, v0, w, pass, steps, outputs, cs)
    ensures Remaining(cs[i]) < Remaining(old(cs[i]))
    ensures forall j :: 0 <= j < cs.Length && j != i ==> cs[j] == old(cs[j])
  {
    var c := Advance(w, pass, steps[i], outputs, cs[i]);
    TickKeeps(w, pass, steps, outputs, cs[..], i);
    if cs[i].Asking? {
      session.Chat();
    }
    cs[i] := c;
    assert cs[..] == old(cs[..])[i := c];
  }

  method RunSchedule(session: Session, ghost v0: View, w: World, pass: nat, steps: seq<PlanStep>,
                     outputs: map<int, string>, cs: array<Coroutine>, schedule: seq<nat>)
    requires StageInv(session, v0, w, pass, steps, outputs, cs)
    modifies session, cs
    ensures StageInv(session, v0, w, pass, steps, outputs, cs)
  {
    for k := 0 to |schedule|
      invariant StageInv(session, v0, w, pass, steps, outputs, cs)
    {
      var i := schedule[k];
      if i < |steps| && !cs[i].Ended? {
        Tick(session, v0, w, pass, steps, outputs, cs, i);
      }
    }
  }

  method FinishOne(session: Session, ghost v0: View, w: World, pass: nat, steps: seq<PlanStep>,
                   outputs: map<int, string>, cs: array<Coroutine>, i: nat)
    requires StageInv(session, v0, w, pass, steps, outputs, cs) && i < |steps|
    modifies session, cs
    ensures StageInv(session, v0, w, pass, steps, outputs, cs) && cs[i].Ended?
    ensures forall j :: 0 <= j < cs.Length && j != i ==> cs[j] == old(cs[j])
    decreases Remaining(cs[i])
  {
    if !cs[i].Ended? {
      Tick(session, v0, w, pass, steps, outputs, cs, i);
      FinishOne(session, v0, w, pass, steps, outputs, cs, i);
    }
  }

  method Drain(session: Session, ghost v0: View, w: World, pass: nat, steps: seq<PlanStep>,
               outputs: map<int, string>, cs: array<Coroutine>)
    requires StageInv(session, v0, w, pass, steps, outputs, cs)
    modifies session, cs
    ensures StageInv(session, v0, w, pass, steps, outputs, cs)
    ensures forall i :: 0 <= i < |steps| ==> cs[i].Ended?
  {
    for i := 0 to |steps|
      invariant StageInv(session, v0, w, pass, steps, outputs, cs)
      invariant forall j :: 0 <= j < i ==> cs[j].Ended?
    {
      FinishOne(session, v0, w, pass, steps, outputs, cs, i);
    }
  }

  lemma EndedAlone(w: World, pass: nat, steps: seq<PlanStep>, outputs: map<int, string>, cs: seq<Coroutine>)
    requires AllOnTrack(w, pass, steps, outputs, cs) && forall i :: 0 <= i < |cs| ==> cs[i].Ended?
    ensures forall i :: 0 <= i < |cs| ==> cs[i] == Ended(StepRun(w, pass, steps[i], outputs))
  {
  }

  method Ends(cs: array<Coroutine>) returns (ends: seq<StepEnd>)
    requires forall i :: 0 <= i < cs.Length ==> cs[i].Ended?
    ensures |ends| == cs.Length && forall i :: 0 <= i < cs.Length ==> cs[..][i] == Ended(ends[i])
  {
    ends := [];
    for i := 0 to cs.Length
      invariant |ends| == i && forall j :: 0 <= j < i ==> cs[j] == Ended(ends[j])
    {
      ends := ends + [cs[i].end];
    }
  }

  method Collect(session: Session, ghost v0: View, w: World, pass: nat, steps: seq<PlanStep>,
                 outputs: map<int, string>, cs: array<Coroutine>)
    returns (ends: seq<StepEnd>)
    requires StageInv(session, v0, w, pass, steps, outputs, cs)
    requires forall i :: 0 <= i < |steps| ==> cs[i].Ended?
    ensures session.Now() == AskTimes(v0, |steps|)
    ensures |ends| == |steps| && forall i :: 0 <= i < |steps| ==> ends[i] == StepRun(w, pass, steps[i], outputs)
  {
    EndedCountBounds(cs[..]);
    EndedAlone(w, pass, steps, outputs, cs[..]);
    ends := Ends(cs);
  }

  /** `asyncio.gather` over a stage. The event loop may interleave the coroutines in any way: `schedule` is an
      arbitrary list of picks, followed by whatever is still unfinished. The results, and the effects on the
      session, do not depend on it: each coroutine ends as if it had run alone, after exactly one chat. */
  method RunInterleaved(session: Session, w: World, pass: nat, steps: seq<PlanStep>, outputs: map<int, string>,
                        schedule: seq<nat>)
    returns (ends: seq<StepEnd>)
    requires session.Valid()
    modifies session
    ensures session.Valid() && session.Now() == AskTimes(old(session.Now()), |steps|)
    ensures |ends| == |steps| && forall i :: 0 <= i < |steps| ==> ends[i] == StepRun(w, pass, steps[i], outputs)
  {
    ghost var v0 := session.Now();
    var cs := new Coroutine[|steps|](_ => Fresh);
    EndedCountBounds(cs[..]);
    RunSchedule(session, v0, w, pass, steps, outputs, cs, schedule);
    Drain(session, v0, w, pass, steps, outputs, cs);
    ends := Collect(session, v0, w, pass, steps, outputs, cs);
  }
}
