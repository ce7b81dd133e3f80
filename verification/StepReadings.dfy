/** What the reply to a step says, spelled out, and what the program must make of it. */
module StepReadings {
  import opened Basics
  import opened Trace
  import opened Tools
  import opened PlanValidator
  import opened Substitution
  import opened StepRunner

  /** The object a reply decodes to, if it does. */
  function Document(w: World, c: ChatOutcome): Option<map<string, Json>> {
    if c.ProviderError? || Strip(c.reply.content) == "" then None
    else
      match w.loads(Strip(c.reply.content))
      case Some(JObj(fields)) => Some(fields)
      case _ => None
  }

  /** The reply is an object in which this field is this text. */
  predicate Says(w: World, c: ChatOutcome, field: string, text: string) {
    var d := Document(w, c);
    d.Some? && field in d.value && d.value[field] == JStr(text)
  }

  /** The reply is an object whose status is a list or an object: looking it up raises. */
  predicate Garbled(w: World, c: ChatOutcome) {
    var d := Document(w, c);
    d.Some? && "status" in d.value && (d.value["status"].JArr? || d.value["status"].JObj?)
  }

  /** Neither a success nor a request for another plan. */
  predicate Fails(w: World, c: ChatOutcome) {
    !Garbled(w, c) && !Says(w, c, "status", "success") && !Says(w, c, "status", "replan_requested")
  }

  /** The status the program must give the step: the one said, and failure for anything else, a provider error and text
      that decodes to no object included. */
  predicate StatusTold(w: World, c: ChatOutcome, status: StepStatus) {
    && (status == Success <==> Says(w, c, "status", "success"))
    && (status == ReplanRequested <==> Says(w, c, "status", "replan_requested"))
    && (status == Failure <==> Fails(w, c))
  }

  /** The output the program must record: the one said, and nothing when there is no object. */
  ghost predicate OutputTold(w: World, c: ChatOutcome, output: string) {
    && (forall said: string :: Says(w, c, "output", said) ==> output == said)
    && (Document(w, c).None? ==> output == "")
  }

  /** What the reply cost. */
  predicate UsageTold(c: ChatOutcome, usage: Usage) {
    usage == if c.Reply? then c.reply.usage else Usage(0, 0)
  }

  /** The result of the step's tool: none for `synthesize`, else what calling it must yield. */
  ghost predicate ToolTold(w: World, pass: nat, step: PlanStep, result: Option<ToolPayload>) {
    && (forall n: nat :: AttemptsOf(w, pass, step)(n) == w.attempt(pass, step.id, n))
    && if step.tool == "synthesize" then result == None
       else result.Some? && Yields(step.tool, w.target(step.tool), AttemptsOf(w, pass, step), result.value)
  }

  ghost predicate OutcomeTold(w: World, pass: nat, step: PlanStep, c: ChatOutcome, o: StepOutcome) {
    && o.step == step
    && StatusTold(w, c, o.status) && OutputTold(w, c, o.output) && UsageTold(c, o.usage)
    && o.cost == (if c.Reply? then c.reply.cost else None)
    && ToolTold(w, pass, step, o.result)
    && (o.status == ReplanRequested ==> forall said: string :: Says(w, c, "reason", said) ==> o.reason == said)
  }

  lemma StatusRead(w: World, c: ChatOutcome)
    requires c.Reply?
    ensures var e := ParseStepResponse(w, c.reply.content);
            && (e.Unhashable? <==> Garbled(w, c))
            && (e.Parsed? ==> StatusTold(w, c, e.status))
  {
    var d := Document(w, c);
    if d.Some? && "status" in d.value && d.value["status"].JStr? {
      assert d.value["status"] == JStr(d.value["status"].s);
    }
  }

  lemma OutputRead(w: World, c: ChatOutcome)
    requires c.Reply?
    ensures var e := ParseStepResponse(w, c.reply.content);
            e.Parsed? ==> OutputTold(w, c, e.output)
                          && (e.status == ReplanRequested ==> forall said: string :: Says(w, c, "reason", said) ==> e.reason == said)
  {
    StatusRead(w, c);
  }

  lemma ToolRead(w: World, pass: nat, step: PlanStep)
    ensures ToolTold(w, pass, step, ToolResultOf(w, pass, step))
  {
    InvokeYields(step.tool, w.target(step.tool), AttemptsOf(w, pass, step));
  }

  /** A step ends as its reply says: an exception exactly when the status cannot be looked up, else the status, the output
      and the reason said, the tokens of the reply and the result of its tool. */
  lemma StepTold(w: World, pass: nat, step: PlanStep, outputs: map<int, string>)
    ensures var c, end := w.step(pass, step.id), StepRun(w, pass, step, outputs);
            && (end.Escaped? <==> Garbled(w, c))
            && (end.Returned? ==> OutcomeTold(w, pass, step, c, end.outcome))
  {
    var c := w.step(pass, step.id);
    ToolRead(w, pass, step);
    if c.Reply? {
      StatusRead(w, c);
      OutputRead(w, c);
    }
  }
}
