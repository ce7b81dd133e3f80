/** What a Simple run does: one execution from a fresh start or from a pause, over an arbitrary world. */
module SimpleSpec {
  import opened Basics
  import opened Trace
  import opened Protocol
  import opened Invariants
  import opened Tools

  const MAX_ITERATIONS: nat := 50

  /** A row of the tool lookup: the MCP descriptor and the transport of its server. */
  datatype Tool = Tool(descriptor: Json, transport: string)

  /** Everything outside the program, for one execution: replies by iteration, the tools it was given, tool
      attempts by batch and call (batch 0 is the saved one of a resume, batch n + 1 that of iteration n), and
      the check of the cancel flag from which it reads set, if any; the flag is never cleared. */
  datatype World = World(
    chat: nat -> ChatOutcome,
    lookup: string -> Option<Tool>,
    attempt: (nat, nat, nat) -> Attempt,
    cancelFrom: Option<nat>)

  /** Reads the flag at the `n`-th check. */
  predicate Flag(w: World, n: nat) {
    w.cancelFrom.Some? && n >= w.cancelFrom.value
  }

  // ----- approval and confirmation ---------------------------------------------------------

  /** `str.lower` on the characters whose lower case is an ASCII letter; the others cannot occur in a token. */
  function LowerChar(c: char): char {
    if 'A' <= c <= 'Z' then (c as int + 32) as char
    else if c == '\U{212A}' then 'k'
    else c
  }

  function Lower(s: string): string {
    if s == "" then "" else [LowerChar(s[0])] + Lower(s[1..])
  }

  /** `_is_approval`. */
  predicate IsApproval(text: string) {
    Lower(Strip(text)) in {"yes", "y", "ok", "oui", "o", "approve", "approved", "confirm"}
  }

  /** `needs_confirmation`: a truthy `destructiveHint` among the annotations of the descriptor. */
  predicate NeedsConfirmation(descriptor: Json) {
    descriptor.JObj? &&
    var annotations := Field(descriptor.fields, "annotations");
    annotations.JObj? && Truthy(Field(annotations.fields, "destructiveHint"))
  }

  /** The call names a known tool that must be confirmed. */
  predicate Destructive(w: World, call: ToolCall) {
    w.lookup(call.name).Some? && NeedsConfirmation(w.lookup(call.name).value.descriptor)
  }

  /** `_first_destructive`. */
  function FirstDestructive(w: World, calls: seq<ToolCall>): Option<ToolCall> {
    if calls == [] then None
    else if Destructive(w, calls[0]) then Some(calls[0])
    else FirstDestructive(w, calls[1..])
  }

  /** None exactly when no call needs a confirmation, and otherwise the first that does. */
  lemma {:induction false} FirstDestructiveFound(w: World, calls: seq<ToolCall>)
    ensures var r := FirstDestructive(w, calls);
            && (r.None? <==> forall i :: 0 <= i < |calls| ==> !Destructive(w, calls[i]))
            && (r.Some? ==> exists i :: 0 <= i < |calls| && r.value == calls[i] && Destructive(w, calls[i])
                                        && forall j :: 0 <= j < i ==> !Destructive(w, calls[j]))
  {
    if calls != [] && !Destructive(w, calls[0]) {
      FirstDestructiveFound(w, calls[1..]);
      var r := FirstDestructive(w, calls[1..]);
      assert calls == [calls[0]] + calls[1..];
      if r.Some? {
        var i :| 0 <= i < |calls| - 1 && r.value == calls[1..][i] && Destructive(w, calls[1..][i])
                 && forall j :: 0 <= j < i ==> !Destructive(w, calls[1..][j]);
        assert calls[i + 1] == r.value;
        forall j | 0 <= j < i + 1 ensures !Destructive(w, calls[j]) {
          assert j > 0 ==> calls[j] == calls[1..][j - 1];
        }
      } else {
        forall i | 0 <= i < |calls| ensures !Destructive(w, calls[i]) {
          assert i > 0 ==> calls[i] == calls[1..][i - 1];
        }
      }
    }
  }

  function TargetOf(w: World, name: string): Target {
    match w.lookup(name)
    case None => UnknownTarget
    case Some(t) => if t.transport == "stdio" || t.transport == "streamable_http" then Live else BadTransport(t.transport)
  }

  function AttemptsOf(w: World, batch: nat, i: nat): nat -> Attempt {
    (n: nat) => w.attempt(batch, i, n)
  }

  /** The payload of the `i`-th call of a batch: what the tool yields, or the denial. */
  function Result(w: World, batch: nat, calls: seq<ToolCall>, i: nat, approved: bool): ToolPayload
    requires i < |calls|
  {
    if approved then InvokeResult(calls[i].name, TargetOf(w, calls[i].name), AttemptsOf(w, batch, i))
    else ToolPayload(true, "user_denied")
  }

  // ----- the loop's variables --------------------------------------------------------------

  /** `checks` counts the reads of the cancel flag. */
  datatype State = State(view: View, tally: Tally, loops: nat, runSeq: nat, checks: nat, iteration: nat)

  /** How an execution ends: settled inline (closed or paused); left to the `finally` block, by a cancel or by
      an exception; or thrown out of before the `try`. */
  datatype Outcome =
    | Settled(view: View)
    | Unsettled(view: View, tally: Tally, loops: nat, cancelled: bool)
    | Thrown(view: View)

  function FailedAt(s: State, reason: Reason): Outcome {
    Settled(CloseView(s.view, Closing(Failed, Some(reason), None, s.tally, s.loops)))
  }

  function CancelledAt(s: State): Outcome {
    Unsettled(s.view, s.tally, s.loops, true)
  }

  function RaisedAt(s: State): Outcome {
    Unsettled(s.view, s.tally, s.loops, false)
  }

  function WithRow(s: State, row: StepRow): State {
    s.(runSeq := s.runSeq + 1, view := Do(s.view, AddRow(row)))
  }

  /** The flag was read once more. */
  function Read(s: State): State {
    s.(checks := s.checks + 1)
  }

  predicate Full(s: State) {
    |s.view.db.messages| >= HARD_CAP
  }

  function WithMessage(s: State, role: Speaker, content: string, calls: seq<ToolCall>, callId: Option<string>): State {
    s.(view := Do(s.view, AddMessage(role, content, calls, callId)))
  }

  // ----- a batch of tool calls -------------------------------------------------------------

  datatype Batch = Ran(state: State) | Stopped(state: State) | Overflowed(state: State)

  function ToolResultRow(seqNo: nat, call: ToolCall, payload: ToolPayload): StepRow {
    StepRow(seqNo, ToolRole, Some(payload.content), Some(call.name), NoArgs, Some(payload), None, None, None)
  }

  function Invoked(s: State, call: ToolCall): State {
    s.(view := Do(s.view, Invoke(call)))
  }

  /** The call is made, unless it was denied, and its row written. */
  function Called(s: State, call: ToolCall, payload: ToolPayload, approved: bool): State {
    var s1 := if approved then Invoked(s, call) else s;
    WithRow(s1, ToolResultRow(s.runSeq + 1, call, payload))
  }

  function WithResult(s: State, call: ToolCall, payload: ToolPayload): State {
    WithMessage(s, ToolSpeaker, payload.content, [], Some(call.id))
  }

  /** The calls from the `i`-th on, each preceded by a check of the cancel flag. */
  function RunBatch(w: World, s: State, batch: nat, calls: seq<ToolCall>, i: nat, approved: bool): Batch
    decreases |calls| - i
  {
    if i >= |calls| then Ran(s)
    else if Flag(w, s.checks) then Stopped(Read(s))
    else
      var payload := Result(w, batch, calls, i, approved);
      var s1 := Called(Read(s), calls[i], payload, approved);
      if Full(s1) then Overflowed(s1)
      else RunBatch(w, WithResult(s1, calls[i], payload), batch, calls, i + 1, approved)
  }

  lemma CalledApproved(s: State, call: ToolCall, payload: ToolPayload)
    ensures Called(s, call, payload, true) ==
              WithRow(Invoked(s, call), ToolResultRow(Invoked(s, call).runSeq + 1, call, payload))
  {
  }

  lemma CalledIs(s: State, call: ToolCall, payload: ToolPayload, approved: bool)
    ensures var v := if approved then Do(s.view, Invoke(call)) else s.view;
            Called(s, call, payload, approved) ==
              State(Do(v, AddRow(ToolResultRow(s.runSeq + 1, call, payload))),
                               s.tally, s.loops, s.runSeq + 1, s.checks, s.iteration)
  {
  }

  /** One call of a batch, unfolded. */
  lemma BatchIs(w: World, s: State, batch: nat, calls: seq<ToolCall>, i: nat, approved: bool)
    requires i < |calls|
    ensures Flag(w, s.checks) ==> RunBatch(w, s, batch, calls, i, approved) == Stopped(Read(s))
    ensures var payload := Result(w, batch, calls, i, approved);
            var s1 := Called(Read(s), calls[i], payload, approved);
            !Flag(w, s.checks) ==>
              RunBatch(w, s, batch, calls, i, approved) ==
                if Full(s1) then Overflowed(s1)
                else RunBatch(w, WithResult(s1, calls[i], payload), batch, calls, i + 1, approved)
  {
  }

  // ----- one iteration ---------------------------------------------------------------------

  datatype Turn = Again(state: State) | Over(outcome: Outcome)

  function Reasoned(s: State, r: ChatReply): State {
    s.(view := WithReasoning(s.view, r))
  }

  function Concluded(s: State, r: ChatReply): Outcome {
    match EmptyReason(r)
    case Some(why) => FailedAt(s, why)
    case None => CompletedAt(WithRow(s, TextRow(s.runSeq + 1, Assistant, r.content, r.usage)), r.content)
  }

  /** A reply without tool calls ends the run. */
  function FinalReply(s: State, r: ChatReply): Outcome {
    Concluded(Reasoned(s, r), r)
  }

  /** The answer stored as a message and the run completed with it. */
  function AnsweredView(s: State, answer: string): View {
    CloseView(Do(s.view, AddMessage(AssistantSpeaker, answer, [], None)),
              Closing(Completed, None, Some(answer), s.tally, s.loops + 1))
  }

  function CompletedAt(s: State, answer: string): Outcome {
    if Full(s) then RaisedAt(s) else Settled(AnsweredView(s, answer))
  }

  function CallsRow(seqNo: nat, r: ChatReply): StepRow {
    TextRow(seqNo, Assistant, r.content, r.usage).(args := CallArgs(r.toolCalls))
  }

  function SnapshotOf(s: State, calls: seq<ToolCall>): Trace.Pending {
    Trace.Pending(calls, s.runSeq, s.loops, s.tally.usage)
  }

  /** The whole batch waits for the user. */
  function PausedAt(s: State, calls: seq<ToolCall>, call: ToolCall): Outcome {
    Settled(Do(Do(s.view, Pause(SnapshotOf(s, calls))), Emit(InputRequiredEvent(call))))
  }

  /** After a batch of its own an execution commits what it has, all of it or the part before a cancel. */
  function Committed(s: State): State {
    s.(view := Do(s.view, Commit), iteration := s.iteration + 1)
  }

  /** The token budget is checked next; the flag is read again only at the next head. */
  function BatchEnd(maxTokens: int, s: State): Turn {
    if s.tally.usage.tokensOut >= maxTokens then Over(FailedAt(Committed(s), MaxTokens)) else Again(Committed(s))
  }

  /** The `break` of a cancel leaves the loop over the calls, not the iteration. */
  function AfterBatch(maxTokens: int, b: Batch): Turn {
    match b
    case Overflowed(s) => Over(RaisedAt(s))
    case Stopped(s) => BatchEnd(maxTokens, s)
    case Ran(s) => BatchEnd(maxTokens, s)
  }

  /** The assistant's tool calls are on record. */
  function Asked(s: State, r: ChatReply): State {
    WithMessage(s, AssistantSpeaker, r.content, r.toolCalls, None).(loops := s.loops + 1)
  }

  /** The whole batch of an iteration, from the state with the calls on record. */
  function WholeBatch(w: World, s: State, calls: seq<ToolCall>): Batch {
    RunBatch(w, s, s.iteration + 1, calls, 0, true)
  }

  function ActOn(w: World, maxTokens: int, s: State, calls: seq<ToolCall>): Turn {
    match FirstDestructive(w, calls)
    case Some(call) => Over(PausedAt(s, calls, call))
    case None => AfterBatch(maxTokens, WholeBatch(w, s, calls))
  }

  function ToolReply(w: World, maxTokens: int, s: State, r: ChatReply): Turn {
    var s1 := WithRow(s, CallsRow(s.runSeq + 1, r));
    if Full(s1) then Over(RaisedAt(s1)) else ActOn(w, maxTokens, Asked(s1, r), r.toolCalls)
  }

  function Charged(s: State, r: ChatReply): State {
    s.(tally := Charge(s.tally, r.usage, r.cost))
  }

  /** The provider was called; the state before anything is done with the outcome. */
  function Chatted(s: State): State {
    s.(view := Do(s.view, Ask))
  }

  function Decide(w: World, maxTokens: int, s: State, r: ChatReply): Turn {
    if r.toolCalls == [] then Over(FinalReply(s, r)) else ToolReply(w, maxTokens, s, r)
  }

  /** What a reply leads to, given the flag read after it; a cancelled reply is not charged. */
  function OnChecked(w: World, maxTokens: int, s: State, flag: bool, r: ChatReply): Turn {
    if flag then Over(CancelledAt(s)) else Decide(w, maxTokens, Charged(s, r), r)
  }

  function OnReply(w: World, maxTokens: int, s: State, r: ChatReply): Turn {
    OnChecked(w, maxTokens, Read(s), Flag(w, s.checks), r)
  }

  /** The outcome of this iteration's call, in the state after it. */
  function OnOutcome(w: World, maxTokens: int, s: State): Turn {
    match w.chat(s.iteration)
    case ProviderError => Over(FailedAt(s, LlmProviderError))
    case Reply(r) => OnReply(w, maxTokens, s, r)
  }

  /** An iteration, given the flag read at its head. */
  function OnHead(w: World, maxTokens: int, s: State, flag: bool): Turn {
    if flag then Over(CancelledAt(s))
    else if s.iteration >= MAX_ITERATIONS then Over(FailedAt(s, GuardrailExceeded))
    else OnOutcome(w, maxTokens, Chatted(s))
  }

  function TurnOf(w: World, maxTokens: int, s: State): Turn {
    OnHead(w, maxTokens, Read(s), Flag(w, s.checks))
  }

  // ----- unfoldings ------------------------------------------------------------------------

  lemma ConcludedIs(s: State, r: ChatReply)
    ensures Concluded(s, r) ==
            if EmptyReason(r).Some? then FailedAt(s, EmptyReason(r).value)
            else CompletedAt(WithRow(s, TextRow(s.runSeq + 1, Assistant, r.content, r.usage)), r.content)
  {
  }

  lemma ActOnIs(w: World, maxTokens: int, s: State, calls: seq<ToolCall>)
    ensures ActOn(w, maxTokens, s, calls) ==
            if FirstDestructive(w, calls).Some? then Over(PausedAt(s, calls, FirstDestructive(w, calls).value))
            else AfterBatch(maxTokens, WholeBatch(w, s, calls))
  {
  }

  lemma ToolReplyIs(w: World, maxTokens: int, s: State, r: ChatReply)
    ensures var s1 := WithRow(s, CallsRow(s.runSeq + 1, r));
            ToolReply(w, maxTokens, s, r) ==
              if Full(s1) then Over(RaisedAt(s1)) else ActOn(w, maxTokens, Asked(s1, r), r.toolCalls)
  {
  }

  lemma DecideIs(w: World, maxTokens: int, s: State, r: ChatReply)
    ensures var s1 := WithRow(s, CallsRow(s.runSeq + 1, r));
            Decide(w, maxTokens, s, r) ==
              if r.toolCalls == [] then Over(FinalReply(s, r))
              else if Full(s1) then Over(RaisedAt(s1))
              else ActOn(w, maxTokens, Asked(s1, r), r.toolCalls)
  {
    if r.toolCalls != [] {
      ToolReplyIs(w, maxTokens, s, r);
    }
  }

  // ----- progress --------------------------------------------------------------------------

  lemma {:induction false} BatchKeeps(w: World, s: State, batch: nat, calls: seq<ToolCall>, i: nat, approved: bool)
    ensures var s' := RunBatch(w, s, batch, calls, i, approved).state;
            s'.iteration == s.iteration && s'.tally == s.tally && s'.loops == s.loops && s'.checks >= s.checks
    decreases |calls| - i
  {
    if i < |calls| && !Flag(w, s.checks) {
      var payload := Result(w, batch, calls, i, approved);
      var s1 := Called(Read(s), calls[i], payload, approved);
      if !Full(s1) {
        BatchKeeps(w, WithResult(s1, calls[i], payload), batch, calls, i + 1, approved);
      }
    }
  }

  /** A turn that goes on has used up one iteration, within the token budget. */
  predicate Advances(t: Turn, iteration: nat, maxTokens: int) {
    t.Again? ==> t.state.iteration == iteration + 1 && t.state.tally.usage.tokensOut < maxTokens
  }

  lemma WholeKeeps(w: World, s: State, calls: seq<ToolCall>)
    ensures WholeBatch(w, s, calls).state.iteration == s.iteration
  {
    BatchKeeps(w, s, s.iteration + 1, calls, 0, true);
  }

  lemma ActOnAdvances(w: World, maxTokens: int, s: State, calls: seq<ToolCall>)
    ensures Advances(ActOn(w, maxTokens, s, calls), s.iteration, maxTokens)
  {
    ActOnIs(w, maxTokens, s, calls);
    WholeKeeps(w, s, calls);
    AfterBatchAdvances(maxTokens, WholeBatch(w, s, calls));
  }

  lemma AfterBatchAdvances(maxTokens: int, b: Batch)
    ensures Advances(AfterBatch(maxTokens, b), b.state.iteration, maxTokens)
  {
  }

  lemma DecideAdvances(w: World, maxTokens: int, s: State, r: ChatReply)
    ensures Advances(Decide(w, maxTokens, s, r), s.iteration, maxTokens)
  {
    DecideIs(w, maxTokens, s, r);
    ActOnAdvances(w, maxTokens, Asked(WithRow(s, CallsRow(s.runSeq + 1, r)), r), r.toolCalls);
  }

  lemma OnReplyAdvances(w: World, maxTokens: int, s: State, r: ChatReply)
    ensures Advances(OnReply(w, maxTokens, s, r), s.iteration, maxTokens)
  {
    DecideAdvances(w, maxTokens, Charged(Read(s), r), r);
  }

  /** Going on uses up one of the iterations, and only happens within the token budget. */
  lemma AgainAdvances(w: World, maxTokens: int, s: State)
    ensures Advances(TurnOf(w, maxTokens, s), s.iteration, maxTokens)
    ensures TurnOf(w, maxTokens, s).Again? ==> s.iteration < MAX_ITERATIONS
  {
    if w.chat(s.iteration).Reply? {
      OnReplyAdvances(w, maxTokens, Chatted(Read(s)), w.chat(s.iteration).reply);
    }
  }

  /** The `for` loop inside the `try`. */
  function Iterate(w: World, maxTokens: int, s: State): Outcome
    decreases if s.iteration < MAX_ITERATIONS then MAX_ITERATIONS - s.iteration else 0
  {
    match TurnOf(w, maxTokens, s)
    case Over(o) => o
    case Again(s1) =>
      AgainAdvances(w, maxTokens, s);
      Iterate(w, maxTokens, s1)
  }

  // ----- executions ------------------------------------------------------------------------

  function FirstState(v: View): State {
    State(v, ZERO_TALLY, 0, 0, 0, 0)
  }

  function FreshRun(w: World, maxTokens: int, start: Db, text: string): Outcome {
    if |start.messages| >= HARD_CAP then Settled(ContextFullView(View(start, start, [])))
    else Iterate(w, maxTokens, FirstState(OpeningView(start, text)))
  }

  /** What a paused run waits with; a missing snapshot reads as zeros and no calls. */
  function SavedBy(start: Db): Trace.Pending {
    if start.run.pending.Some? then start.run.pending.value else Trace.Pending([], 0, 0, NO_USAGE)
  }

  /** The variables restored from the snapshot; the cost so far is not in it. */
  function Restored(start: Db): State {
    var p := SavedBy(start);
    State(Do(View(start, start, []), Emit(Working(Plain))), Tally(p.usage, None), p.loops, p.runSeq, 0, 0)
  }

  function SavedBatch(w: World, start: Db, text: string): Batch {
    RunBatch(w, Restored(start), 0, SavedBy(start).calls, 0, IsApproval(text))
  }

  function ResumedAt(s: State): State {
    s.(view := Do(Do(s.view, Resume), Commit))
  }

  function ResumeRun(w: World, maxTokens: int, start: Db, text: string): Outcome {
    match SavedBatch(w, start, text)
    case Overflowed(s) => Thrown(s.view)
    case b => Iterate(w, maxTokens, ResumedAt(b.state))
  }

  /** The state in which an execution enters its loop; none if it never gets there. */
  function LoopStart(w: World, start: Db, text: string): Option<State> {
    if start.run.status == Paused then
      (match SavedBatch(w, start, text)
       case Overflowed(_) => None
       case b => Some(ResumedAt(b.state)))
    else if |start.messages| >= HARD_CAP then None
    else Some(FirstState(OpeningView(start, text)))
  }

  function Execute(w: World, maxTokens: int, start: Db, text: string): Outcome {
    if start.run.status == Paused then ResumeRun(w, maxTokens, start, text) else FreshRun(w, maxTokens, start, text)
  }
}
