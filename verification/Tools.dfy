/** Provider replies and tool invocation, as the three executors see them. */
module Tools {
  import opened Basics
  import opened Trace

  datatype FinishReason = Stop | Length | ToolCallsFinish | Filtered | OtherFinish

  datatype ChatReply = ChatReply(
    content: string, toolCalls: seq<ToolCall>, usage: Usage, cost: Option<real>, reasoning: string, finish: FinishReason)

  /** What a `provider.chat` call does: answer, or raise `LlmProviderError`. */
  datatype ChatOutcome = Reply(reply: ChatReply) | ProviderError

  /** The cost a call reports, if it does. */
  function ReplyCost(c: ChatOutcome): Option<real> {
    if c.Reply? then c.reply.cost else None
  }

  /** `empty_response_failure_reason`. */
  function EmptyReason(r: ChatReply): Option<Reason> {
    if !Blank(r.content) then None
    else if r.finish.Length? then Some(MaxTokens)
    else if r.finish.Filtered? then Some(ContentFilter)
    else Some(EmptyResponse)
  }

  /** `reasoning_event`: a `working` update carrying the model's reasoning, when there is any. */
  function WithReasoning(v: View, r: ChatReply): View {
    if Blank(r.reasoning) then v else Do(v, Emit(Working(Reasoning(Strip(r.reasoning)))))
  }

  /** A reply with reasoning yields it, without the white space at its ends; one without yields nothing. */
  lemma ReasoningSays(v: View, r: ChatReply)
    ensures AllSpace(r.reasoning) ==> WithReasoning(v, r) == v
    ensures !AllSpace(r.reasoning) ==>
              exists text :: TrimmedTo(r.reasoning, text) && WithReasoning(v, r) == Do(v, Emit(Working(Reasoning(text))))
  {
    BlankMeansAllSpace(r.reasoning);
    StripTrims(r.reasoning);
  }

  /** Why a reply is no answer: none when a character of it is no white space, else by how the model finished. */
  lemma EmptyReasonSays(r: ChatReply)
    ensures EmptyReason(r).None? <==> exists i :: 0 <= i < |r.content| && !IsSpace(r.content[i])
    ensures EmptyReason(r).Some? ==>
              && (EmptyReason(r).value == MaxTokens <==> r.finish == Length)
              && (EmptyReason(r).value == ContentFilter <==> r.finish == Filtered)
              && (EmptyReason(r).value == EmptyResponse <==> r.finish !in {Length, Filtered})
  {
    BlankMeansAllSpace(r.content);
  }

  // ----- invoke_mcp_tool -------------------------------------------------------------------

  const ATTEMPTS: nat := 3

  /** One attempt at a tool: the server answered, or the caller raised `McpToolError`. */
  datatype Attempt = Answer(payload: ToolPayload) | Threw(message: string)

  /** Where a tool name leads. */
  datatype Target = UnknownTarget | BadTransport(transport: string) | Live

  predicate Succeeds(a: Attempt) {
    a.Answer? && !a.payload.isError
  }

  /** `last_error` after a failed attempt. */
  function ErrorText(a: Attempt): string {
    match a
    case Answer(payload) => if payload.content != "" then payload.content else "tool_error"
    case Threw(message) => message
  }

  /** The first successful attempt among the first `n`. */
  function FirstSuccess(attempts: nat -> Attempt, n: nat): Option<nat> {
    if n == 0 then None
    else if FirstSuccess(attempts, n - 1).Some? then FirstSuccess(attempts, n - 1)
    else if Succeeds(attempts(n - 1)) then Some(n - 1) else None
  }

  /** The least successful attempt, or none of the `n` succeeds. */
  lemma {:induction false} FirstSuccessFound(attempts: nat -> Attempt, n: nat)
    ensures var k := FirstSuccess(attempts, n);
            && (k.Some? ==> k.value < n && Succeeds(attempts(k.value)) && forall i :: 0 <= i < k.value ==> !Succeeds(attempts(i)))
            && (k.None? ==> forall i :: 0 <= i < n ==> !Succeeds(attempts(i)))
  {
    if n > 0 {
      FirstSuccessFound(attempts, n - 1);
    }
  }

  /** The payload a tool call yields: its first success, else the last error. */
  function InvokeResult(name: string, target: Target, attempts: nat -> Attempt): ToolPayload {
    match target
    case UnknownTarget => ToolPayload(true, "unknown tool: " + name)
    case BadTransport(transport) => ToolPayload(true, "unknown transport: " + transport)
    case Live =>
      match FirstSuccess(attempts, ATTEMPTS)
      case Some(k) => attempts(k).payload
      case None =>
        var last := ErrorText(attempts(ATTEMPTS - 1));
        ToolPayload(true, if last != "" then last else "tool_failed")
  }

  // ----- what a call yields ----------------------------------------------------------------

  /** The `k`-th attempt is answered without an error, and none before it. */
  predicate FirstAnswered(attempts: nat -> Attempt, k: nat) {
    && attempts(k).Answer? && !attempts(k).payload.isError
    && forall i :: 0 <= i < k ==> attempts(i).Threw? || attempts(i).payload.isError
  }

  /** The message left by a failed attempt: what was raised, or the content of the error answer. */
  predicate LeavesMessage(a: Attempt, message: string) {
    match a
    case Threw(raised) => message == if raised == "" then "tool_failed" else raised
    case Answer(payload) => message == if payload.content == "" then "tool_error" else payload.content
  }

  /** What a tool call must yield: of a live tool the first answer without an error among three attempts, or an error with
      the message of the third; of any other name an error that says so. */
  predicate Yields(name: string, target: Target, attempts: nat -> Attempt, payload: ToolPayload) {
    match target
    case UnknownTarget => payload.isError && payload.content == "unknown tool: " + name
    case BadTransport(transport) => payload.isError && payload.content == "unknown transport: " + transport
    case Live =>
      && (forall k: nat :: k < 3 && FirstAnswered(attempts, k) ==> payload == attempts(k).payload)
      && ((forall k: nat :: k < 3 ==> !FirstAnswered(attempts, k)) ==>
            payload.isError && LeavesMessage(attempts(2), payload.content))
  }

  lemma InvokeYields(name: string, target: Target, attempts: nat -> Attempt)
    ensures Yields(name, target, attempts, InvokeResult(name, target, attempts))
  {
    FirstSuccessFound(attempts, ATTEMPTS);
    var first := FirstSuccess(attempts, ATTEMPTS);
    if first.Some? {
      assert FirstAnswered(attempts, first.value);
      forall k: nat | k < 3 && FirstAnswered(attempts, k) ensures k == first.value {
        assert Succeeds(attempts(k)) && Succeeds(attempts(first.value));
      }
    } else {
      forall k: nat | k < 3 ensures !FirstAnswered(attempts, k) {
        assert !Succeeds(attempts(k));
      }
    }
  }

  /** `invoke_mcp_tool`: at most three attempts, stopping at the first success. */
  method InvokeMcpTool(name: string, target: Target, attempts: nat -> Attempt) returns (payload: ToolPayload, used: nat)
    ensures payload == InvokeResult(name, target, attempts)
    ensures Yields(name, target, attempts, payload)
    ensures used <= ATTEMPTS && (used == 0 <==> !target.Live?)
    ensures forall i :: 0 <= i < used - 1 ==> !Succeeds(attempts(i))
    ensures target.Live? ==> used == ATTEMPTS || Succeeds(attempts(used - 1))
  {
    InvokeYields(name, target, attempts);
    used := 0;
    match target {
      case UnknownTarget => return ToolPayload(true, "unknown tool: " + name), 0;
      case BadTransport(transport) => return ToolPayload(true, "unknown transport: " + transport), 0;
      case Live =>
    }
    var lastError: Option<string> := None;
    while used < ATTEMPTS
      invariant used <= ATTEMPTS && FirstSuccess(attempts, used).None?
      invariant used > 0 ==> lastError == Some(ErrorText(attempts(used - 1)))
    {
      FirstSuccessFound(attempts, used);
      var attempt := attempts(used);
      used := used + 1;
      if Succeeds(attempt) {
        FirstSuccessStays(attempts, used, ATTEMPTS);
        return attempt.payload, used;
      }
      lastError := Some(ErrorText(attempt));
    }
    FirstSuccessFound(attempts, used);
    payload := ToolPayload(true, if lastError.value != "" then lastError.value else "tool_failed");
  }

  lemma {:induction false} FirstSuccessStays(attempts: nat -> Attempt, m: nat, n: nat)
    requires m <= n && FirstSuccess(attempts, m).Some?
    ensures FirstSuccess(attempts, n) == FirstSuccess(attempts, m)
  {
    if m < n {
      FirstSuccessStays(attempts, m, n - 1);
    }
  }
}
