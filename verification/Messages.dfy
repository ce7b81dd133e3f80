/** Conversation memory: what is sent to the model, and when tool calls and tool results are paired. */
module Messages {
  import opened Basics
  import opened Sequences
  import opened Trace

  // ----- pairing ---------------------------------------------------------------------------

  /** An assistant message that asks for tool results. */
  predicate Opens(m: Message) {
    m.role.AssistantSpeaker? && m.calls != []
  }

  predicate Answers(m: Message, call: ToolCall) {
    m.role.ToolSpeaker? && m.callId == Some(call.id)
  }

  /** The calls still waiting for a result after one more message; none once the order is broken. */
  function Next(waiting: Option<seq<ToolCall>>, m: Message): Option<seq<ToolCall>> {
    match waiting
    case None => None
    case Some(calls) =>
      if calls != [] then (if Answers(m, calls[0]) then Some(calls[1..]) else None)
      else if m.role.ToolSpeaker? then None
      else Some(if Opens(m) then m.calls else [])
  }

  function WaitingFrom(waiting: Option<seq<ToolCall>>, ms: seq<Message>): Option<seq<ToolCall>> {
    if ms == [] then waiting else Next(WaitingFrom(waiting, ms[..|ms| - 1]), ms[|ms| - 1])
  }

  /** The calls a conversation is waiting for, in order. */
  function Waiting(ms: seq<Message>): Option<seq<ToolCall>> {
    WaitingFrom(Some([]), ms)
  }

  /** Every tool call has been answered, in order, and nothing else was. */
  predicate WellPaired(ms: seq<Message>) {
    Waiting(ms) == Some([])
  }

  lemma WaitingSnoc(ms: seq<Message>, m: Message)
    ensures Waiting(ms + [m]) == Next(Waiting(ms), m)
  {
    Snoc(ms, m);
  }

  lemma {:induction false} WaitingConcat(waiting: Option<seq<ToolCall>>, a: seq<Message>, b: seq<Message>)
    ensures WaitingFrom(waiting, a + b) == WaitingFrom(WaitingFrom(waiting, a), b)
    decreases |b|
  {
    if b == [] {
      assert a + b == a;
    } else {
      var init, last := b[..|b| - 1], b[|b| - 1];
      WaitingConcat(waiting, a, init);
      InitLast(b);
      Assoc(a, init, [last]);
      Snoc(a + init, last);
    }
  }

  // ----- pairing, said without reading left to right ---------------------------------------

  /** The assistant message at `i` is followed by one tool message per call, in order, with its id. */
  predicate Answered(ms: seq<Message>, i: nat)
    requires i < |ms|
  {
    && i + |ms[i].calls| < |ms|
    && forall j :: 0 <= j < |ms[i].calls| ==> Answers(ms[i + 1 + j], ms[i].calls[j])
  }

  /** The message at `k` lies in the block of results that belongs to the opening message at `i`. */
  predicate InBlock(ms: seq<Message>, i: nat, k: nat)
    requires i < |ms|
  {
    Opens(ms[i]) && i < k <= i + |ms[i].calls|
  }

  /** Each assistant message with calls is answered, and each tool message is such an answer. */
  ghost predicate Paired(ms: seq<Message>) {
    && (forall i :: 0 <= i < |ms| && Opens(ms[i]) ==> Answered(ms, i))
    && (forall k :: 0 <= k < |ms| && ms[k].role.ToolSpeaker? ==> exists i :: 0 <= i < k && InBlock(ms, i, k))
  }

  /** Where the reading stands after `n` messages of `ms`: between blocks, or inside the block of `i`. */
  predicate Inside(ms: seq<Message>, n: nat, i: nat, calls: seq<ToolCall>)
    requires n <= |ms|
  {
    && i < n && Opens(ms[i]) && n - 1 - i < |ms[i].calls|
    && calls == ms[i].calls[n - 1 - i..]
  }

  /** The blocks opened among the first `n` messages end there. */
  predicate BlocksDone(ms: seq<Message>, n: nat)
    requires n <= |ms|
  {
    forall i :: 0 <= i < n && Opens(ms[i]) ==> i + |ms[i].calls| < n
  }

  /** What reading `n` messages has come to: it waits for the rest of the open block, or all blocks are done. */
  ghost predicate ReadTo(ms: seq<Message>, n: nat, waiting: Option<seq<ToolCall>>)
    requires n <= |ms|
  {
    && waiting.Some?
    && if waiting.value == [] then BlocksDone(ms, n) else exists i: nat :: Inside(ms, n, i, waiting.value)
  }

  lemma {:induction false} PairedReads(ms: seq<Message>, n: nat)
    requires Paired(ms) && n <= |ms|
    ensures ReadTo(ms, n, Waiting(ms[..n]))
  {
    if n > 0 {
      PairedReads(ms, n - 1);
      assert ms[..n][..n - 1] == ms[..n - 1];
      var before := Waiting(ms[..n - 1]).value;
      if before == [] {
        ReadsOutside(ms, n);
      } else {
        var i: nat :| Inside(ms, n - 1, i, before);
        InsideAnswered(ms, n, i, before);
        BlockGoesOn(ms, n, i, before);
      }
    }
  }

  lemma ReadsOutside(ms: seq<Message>, n: nat)
    requires 0 < n <= |ms| && Paired(ms) && BlocksDone(ms, n - 1)
    ensures ReadTo(ms, n, Next(Some([]), ms[n - 1]))
  {
    var m := ms[n - 1];
    if m.role.ToolSpeaker? {
      assert false;
    }
    if Opens(m) {
      assert m.calls == ms[n - 1].calls[0..];
      assert Inside(ms, n, n - 1, m.calls);
    }
  }

  lemma InsideAnswered(ms: seq<Message>, n: nat, i: nat, before: seq<ToolCall>)
    requires 0 < n <= |ms| && Paired(ms) && Inside(ms, n - 1, i, before) && before != []
    ensures Answers(ms[n - 1], before[0])
  {
    assert Answered(ms, i);
    assert Answers(ms[i + 1 + (n - 2 - i)], ms[i].calls[n - 2 - i]);
  }

  lemma BlockGoesOn(ms: seq<Message>, n: nat, i: nat, before: seq<ToolCall>)
    requires 0 < n <= |ms| && Inside(ms, n - 1, i, before) && Paired(ms) && before != []
    ensures before[1..] == [] ==> BlocksDone(ms, n)
    ensures before[1..] != [] ==> Inside(ms, n, i, before[1..])
  {
    if before[1..] == [] {
      forall k | 0 <= k < n && Opens(ms[k]) ensures k + |ms[k].calls| < n {
        BlocksApart(ms, i, k);
      }
    }
  }

  /** Blocks do not overlap. */
  lemma BlocksApart(ms: seq<Message>, i: nat, k: nat)
    requires Paired(ms) && i < |ms| && k < |ms| && Opens(ms[i]) && Opens(ms[k])
    ensures k > i ==> k > i + |ms[i].calls|
    ensures k < i ==> k + |ms[k].calls| < i
  {
    if i < k <= i + |ms[i].calls| {
      BlockIsTools(ms, i, k);
    }
    if k < i <= k + |ms[k].calls| {
      BlockIsTools(ms, k, i);
    }
  }

  lemma BlockIsTools(ms: seq<Message>, i: nat, k: nat)
    requires i < |ms| && Answered(ms, i) && i < k <= i + |ms[i].calls|
    ensures ms[k].role.ToolSpeaker?
  {
    assert Answers(ms[i + 1 + (k - i - 1)], ms[i].calls[k - i - 1]);
  }

  /** The part of the block of `i` that the first `n` messages hold answers its calls in order. */
  predicate AnsweredUpTo(ms: seq<Message>, n: nat, i: nat)
    requires n <= |ms| && i < n
  {
    forall j :: 0 <= j < |ms[i].calls| && i + 1 + j < n ==> Answers(ms[i + 1 + j], ms[i].calls[j])
  }

  predicate OpenerRead(ms: seq<Message>, n: nat, i: nat, calls: seq<ToolCall>)
    requires n <= |ms| && i < n
  {
    AnsweredUpTo(ms, n, i) && (i + |ms[i].calls| < n || Inside(ms, n, i, calls))
  }

  /** Each opening message among the first `n` is answered as far as they go, and only the last may be open. */
  predicate OpenersRead(ms: seq<Message>, n: nat, calls: seq<ToolCall>)
    requires n <= |ms|
  {
    forall i {:trigger OpenerRead(ms, n, i, calls)} :: 0 <= i < n && Opens(ms[i]) ==> OpenerRead(ms, n, i, calls)
  }

  /** Each tool message among the first `n` lies in a block. */
  ghost predicate ToolsRead(ms: seq<Message>, n: nat)
    requires n <= |ms|
  {
    forall k :: 0 <= k < n && ms[k].role.ToolSpeaker? ==> exists i :: 0 <= i < k && InBlock(ms, i, k)
  }

  /** The calls waited for, if any, are the rest of an open block. */
  ghost predicate RestRead(ms: seq<Message>, n: nat, calls: seq<ToolCall>)
    requires n <= |ms|
  {
    calls != [] ==> exists i :: 0 <= i < n && Inside(ms, n, i, calls)
  }

  lemma {:induction false} ReadsPaired(ms: seq<Message>, n: nat)
    requires n <= |ms| && Waiting(ms[..n]).Some?
    ensures OpenersRead(ms, n, Waiting(ms[..n]).value) && ToolsRead(ms, n) && RestRead(ms, n, Waiting(ms[..n]).value)
  {
    if n > 0 {
      assert ms[..n][..n - 1] == ms[..n - 1];
      ReadsPaired(ms, n - 1);
      var before, after := Waiting(ms[..n - 1]).value, Waiting(ms[..n]).value;
      if before == [] {
        ReadOutside(ms, n, after);
      } else {
        var i :| 0 <= i < n - 1 && Inside(ms, n - 1, i, before);
        ReadInside(ms, n, i, before);
      }
    }
  }

  lemma OpenerStays(ms: seq<Message>, n: nat, k: nat, after: seq<ToolCall>)
    requires 0 < n <= |ms| && OpenersRead(ms, n - 1, []) && k < n - 1 && Opens(ms[k])
    ensures OpenerRead(ms, n, k, after)
  {
    assert OpenerRead(ms, n - 1, k, []);
    assert !Inside(ms, n - 1, k, []);
  }

  /** The message read last opens a block or leaves none open. */
  lemma NewestRead(ms: seq<Message>, n: nat, after: seq<ToolCall>)
    requires 0 < n <= |ms| && after == if Opens(ms[n - 1]) then ms[n - 1].calls else []
    ensures Opens(ms[n - 1]) ==> OpenerRead(ms, n, n - 1, after)
    ensures RestRead(ms, n, after)
  {
    if Opens(ms[n - 1]) {
      assert ms[n - 1].calls == ms[n - 1].calls[0..];
      assert Inside(ms, n, n - 1, after);
    }
  }

  lemma ToolsStay(ms: seq<Message>, n: nat)
    requires 0 < n <= |ms| && ToolsRead(ms, n - 1) && !ms[n - 1].role.ToolSpeaker?
    ensures ToolsRead(ms, n)
  {
  }

  lemma OpenersOutside(ms: seq<Message>, n: nat, after: seq<ToolCall>)
    requires 0 < n <= |ms|
    requires forall k :: 0 <= k < n - 1 && Opens(ms[k]) ==> OpenerRead(ms, n, k, after)
    requires Opens(ms[n - 1]) ==> OpenerRead(ms, n, n - 1, after)
    ensures OpenersRead(ms, n, after)
  {
  }

  lemma OpenersStay(ms: seq<Message>, n: nat, after: seq<ToolCall>)
    requires 0 < n <= |ms| && OpenersRead(ms, n - 1, [])
    ensures forall k :: 0 <= k < n - 1 && Opens(ms[k]) ==> OpenerRead(ms, n, k, after)
  {
    forall k | 0 <= k < n - 1 && Opens(ms[k]) ensures OpenerRead(ms, n, k, after) {
      OpenerStays(ms, n, k, after);
    }
  }

  /** One more message between blocks. */
  lemma ReadOutside(ms: seq<Message>, n: nat, after: seq<ToolCall>)
    requires 0 < n <= |ms| && OpenersRead(ms, n - 1, []) && ToolsRead(ms, n - 1)
    requires Next(Some([]), ms[n - 1]) == Some(after)
    ensures OpenersRead(ms, n, after) && ToolsRead(ms, n) && RestRead(ms, n, after)
  {
    NewestRead(ms, n, after);
    ToolsStay(ms, n);
    OpenersStay(ms, n, after);
    OpenersOutside(ms, n, after);
  }

  /** One more message inside the block of `i`. */
  lemma ReadInside(ms: seq<Message>, n: nat, i: nat, before: seq<ToolCall>)
    requires 0 < n <= |ms| && OpenersRead(ms, n - 1, before) && ToolsRead(ms, n - 1)
    requires Inside(ms, n - 1, i, before) && before != [] && Answers(ms[n - 1], before[0])
    ensures OpenersRead(ms, n, before[1..]) && ToolsRead(ms, n) && RestRead(ms, n, before[1..])
  {
    assert InBlock(ms, i, n - 1);
    assert before[1..] != [] ==> Inside(ms, n, i, before[1..]);
    forall k {:trigger OpenerRead(ms, n, k, before[1..])} | 0 <= k < n && Opens(ms[k])
      ensures OpenerRead(ms, n, k, before[1..])
    {
      OpenerGoesOn(ms, n, k, before);
    }
  }

  lemma OpenerGoesOn(ms: seq<Message>, n: nat, k: nat, before: seq<ToolCall>)
    requires 0 < n <= |ms| && OpenersRead(ms, n - 1, before) && before != [] && Answers(ms[n - 1], before[0])
    requires k < n && Opens(ms[k])
    ensures OpenerRead(ms, n, k, before[1..])
  {
    assert k < n - 1;
    assert OpenerRead(ms, n - 1, k, before);
  }

  /** Reading left to right accepts exactly the conversations in which every assistant message with tool calls
      is followed by one tool message per call, in order and with its id, and no tool message stands elsewhere. */
  lemma WellPairedMeansPaired(ms: seq<Message>)
    ensures WellPaired(ms) <==> Paired(ms)
  {
    assert ms[..|ms|] == ms;
    if Paired(ms) {
      PairedReads(ms, |ms|);
    }
    if WellPaired(ms) {
      ReadsPaired(ms, |ms|);
      forall i | 0 <= i < |ms| && Opens(ms[i]) ensures Answered(ms, i) {
        assert OpenerRead(ms, |ms|, i, []);
      }
    }
  }

  // ----- the payload -----------------------------------------------------------------------

  /** One message in the provider's format. */
  datatype Wire = Wire(role: Speaker, content: Option<string>, calls: seq<ToolCall>, callId: Option<string>)

  /** `_serialize_message`. */
  function Serialize(m: Message): Wire {
    if m.role.ToolSpeaker? then Wire(ToolSpeaker, Some(m.content), [], Some(if m.callId.Some? then m.callId.value else ""))
    else if Opens(m) then Wire(AssistantSpeaker, if m.content != "" then Some(m.content) else None, m.calls, None)
    else Wire(m.role, Some(m.content), [], None)
  }

  function SerializeAll(ms: seq<Message>): seq<Wire> {
    seq(|ms|, i requires 0 <= i < |ms| => Serialize(ms[i]))
  }

  function NonSystem(ms: seq<Message>): (r: seq<Message>)
    ensures |r| <= |ms|
  {
    if ms == [] then []
    else NonSystem(ms[..|ms| - 1]) + (if ms[|ms| - 1].role.System? then [] else [ms[|ms| - 1]])
  }

  /** The system prompt, when there is one that is not empty. */
  function Head(prompt: Option<string>): seq<Wire> {
    if prompt.Some? && prompt.value != "" then [Wire(System, prompt, [], None)] else []
  }

  /** How many of the oldest messages the soft cap drops. */
  function Cut(ms: seq<Message>, prompt: Option<string>): (cut: nat)
    ensures cut <= |NonSystem(ms)|
  {
    var keep := SOFT_CAP - |Head(prompt)|;
    if |NonSystem(ms)| > keep then |NonSystem(ms)| - keep else 0
  }

  function Payload(ms: seq<Message>, prompt: Option<string>): seq<Wire> {
    Head(prompt) + SerializeAll(NonSystem(ms)[Cut(ms, prompt)..])
  }

  /** Never more than the soft cap; all messages when they fit, and a full payload when they do not. */
  lemma PayloadBounded(ms: seq<Message>, prompt: Option<string>)
    ensures |Payload(ms, prompt)| <= SOFT_CAP
    ensures Cut(ms, prompt) == 0 <==> |NonSystem(ms)| + |Head(prompt)| <= SOFT_CAP
    ensures Cut(ms, prompt) > 0 ==> |Payload(ms, prompt)| == SOFT_CAP
  {
  }

  lemma SerializeNext(ms: seq<Message>, i: nat)
    requires i < |ms|
    ensures SerializeAll(ms[..i + 1]) == SerializeAll(ms[..i]) + [Serialize(ms[i])]
  {
  }

  /** The loop of `build_llm_payload` over the kept messages. */
  method AppendSerialized(head: seq<Wire>, kept: seq<Message>) returns (payload: seq<Wire>)
    ensures payload == head + SerializeAll(kept)
  {
    payload := head;
    for i := 0 to |kept|
      invariant payload == head + SerializeAll(kept[..i])
    {
      SerializeNext(kept, i);
      Assoc(head, SerializeAll(kept[..i]), [Serialize(kept[i])]);
      payload := payload + [Serialize(kept[i])];
    }
    assert kept[..|kept|] == kept;
  }

  /** `build_llm_payload`: the system prompt first, then the newest messages up to the soft cap. */
  method BuildLlmPayload(persisted: seq<Message>, prompt: Option<string>) returns (payload: seq<Wire>)
    ensures payload == Payload(persisted, prompt)
  {
    payload := [];
    if prompt.Some? && prompt.value != "" {
      payload := payload + [Wire(System, prompt, [], None)];
    }
    var nonSystem := NonSystem(persisted);
    var keepCount := SOFT_CAP - |payload|;
    if |nonSystem| > keepCount {
      nonSystem := nonSystem[|nonSystem| - keepCount..];
    }
    payload := AppendSerialized(payload, nonSystem);
  }

  /** What pairing is about survives serialization. */
  lemma SerializeFaithful(m: Message, n: Message)
    requires Serialize(m) == Serialize(n)
    ensures m.role == n.role && m.content == n.content && (Opens(m) <==> Opens(n))
    ensures Opens(m) ==> m.calls == n.calls
    ensures m.callId.Some? && n.callId.Some? && m.role.ToolSpeaker? ==> m.callId == n.callId
  {
  }

  /** System messages lie between blocks, so leaving them out changes nothing. */
  lemma {:induction false} NonSystemWaits(ms: seq<Message>)
    requires Waiting(ms).Some?
    ensures Waiting(NonSystem(ms)) == Waiting(ms)
  {
    if ms != [] {
      var init, last := ms[..|ms| - 1], ms[|ms| - 1];
      NonSystemWaits(init);
      if !last.role.System? {
        WaitingSnoc(NonSystem(init), last);
      } else {
        assert NonSystem(ms) == NonSystem(init);
      }
    }
  }

  lemma {:induction false} BrokenStays(ms: seq<Message>)
    ensures WaitingFrom(None, ms) == None
  {
    if ms != [] {
      BrokenStays(ms[..|ms| - 1]);
    }
  }

  /** A prefix of a readable conversation is readable; what follows an open block starts with its next answer. */
  lemma CutBlock(a: seq<Message>, b: seq<Message>)
    requires WellPaired(a + b)
    ensures Waiting(a).Some?
    ensures Waiting(a).value != [] ==> b != [] && b[0].role.ToolSpeaker?
  {
    WaitingConcat(Some([]), a, b);
    if Waiting(a).None? {
      BrokenStays(b);
    }
    if b != [] {
      assert b == [b[0]] + b[1..];
      WaitingConcat(Waiting(a), [b[0]], b[1..]);
      BrokenStays(b[1..]);
      assert [b[0]][..0] == [];
    }
  }

  lemma StartsWithAnswer(b: seq<Message>)
    requires b != [] && b[0].role.ToolSpeaker?
    ensures !WellPaired(b)
  {
    assert b == [b[0]] + b[1..];
    WaitingConcat(Some([]), [b[0]], b[1..]);
    BrokenStays(b[1..]);
  }

  /** What follows a prefix is paired on its own unless it starts inside a block. */
  lemma TailPairing(a: seq<Message>, b: seq<Message>)
    requires WellPaired(a + b)
    ensures WellPaired(b) <==> b == [] || !b[0].role.ToolSpeaker?
  {
    CutBlock(a, b);
    WaitingConcat(Some([]), a, b);
    if b != [] && b[0].role.ToolSpeaker? {
      StartsWithAnswer(b);
    }
  }

  /** The soft cap can cut between an assistant message and its results. The messages kept from a well-paired
      conversation are well paired exactly when the first of them is not a tool result. */
  lemma TruncationPairing(ms: seq<Message>, prompt: Option<string>)
    requires WellPaired(ms)
    ensures var kept := NonSystem(ms)[Cut(ms, prompt)..];
            WellPaired(kept) <==> kept == [] || !kept[0].role.ToolSpeaker?
  {
    NonSystemWaits(ms);
    var a, b := NonSystem(ms)[..Cut(ms, prompt)], NonSystem(ms)[Cut(ms, prompt)..];
    assert a + b == NonSystem(ms);
    TailPairing(a, b);
  }

  const TOOL_TURN := [
    Message(User, "hello", [], None, 0),
    Message(AssistantSpeaker, "", [ToolCall("c", "t", "")], None, 1),
    Message(ToolSpeaker, "", [], Some("c"), 2)]

  /** A question, a tool turn, and `n` more user messages. */
  function ChatterAfterToolTurn(n: nat): (ms: seq<Message>)
    ensures |ms| == n + 3 && ms[..3] == TOOL_TURN
  {
    if n == 0 then TOOL_TURN else ChatterAfterToolTurn(n - 1) + [Message(User, "", [], None, n + 2)]
  }

  lemma ToolTurnIsPaired()
    ensures WellPaired(TOOL_TURN) && NonSystem(TOOL_TURN) == TOOL_TURN
  {
    var u, a, t := TOOL_TURN[0], TOOL_TURN[1], TOOL_TURN[2];
    assert [] + [u] == [u] && [u] + [a] + [t] == TOOL_TURN;
    WaitingSnoc([], u);
    WaitingSnoc([u], a);
    WaitingSnoc([u] + [a], t);
    assert a.calls[1..] == [];
    assert [u][..0] == [] && NonSystem([u]) == [u];
    Snoc([u], a);
    Snoc([u] + [a], t);
  }

  lemma {:induction false} ChatterIsPaired(n: nat)
    ensures WellPaired(ChatterAfterToolTurn(n)) && NonSystem(ChatterAfterToolTurn(n)) == ChatterAfterToolTurn(n)
  {
    if n == 0 {
      ToolTurnIsPaired();
    } else {
      ChatterIsPaired(n - 1);
      var m := Message(User, "", [], None, n + 2);
      WaitingSnoc(ChatterAfterToolTurn(n - 1), m);
      Snoc(ChatterAfterToolTurn(n - 1), m);
    }
  }

  /** A conversation of 52 messages whose payload opens with a tool result that answers nothing. */
  lemma TruncationSplitsBlock()
    ensures var ms := ChatterAfterToolTurn(49);
            WellPaired(ms) && Serialize(ms[2]) == Payload(ms, None)[0] && !WellPaired(NonSystem(ms)[Cut(ms, None)..])
  {
    var ms := ChatterAfterToolTurn(49);
    ChatterIsPaired(49);
    TruncationPairing(ms, None);
    assert ms[2] == ms[..3][2] == NonSystem(ms)[Cut(ms, None)..][0];
  }
}
