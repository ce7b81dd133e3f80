/** What the replies, the tools and the user's answer of a Simple execution say against the rows and messages it adds and
    how it ends. */
module SimpleReadings {
  import opened Basics
  import opened Sequences
  import opened Trace
  import opened Protocol
  import opened Invariants
  import opened Tools
  import opened SimpleSpec
  import opened SimpleAnswers
  import opened SimpleFacts

  // ----- reading the rows an execution adds ------------------------------------------------

  /** What an execution is given: the calls it has to answer first, and whether they were approved. */
  datatype Given = Given(calls: seq<ToolCall>, approved: bool)

  /** The replies recorded in the rows. */
  function Turns(rows: seq<StepRow>): nat {
    if rows == [] then 0 else Turns(rows[..|rows| - 1]) + if rows[|rows| - 1].role.Assistant? then 1 else 0
  }

  /** The calls of the last reply in the rows, or those given. */
  function CallsOf(g: Given, rows: seq<StepRow>): seq<ToolCall> {
    if rows == [] then g.calls
    else if rows[|rows| - 1].role.Assistant? then
      (if rows[|rows| - 1].args.CallArgs? then rows[|rows| - 1].args.calls else [])
    else CallsOf(g, rows[..|rows| - 1])
  }

  /** The tool rows at the end of the rows. */
  function Seen(rows: seq<StepRow>): nat {
    if rows == [] || !rows[|rows| - 1].role.ToolRole? then 0 else Seen(rows[..|rows| - 1]) + 1
  }

  lemma ReadSnoc(g: Given, rows: seq<StepRow>, row: StepRow)
    ensures Turns(rows + [row]) == Turns(rows) + if row.role.Assistant? then 1 else 0
    ensures CallsOf(g, rows + [row]) ==
            if row.role.Assistant? then (if row.args.CallArgs? then row.args.calls else []) else CallsOf(g, rows)
    ensures Seen(rows + [row]) == if row.role.ToolRole? then Seen(rows) + 1 else 0
  {
    Snoc(rows, row);
  }

  // ----- what a row and its message must say -----------------------------------------------

  /** Where a tool name must lead, by the lookup and the two transports. */
  predicate LeadsTo(w: World, name: string, target: Target) {
    match w.lookup(name)
    case None => target == UnknownTarget
    case Some(tool) =>
      if tool.transport == "stdio" || tool.transport == "streamable_http" then target == Live
      else target == BadTransport(tool.transport)
  }

  /** The row of the `i`-th call of a batch: its name, and what it must yield, or the denial. */
  ghost predicate CallTold(w: World, batch: nat, i: nat, call: ToolCall, approved: bool, row: StepRow) {
    && row.toolName == Some(call.name) && row.usage == None && row.args == NoArgs
    && row.result.Some? && row.content == Some(row.result.value.content)
    && (forall n: nat :: AttemptsOf(w, batch, i)(n) == w.attempt(batch, i, n))
    && LeadsTo(w, call.name, TargetOf(w, call.name))
    && if approved then Yields(call.name, TargetOf(w, call.name), AttemptsOf(w, batch, i), row.result.value)
       else row.result.value.isError && row.result.value.content == "user_denied"
  }

  /** The row of a reply: its text, its calls if it has any, its tokens. */
  predicate ReplyTold(c: ChatOutcome, row: StepRow) {
    && c.Reply? && row.content == Some(c.reply.content) && row.usage == Some(c.reply.usage)
    && row.args == if c.reply.toolCalls == [] then NoArgs else CallArgs(c.reply.toolCalls)
  }

  predicate NoneToConfirm(w: World, calls: seq<ToolCall>) {
    forall i :: 0 <= i < |calls| ==> !MustBeConfirmed(w, calls[i])
  }

  /** What a row says, given the rows before it; only the calls given can have been denied, and the calls of a reply are only
      made when none of them must be confirmed. */
  ghost predicate RowTold(w: World, g: Given, before: seq<StepRow>, row: StepRow) {
    match row.role
    case Assistant => ReplyTold(w.chat(Turns(before)), row)
    case ToolRole =>
      && Seen(before) < |CallsOf(g, before)|
      && (Turns(before) > 0 ==> NoneToConfirm(w, CallsOf(g, before)))
      && CallTold(w, Turns(before), Seen(before), CallsOf(g, before)[Seen(before)], Turns(before) > 0 || g.approved, row)
    case _ => false
  }

  ghost predicate Told(w: World, g: Given, rows: seq<StepRow>) {
    forall i :: 0 <= i < |rows| ==> RowTold(w, g, rows[..i], rows[i])
  }

  /** The message that goes with a row: the reply and its calls, or the result of the call it answers. */
  predicate MessageTold(g: Given, before: seq<StepRow>, row: StepRow, m: Message) {
    && row.content == Some(m.content)
    && match row.role
       case Assistant =>
         m.role == AssistantSpeaker && m.callId == None && m.calls == if row.args.CallArgs? then row.args.calls else []
       case ToolRole =>
         && m.role == ToolSpeaker && m.calls == [] && Seen(before) < |CallsOf(g, before)|
         && m.callId == Some(CallsOf(g, before)[Seen(before)].id)
       case _ => false
  }

  /** Every message goes with its row. */
  predicate Said(g: Given, rows: seq<StepRow>, ms: seq<Message>) {
    |ms| <= |rows| && forall i :: 0 <= i < |ms| ==> MessageTold(g, rows[..i], rows[i], ms[i])
  }

  lemma ToldSnoc(w: World, g: Given, rows: seq<StepRow>, row: StepRow)
    requires Told(w, g, rows) && RowTold(w, g, rows, row)
    ensures Told(w, g, rows + [row])
  {
    forall i | 0 <= i < |rows + [row]| ensures RowTold(w, g, (rows + [row])[..i], (rows + [row])[i]) {
      if i < |rows| {
        assert (rows + [row])[..i] == rows[..i];
      } else {
        assert (rows + [row])[..i] == rows;
      }
    }
  }

  lemma SaidRow(g: Given, rows: seq<StepRow>, ms: seq<Message>, row: StepRow)
    requires Said(g, rows, ms)
    ensures Said(g, rows + [row], ms)
  {
    forall i | 0 <= i < |ms| ensures MessageTold(g, (rows + [row])[..i], (rows + [row])[i], ms[i]) {
      assert (rows + [row])[..i] == rows[..i];
    }
  }

  lemma SaidMessage(g: Given, rows: seq<StepRow>, row: StepRow, ms: seq<Message>, m: Message)
    requires Said(g, rows + [row], ms) && |ms| == |rows| && MessageTold(g, rows, row, m)
    ensures Said(g, rows + [row], ms + [m])
  {
    forall i | 0 <= i < |ms + [m]| ensures MessageTold(g, (rows + [row])[..i], (rows + [row])[i], (ms + [m])[i]) {
      if i == |ms| {
        assert (rows + [row])[..i] == rows;
      }
    }
  }

  // ----- the state -------------------------------------------------------------------------

  /** What was added to what was there. */
  function Since<T(==)>(first: seq<T>, now: seq<T>): seq<T> {
    if first <= now then now[|first|..] else []
  }

  lemma SinceSnoc<T>(first: seq<T>, now: seq<T>, x: T)
    requires first <= now
    ensures first <= now + [x] && Since(first, now + [x]) == Since(first, now) + [x]
  {
  }

  /** The costs of the first `n` replies. */
  function Costs(w: World, n: nat): seq<Option<real>> {
    seq(n, k requires 0 <= k < n => ReplyCost(w.chat(k)))
  }

  lemma CostsSnoc(w: World, n: nat)
    ensures Costs(w, n + 1) == Costs(w, n) + [ReplyCost(w.chat(n))]
  {
  }

  /** What an execution has added to the database it was given, and what it has charged. */
  ghost predicate Kept(w: World, g: Given, first: Db, s: State, charged: nat) {
    && first.rows <= s.view.db.rows && first.messages <= s.view.db.messages
    && Told(w, g, Since(first.rows, s.view.db.rows))
    && Said(g, Since(first.rows, s.view.db.rows), Since(first.messages, s.view.db.messages))
    && CostsAddUp(s.tally.cost, Costs(w, charged))
    && (forall k: nat :: k < charged ==> w.chat(k).Reply?)
  }

  function RowsOf(first: Db, s: State): seq<StepRow> {
    Since(first.rows, s.view.db.rows)
  }

  function MessagesOf(first: Db, s: State): seq<Message> {
    Since(first.messages, s.view.db.messages)
  }

  /** Every row has its message. */
  predicate Even(first: Db, s: State) {
    |MessagesOf(first, s)| == |RowsOf(first, s)|
  }

  // ----- one step --------------------------------------------------------------------------

  lemma RowLeaves(s: State, row: StepRow)
    ensures var s' := WithRow(s, row);
            && s'.view.db.rows == s.view.db.rows + [row] && s'.view.db.messages == s.view.db.messages && s'.tally == s.tally
  {
  }

  lemma MessageLeaves(s: State, role: Speaker, content: string, calls: seq<ToolCall>, callId: Option<string>)
    ensures var s' := WithMessage(s, role, content, calls, callId);
            && s'.view.db.messages == s.view.db.messages + [Message(role, content, calls, callId, |s.view.db.messages|)]
            && s'.view.db.rows == s.view.db.rows && s'.tally == s.tally
  {
  }

  /** One row more. */
  lemma GrownByRow(w: World, g: Given, first: Db, s: State, s': State, n: nat, row: StepRow)
    requires Kept(w, g, first, s, n) && RowTold(w, g, RowsOf(first, s), row)
    requires s'.view.db.rows == s.view.db.rows + [row] && s'.view.db.messages == s.view.db.messages && s'.tally == s.tally
    ensures Kept(w, g, first, s', n)
    ensures RowsOf(first, s') == RowsOf(first, s) + [row] && MessagesOf(first, s') == MessagesOf(first, s)
  {
    SinceSnoc(first.rows, s.view.db.rows, row);
    ToldSnoc(w, g, RowsOf(first, s), row);
    SaidRow(g, RowsOf(first, s), MessagesOf(first, s), row);
  }

  /** One message more. */
  lemma GrownByMessage(w: World, g: Given, first: Db, s: State, s': State, n: nat, rows: seq<StepRow>, row: StepRow, m: Message)
    requires Kept(w, g, first, s, n) && RowsOf(first, s) == rows + [row] && |MessagesOf(first, s)| == |rows|
    requires MessageTold(g, rows, row, m)
    requires s'.view.db.messages == s.view.db.messages + [m] && s'.view.db.rows == s.view.db.rows && s'.tally == s.tally
    ensures Kept(w, g, first, s', n) && RowsOf(first, s') == rows + [row] && Even(first, s')
  {
    SinceSnoc(first.messages, s.view.db.messages, m);
    SaidMessage(g, rows, row, MessagesOf(first, s), m);
  }

  lemma RowKept(w: World, g: Given, first: Db, s: State, n: nat, row: StepRow)
    requires Kept(w, g, first, s, n) && RowTold(w, g, RowsOf(first, s), row)
    ensures Kept(w, g, first, WithRow(s, row), n)
    ensures RowsOf(first, WithRow(s, row)) == RowsOf(first, s) + [row]
    ensures MessagesOf(first, WithRow(s, row)) == MessagesOf(first, s)
  {
    RowLeaves(s, row);
    GrownByRow(w, g, first, s, WithRow(s, row), n, row);
  }

  lemma MessageKept(w: World, g: Given, first: Db, s: State, n: nat, rows: seq<StepRow>, row: StepRow,
                    role: Speaker, content: string, calls: seq<ToolCall>, callId: Option<string>)
    requires Kept(w, g, first, s, n) && RowsOf(first, s) == rows + [row] && |MessagesOf(first, s)| == |rows|
    requires MessageTold(g, rows, row, Message(role, content, calls, callId, |s.view.db.messages|))
    ensures Kept(w, g, first, WithMessage(s, role, content, calls, callId), n)
    ensures RowsOf(first, WithMessage(s, role, content, calls, callId)) == rows + [row]
    ensures Even(first, WithMessage(s, role, content, calls, callId))
  {
    MessageLeaves(s, role, content, calls, callId);
    GrownByMessage(w, g, first, s, WithMessage(s, role, content, calls, callId), n, rows, row,
                   Message(role, content, calls, callId, |s.view.db.messages|));
  }

  /** Only rows, messages and the cost are looked at. */
  lemma KeptSame(w: World, g: Given, first: Db, s: State, s': State, n: nat)
    requires Kept(w, g, first, s, n) && s'.view.db.rows == s.view.db.rows && s'.view.db.messages == s.view.db.messages
    requires s'.tally == s.tally
    ensures Kept(w, g, first, s', n)
  {
  }

  // ----- a batch ---------------------------------------------------------------------------

  /** A batch under way: the last reply's calls, or those given, and the first `i` of them answered. */
  ghost predicate Calling(w: World, g: Given, first: Db, s: State, n: nat, batch: nat, calls: seq<ToolCall>, i: nat) {
    && Kept(w, g, first, s, n) && Even(first, s)
    && Turns(RowsOf(first, s)) == batch && CallsOf(g, RowsOf(first, s)) == calls && Seen(RowsOf(first, s)) == i
  }

  lemma ResultTold(w: World, g: Given, batch: nat, calls: seq<ToolCall>, i: nat, seqNo: nat)
    requires i < |calls|
    ensures var approved := batch > 0 || g.approved;
            CallTold(w, batch, i, calls[i], approved, ToolResultRow(seqNo, calls[i], Result(w, batch, calls, i, approved)))
  {
    InvokeYields(calls[i].name, TargetOf(w, calls[i].name), AttemptsOf(w, batch, i));
  }

  lemma CalledKept(w: World, g: Given, first: Db, s: State, n: nat, batch: nat, calls: seq<ToolCall>, i: nat, row: StepRow)
    requires Calling(w, g, first, s, n, batch, calls, i) && i < |calls| && (batch > 0 ==> NoneToConfirm(w, calls))
    requires row.role.ToolRole? && CallTold(w, batch, i, calls[i], batch > 0 || g.approved, row)
    ensures var s1 := WithRow(s, row);
            && Kept(w, g, first, s1, n) && RowsOf(first, s1) == RowsOf(first, s) + [row] && MessagesOf(first, s1) == MessagesOf(first, s)
            && Turns(RowsOf(first, s1)) == batch && CallsOf(g, RowsOf(first, s1)) == calls && Seen(RowsOf(first, s1)) == i + 1
  {
    RowKept(w, g, first, s, n, row);
    ReadSnoc(g, RowsOf(first, s), row);
  }

  /** What a batch leaves: every call answered, or a cancel in between, or a full conversation after a row. */
  ghost predicate BatchTold(w: World, g: Given, first: Db, n: nat, batch: nat, calls: seq<ToolCall>, b: Batch) {
    && Kept(w, g, first, b.state, n) && Turns(RowsOf(first, b.state)) == batch
    && match b
       case Ran(s) => Even(first, s) && Seen(RowsOf(first, s)) == |calls|
       case Stopped(s) => Even(first, s) && Seen(RowsOf(first, s)) < |calls|
       case Overflowed(s) => Full(s) && |MessagesOf(first, s)| + 1 == |RowsOf(first, s)|
  }

  lemma BatchStops(w: World, g: Given, first: Db, s: State, n: nat, batch: nat, calls: seq<ToolCall>, i: nat)
    requires Calling(w, g, first, s, n, batch, calls, i) && i <= |calls|
    ensures i == |calls| ==> BatchTold(w, g, first, n, batch, calls, Ran(s))
    ensures i < |calls| ==> BatchTold(w, g, first, n, batch, calls, Stopped(Read(s)))
  {
    KeptSame(w, g, first, s, Read(s), n);
  }

  lemma AnsweredKept(w: World, g: Given, first: Db, s0: State, s: State, n: nat, batch: nat, calls: seq<ToolCall>, i: nat, row: StepRow)
    requires Calling(w, g, first, s0, n, batch, calls, i) && i < |calls|
    requires Kept(w, g, first, s, n) && RowsOf(first, s) == RowsOf(first, s0) + [row] && MessagesOf(first, s) == MessagesOf(first, s0)
    requires Turns(RowsOf(first, s)) == batch && CallsOf(g, RowsOf(first, s)) == calls && Seen(RowsOf(first, s)) == i + 1
    requires row.role.ToolRole? && row.content.Some?
    ensures Calling(w, g, first, WithMessage(s, ToolSpeaker, row.content.value, [], Some(calls[i].id)), n, batch, calls, i + 1)
  {
    MessageKept(w, g, first, s, n, RowsOf(first, s0), row, ToolSpeaker, row.content.value, [], Some(calls[i].id));
  }

  lemma CalledRow(s: State, call: ToolCall, payload: ToolPayload, approved: bool)
    ensures var s1 := if approved then Invoked(s, call) else s;
            && Called(s, call, payload, approved) == WithRow(s1, ToolResultRow(s.runSeq + 1, call, payload))
            && s1.view.db == s.view.db && s1.tally == s.tally
  {
  }

  lemma OneCallTold(w: World, g: Given, first: Db, s: State, n: nat, batch: nat, calls: seq<ToolCall>, i: nat)
    requires Calling(w, g, first, s, n, batch, calls, i) && i < |calls| && (batch > 0 ==> NoneToConfirm(w, calls))
    ensures var approved := batch > 0 || g.approved;
            var payload := Result(w, batch, calls, i, approved);
            var s1 := Called(s, calls[i], payload, approved);
            && (Full(s1) ==> BatchTold(w, g, first, n, batch, calls, Overflowed(s1)))
            && Calling(w, g, first, WithResult(s1, calls[i], payload), n, batch, calls, i + 1)
  {
    var approved := batch > 0 || g.approved;
    var payload := Result(w, batch, calls, i, approved);
    var row := ToolResultRow(s.runSeq + 1, calls[i], payload);
    var s0 := if approved then Invoked(s, calls[i]) else s;
    CalledRow(s, calls[i], payload, approved);
    KeptSame(w, g, first, s, s0, n);
    ResultTold(w, g, batch, calls, i, s.runSeq + 1);
    CalledKept(w, g, first, s0, n, batch, calls, i, row);
    AnsweredKept(w, g, first, s0, WithRow(s0, row), n, batch, calls, i, row);
  }

  lemma {:induction false} RunBatchTold(w: World, g: Given, first: Db, s: State, n: nat, batch: nat, calls: seq<ToolCall>, i: nat,
                                        approved: bool)
    requires Calling(w, g, first, s, n, batch, calls, i) && i <= |calls| && (batch > 0 ==> NoneToConfirm(w, calls))
    requires approved == (batch > 0 || g.approved)
    ensures BatchTold(w, g, first, n, batch, calls, RunBatch(w, s, batch, calls, i, approved))
    decreases |calls| - i
  {
    BatchStops(w, g, first, s, n, batch, calls, i);
    if i < |calls| {
      BatchIs(w, s, batch, calls, i, approved);
      if !Flag(w, s.checks) {
        var payload := Result(w, batch, calls, i, approved);
        var s1 := Called(Read(s), calls[i], payload, approved);
        KeptSame(w, g, first, s, Read(s), n);
        OneCallTold(w, g, first, Read(s), n, batch, calls, i);
        if !Full(s1) {
          RunBatchTold(w, g, first, WithResult(s1, calls[i], payload), n, batch, calls, i + 1, approved);
        }
      }
    }
  }

  // ----- the endings -----------------------------------------------------------------------

  /** The reply has no tool calls and nothing but white space in it. */
  predicate BlankReply(c: ChatOutcome) {
    c.Reply? && c.reply.toolCalls == [] && AllSpace(c.reply.content)
  }

  /** The cause of a failure, and how many replies were charged by then. */
  predicate FailureTold(w: World, maxTokens: int, tally: Tally, reason: Option<Reason>, turns: nat) {
    match reason
    case Some(LlmProviderError) => w.chat(turns).ProviderError? && CostsAddUp(tally.cost, Costs(w, turns))
    case Some(GuardrailExceeded) => turns == 50 && CostsAddUp(tally.cost, Costs(w, turns))
    case Some(MaxTokens) =>
      || (turns > 0 && tally.usage.tokensOut >= maxTokens && CostsAddUp(tally.cost, Costs(w, turns)))
      || (BlankReply(w.chat(turns)) && w.chat(turns).reply.finish == Length && CostsAddUp(tally.cost, Costs(w, turns + 1)))
    case Some(ContentFilter) =>
      BlankReply(w.chat(turns)) && w.chat(turns).reply.finish == Filtered && CostsAddUp(tally.cost, Costs(w, turns + 1))
    case Some(EmptyResponse) =>
      && BlankReply(w.chat(turns)) && w.chat(turns).reply.finish !in {Length, Filtered}
      && CostsAddUp(tally.cost, Costs(w, turns + 1))
    case _ => false
  }

  /** A completed run answers with its last row, the text of a reply without tool calls. */
  predicate AnswerTold(w: World, run: RunRow, rows: seq<StepRow>) {
    && run.reason == None && run.answer.Some? && !AllSpace(run.answer.value)
    && rows != [] && rows[|rows| - 1].role.Assistant? && rows[|rows| - 1].args == NoArgs
    && rows[|rows| - 1].content == run.answer
    && CostsAddUp(run.tally.cost, Costs(w, Turns(rows)))
  }

  /** A pause is on the calls of the last row, some of which must be confirmed, and none of which was made. */
  predicate PauseTold(w: World, g: Given, run: RunRow, rows: seq<StepRow>) {
    && run.reason == Some(InputRequired) && run.pending.Some? && rows != [] && rows[|rows| - 1].role.Assistant?
    && run.pending.value.calls == CallsOf(g, rows) && !NoneToConfirm(w, CallsOf(g, rows))
  }

  /** The last event asks about the first of the calls that must be confirmed. */
  predicate AsksAbout(w: World, log: seq<Action>, calls: seq<ToolCall>) {
    exists i :: 0 <= i < |calls| && MustBeConfirmed(w, calls[i]) && (forall j :: 0 <= j < i ==> !MustBeConfirmed(w, calls[j]))
                && log != [] && log[|log| - 1] == Emit(InputRequiredEvent(calls[i]))
  }

  /** Why an execution settled as it did. */
  predicate EndingTold(w: World, g: Given, maxTokens: int, run: RunRow, rows: seq<StepRow>) {
    match run.status
    case Completed => AnswerTold(w, run, rows)
    case Failed => FailureTold(w, maxTokens, run.tally, run.reason, Turns(rows))
    case Paused => PauseTold(w, g, run, rows)
    case _ => false
  }

  ghost predicate DbTold(w: World, g: Given, first: Db, db: Db) {
    && first.rows <= db.rows && first.messages <= db.messages && Told(w, g, Since(first.rows, db.rows))
    && Said(g, Since(first.rows, db.rows), Since(first.messages, db.messages))
  }

  predicate DbEven(first: Db, db: Db) {
    |Since(first.messages, db.messages)| == |Since(first.rows, db.rows)|
  }

  /** The last row added has no message: the conversation was full. */
  predicate DbOverflowed(first: Db, db: Db) {
    |Since(first.messages, db.messages)| + 1 == |Since(first.rows, db.rows)| && |db.messages| >= HARD_CAP
  }

  /** What the rows, the messages and the ending of an execution say. */
  ghost predicate OutcomeTold(w: World, g: Given, first: Db, maxTokens: int, o: Outcome) {
    && DbTold(w, g, first, o.view.db)
    && match o
       case Settled(v) =>
         && DbEven(first, v.db) && EndingTold(w, g, maxTokens, v.db.run, Since(first.rows, v.db.rows))
         && (v.db.run.status == Paused ==> AsksAbout(w, v.log, CallsOf(g, Since(first.rows, v.db.rows))))
       case Unsettled(v, tally, _, cancelled) =>
         && (if cancelled then DbEven(first, v.db) else DbOverflowed(first, v.db))
         && CostsAddUp(tally.cost, Costs(w, Turns(Since(first.rows, v.db.rows))))
       case Thrown(v) => DbOverflowed(first, v.db)
  }

  /** At the head of an iteration. */
  ghost predicate AtHead(w: World, g: Given, first: Db, s: State) {
    Kept(w, g, first, s, s.iteration) && Even(first, s) && Turns(RowsOf(first, s)) == s.iteration
  }

  /** A reply is charged, and no row for it yet. */
  ghost predicate InHand(w: World, g: Given, first: Db, s: State, r: ChatReply) {
    && w.chat(s.iteration) == Reply(r) && Kept(w, g, first, s, s.iteration + 1)
    && Even(first, s) && Turns(RowsOf(first, s)) == s.iteration
  }

  ghost predicate TurnTold(w: World, g: Given, first: Db, maxTokens: int, t: SimpleSpec.Turn) {
    match t
    case Again(s) => AtHead(w, g, first, s)
    case Over(o) => OutcomeTold(w, g, first, maxTokens, o)
  }

  lemma FailedTold(w: World, g: Given, first: Db, maxTokens: int, s: State, n: nat, reason: Reason)
    requires Kept(w, g, first, s, n) && Even(first, s)
    requires FailureTold(w, maxTokens, s.tally, Some(reason), Turns(RowsOf(first, s)))
    ensures OutcomeTold(w, g, first, maxTokens, FailedAt(s, reason))
  {
    CloseViewDb(s.view, Closing(Failed, Some(reason), None, s.tally, s.loops));
  }

  lemma CancelledTold(w: World, g: Given, first: Db, maxTokens: int, s: State)
    requires Kept(w, g, first, s, s.iteration) && Even(first, s) && Turns(RowsOf(first, s)) == s.iteration
    ensures OutcomeTold(w, g, first, maxTokens, CancelledAt(s))
  {
  }

  lemma RaisedTold(w: World, g: Given, first: Db, maxTokens: int, s: State)
    requires Kept(w, g, first, s, Turns(RowsOf(first, s))) && Full(s)
    requires |MessagesOf(first, s)| + 1 == |RowsOf(first, s)|
    ensures OutcomeTold(w, g, first, maxTokens, RaisedAt(s))
  {
  }

  // ----- one iteration ---------------------------------------------------------------------

  lemma ReplyReads(w: World, g: Given, rows: seq<StepRow>, r: ChatReply, row: StepRow)
    requires w.chat(Turns(rows)) == Reply(r) && row.role.Assistant? && ReplyTold(Reply(r), row)
    ensures RowTold(w, g, rows, row)
    ensures Turns(rows + [row]) == Turns(rows) + 1 && Seen(rows + [row]) == 0 && CallsOf(g, rows + [row]) == r.toolCalls
  {
    ReadSnoc(g, rows, row);
  }

  lemma ReplyKept(w: World, g: Given, first: Db, s: State, r: ChatReply, row: StepRow)
    requires InHand(w, g, first, s, r) && row.role.Assistant? && ReplyTold(Reply(r), row)
    ensures var s1 := WithRow(s, row);
            && Kept(w, g, first, s1, s.iteration + 1) && RowsOf(first, s1) == RowsOf(first, s) + [row]
            && |MessagesOf(first, s1)| == |RowsOf(first, s)|
            && Turns(RowsOf(first, s1)) == s.iteration + 1 && Seen(RowsOf(first, s1)) == 0
            && CallsOf(g, RowsOf(first, s1)) == r.toolCalls
  {
    ReplyReads(w, g, RowsOf(first, s), r, row);
    RowKept(w, g, first, s, s.iteration + 1, row);
  }

  lemma AnsweredTold(w: World, g: Given, first: Db, maxTokens: int, s: State, r: ChatReply, row: StepRow)
    requires InHand(w, g, first, s, r) && r.toolCalls == [] && !AllSpace(r.content)
    requires row == TextRow(s.runSeq + 1, Assistant, r.content, r.usage)
    ensures OutcomeTold(w, g, first, maxTokens, CompletedAt(WithRow(s, row), r.content))
  {
    var s1 := WithRow(s, row);
    ReplyKept(w, g, first, s, r, row);
    if Full(s1) {
      RaisedTold(w, g, first, maxTokens, s1);
    } else {
      MessageKept(w, g, first, s1, s.iteration + 1, RowsOf(first, s), row, AssistantSpeaker, r.content, [], None);
      ClosedLeaves(s1, r.content);
      CompletedTold(w, g, first, maxTokens, WithMessage(s1, AssistantSpeaker, r.content, [], None), RowsOf(first, s), row,
                    r.content, AnsweredView(s1, r.content));
    }
  }

  lemma ClosedLeaves(s: State, answer: string)
    ensures var v, s2 := AnsweredView(s, answer), WithMessage(s, AssistantSpeaker, answer, [], None);
            && v.db.rows == s2.view.db.rows && v.db.messages == s2.view.db.messages && v.db.run.tally == s2.tally
            && v.db.run.status == Completed && v.db.run.reason == None && v.db.run.answer == Some(answer)
  {
    CloseViewDb(Do(s.view, AddMessage(AssistantSpeaker, answer, [], None)),
                Closing(Completed, None, Some(answer), s.tally, s.loops + 1));
  }

  lemma CompletedTold(w: World, g: Given, first: Db, maxTokens: int, s: State, rows: seq<StepRow>, row: StepRow, answer: string, v: View)
    requires Kept(w, g, first, s, Turns(rows + [row])) && RowsOf(first, s) == rows + [row] && Even(first, s)
    requires row.role.Assistant? && row.args == NoArgs && row.content == Some(answer) && !AllSpace(answer)
    requires v.db.rows == s.view.db.rows && v.db.messages == s.view.db.messages && v.db.run.tally == s.tally
    requires v.db.run.status == Completed && v.db.run.reason == None && v.db.run.answer == Some(answer)
    ensures OutcomeTold(w, g, first, maxTokens, Settled(v))
  {
  }

  lemma ConcludedTold(w: World, g: Given, first: Db, maxTokens: int, s: State, r: ChatReply)
    requires InHand(w, g, first, s, r) && r.toolCalls == []
    ensures OutcomeTold(w, g, first, maxTokens, Concluded(s, r))
  {
    ConcludedIs(s, r);
    EmptyReasonSays(r);
    BlankMeansAllSpace(r.content);
    if EmptyReason(r).Some? {
      FailedTold(w, g, first, maxTokens, s, s.iteration + 1, EmptyReason(r).value);
    } else {
      AnsweredTold(w, g, first, maxTokens, s, r, TextRow(s.runSeq + 1, Assistant, r.content, r.usage));
    }
  }

  lemma FinalReplyTold(w: World, g: Given, first: Db, maxTokens: int, s: State, r: ChatReply)
    requires InHand(w, g, first, s, r) && r.toolCalls == []
    ensures OutcomeTold(w, g, first, maxTokens, FinalReply(s, r))
  {
    KeptSame(w, g, first, s, Reasoned(s, r), s.iteration + 1);
    ConcludedTold(w, g, first, maxTokens, Reasoned(s, r), r);
  }

  lemma HeadFrom(w: World, g: Given, first: Db, s: State, s': State)
    requires Kept(w, g, first, s, s'.iteration) && Even(first, s) && Turns(RowsOf(first, s)) == s'.iteration
    requires s'.view.db.rows == s.view.db.rows && s'.view.db.messages == s.view.db.messages && s'.tally == s.tally
    ensures AtHead(w, g, first, s')
  {
    KeptSame(w, g, first, s, s', s'.iteration);
  }

  lemma CommittedLeaves(s: State)
    ensures var s' := Committed(s);
            && s'.view.db.rows == s.view.db.rows && s'.view.db.messages == s.view.db.messages && s'.tally == s.tally
            && s'.iteration == s.iteration + 1
  {
  }

  lemma ResumedLeaves(s: State)
    ensures var s' := ResumedAt(s);
            && s'.view.db.rows == s.view.db.rows && s'.view.db.messages == s.view.db.messages && s'.tally == s.tally
            && s'.iteration == s.iteration
  {
  }

  lemma CommittedHead(w: World, g: Given, first: Db, s: State)
    requires Kept(w, g, first, s, s.iteration + 1) && Even(first, s) && Turns(RowsOf(first, s)) == s.iteration + 1
    ensures AtHead(w, g, first, Committed(s)) && Committed(s).iteration == s.iteration + 1 && Committed(s).tally == s.tally
  {
    CommittedLeaves(s);
    HeadFrom(w, g, first, s, Committed(s));
  }

  lemma BudgetTold(w: World, g: Given, first: Db, maxTokens: int, s: State)
    requires AtHead(w, g, first, s) && s.iteration > 0 && s.tally.usage.tokensOut >= maxTokens
    ensures OutcomeTold(w, g, first, maxTokens, FailedAt(s, MaxTokens))
  {
    FailedTold(w, g, first, maxTokens, s, s.iteration, MaxTokens);
  }

  lemma BatchEndTold(w: World, g: Given, first: Db, maxTokens: int, s: State)
    requires Kept(w, g, first, s, s.iteration + 1) && Even(first, s) && Turns(RowsOf(first, s)) == s.iteration + 1
    ensures TurnTold(w, g, first, maxTokens, BatchEnd(maxTokens, s))
  {
    CommittedHead(w, g, first, s);
    if s.tally.usage.tokensOut >= maxTokens {
      BudgetTold(w, g, first, maxTokens, Committed(s));
    }
  }

  lemma AfterBatchTold(w: World, g: Given, first: Db, maxTokens: int, n: nat, calls: seq<ToolCall>, b: Batch)
    requires BatchTold(w, g, first, n, n, calls, b) && b.state.iteration + 1 == n
    ensures TurnTold(w, g, first, maxTokens, AfterBatch(maxTokens, b))
  {
    if b.Overflowed? {
      RaisedTold(w, g, first, maxTokens, b.state);
    } else {
      BatchEndTold(w, g, first, maxTokens, b.state);
    }
  }

  lemma PausedLeaves(s: State, calls: seq<ToolCall>, call: ToolCall)
    ensures var o := PausedAt(s, calls, call);
            && o.Settled? && o.view.db.rows == s.view.db.rows && o.view.db.messages == s.view.db.messages
            && o.view.db.run.status == Paused && o.view.db.run.reason == Some(InputRequired)
            && o.view.db.run.pending.Some? && o.view.db.run.pending.value.calls == calls
            && o.view.log != [] && o.view.log[|o.view.log| - 1] == Emit(InputRequiredEvent(call))
  {
  }

  lemma PausedTold(w: World, g: Given, first: Db, maxTokens: int, s: State, n: nat, calls: seq<ToolCall>, call: ToolCall)
    requires Calling(w, g, first, s, n, n, calls, 0) && FirstDestructive(w, calls) == Some(call)
    requires RowsOf(first, s) != [] && RowsOf(first, s)[|RowsOf(first, s)| - 1].role.Assistant?
    ensures TurnTold(w, g, first, maxTokens, Over(PausedAt(s, calls, call)))
  {
    PausedLeaves(s, calls, call);
    FirstDestructiveFound(w, calls);
    DestructiveSpelled(w);
  }

  lemma ConfirmRead(w: World, calls: seq<ToolCall>)
    ensures FirstDestructive(w, calls).None? <==> NoneToConfirm(w, calls)
  {
    FirstDestructiveFound(w, calls);
    DestructiveSpelled(w);
  }

  lemma WholeTold(w: World, g: Given, first: Db, maxTokens: int, s: State, n: nat, calls: seq<ToolCall>)
    requires Calling(w, g, first, s, n, n, calls, 0) && n == s.iteration + 1 && NoneToConfirm(w, calls)
    ensures TurnTold(w, g, first, maxTokens, AfterBatch(maxTokens, WholeBatch(w, s, calls)))
  {
    RunBatchTold(w, g, first, s, n, n, calls, 0, true);
    WholeKeeps(w, s, calls);
    AfterBatchTold(w, g, first, maxTokens, n, calls, WholeBatch(w, s, calls));
  }

  lemma ActOnTold(w: World, g: Given, first: Db, maxTokens: int, s: State, n: nat, calls: seq<ToolCall>)
    requires Calling(w, g, first, s, n, n, calls, 0) && n == s.iteration + 1
    requires RowsOf(first, s) != [] && RowsOf(first, s)[|RowsOf(first, s)| - 1].role.Assistant?
    ensures TurnTold(w, g, first, maxTokens, ActOn(w, maxTokens, s, calls))
  {
    ActOnIs(w, maxTokens, s, calls);
    ConfirmRead(w, calls);
    if FirstDestructive(w, calls).Some? {
      PausedTold(w, g, first, maxTokens, s, n, calls, FirstDestructive(w, calls).value);
    } else {
      WholeTold(w, g, first, maxTokens, s, n, calls);
    }
  }

  lemma AskedCalling(w: World, g: Given, first: Db, s: State, r: ChatReply, row: StepRow)
    requires InHand(w, g, first, s, r) && r.toolCalls != [] && row == CallsRow(s.runSeq + 1, r)
    ensures var s1, s2 := WithRow(s, row), Asked(WithRow(s, row), r);
            && Kept(w, g, first, s1, s.iteration + 1) && |MessagesOf(first, s1)| + 1 == |RowsOf(first, s1)|
            && Turns(RowsOf(first, s1)) == s.iteration + 1
            && Calling(w, g, first, s2, s.iteration + 1, s.iteration + 1, r.toolCalls, 0) && s2.iteration == s.iteration
            && RowsOf(first, s2) == RowsOf(first, s) + [row]
  {
    var s1 := WithRow(s, row);
    var s0 := WithMessage(s1, AssistantSpeaker, r.content, r.toolCalls, None);
    ReplyKept(w, g, first, s, r, row);
    MessageKept(w, g, first, s1, s.iteration + 1, RowsOf(first, s), row, AssistantSpeaker, r.content, r.toolCalls, None);
    KeptSame(w, g, first, s0, Asked(s1, r), s.iteration + 1);
  }

  lemma ToolReplyTold(w: World, g: Given, first: Db, maxTokens: int, s: State, r: ChatReply)
    requires InHand(w, g, first, s, r) && r.toolCalls != []
    ensures TurnTold(w, g, first, maxTokens, ToolReply(w, maxTokens, s, r))
  {
    var row := CallsRow(s.runSeq + 1, r);
    ToolReplyIs(w, maxTokens, s, r);
    AskedCalling(w, g, first, s, r, row);
    if Full(WithRow(s, row)) {
      RaisedTold(w, g, first, maxTokens, WithRow(s, row));
    } else {
      ActOnTold(w, g, first, maxTokens, Asked(WithRow(s, row), r), s.iteration + 1, r.toolCalls);
    }
  }

  lemma ChargedLeaves(s: State, r: ChatReply)
    ensures var s' := Charged(Read(Chatted(Read(s))), r);
            && s'.view.db == s.view.db && s'.iteration == s.iteration && s'.tally.cost == AddCost(s.tally.cost, r.cost)
  {
  }

  lemma KeptCharged(w: World, g: Given, first: Db, s: State, s': State, n: nat, r: ChatReply)
    requires Kept(w, g, first, s, n) && w.chat(n) == Reply(r)
    requires s'.view.db == s.view.db && s'.tally.cost == AddCost(s.tally.cost, r.cost)
    ensures Kept(w, g, first, s', n + 1)
  {
    CostAdded(s.tally.cost, Costs(w, n), r.cost);
    CostsSnoc(w, n);
  }

  lemma ChargedInHand(w: World, g: Given, first: Db, s: State, r: ChatReply)
    requires AtHead(w, g, first, s) && w.chat(s.iteration) == Reply(r)
    ensures InHand(w, g, first, Charged(Read(Chatted(Read(s))), r), r)
  {
    ChargedLeaves(s, r);
    KeptCharged(w, g, first, s, Charged(Read(Chatted(Read(s))), r), s.iteration, r);
  }

  lemma DecideTold(w: World, g: Given, first: Db, maxTokens: int, s: State, r: ChatReply)
    requires InHand(w, g, first, s, r)
    ensures TurnTold(w, g, first, maxTokens, Decide(w, maxTokens, s, r))
  {
    if r.toolCalls == [] {
      FinalReplyTold(w, g, first, maxTokens, s, r);
    } else {
      ToolReplyTold(w, g, first, maxTokens, s, r);
    }
  }

  /** A reply that came while the flag was set is not looked at. */
  lemma RepliedTold(w: World, g: Given, first: Db, maxTokens: int, s: State, r: ChatReply)
    requires AtHead(w, g, first, s) && w.chat(s.iteration) == Reply(r)
    ensures TurnTold(w, g, first, maxTokens, OnReply(w, maxTokens, Chatted(Read(s)), r))
  {
    var s1 := Chatted(Read(s));
    if Flag(w, s1.checks) {
      KeptSame(w, g, first, s, Read(s1), s.iteration);
      CancelledTold(w, g, first, maxTokens, Read(s1));
    } else {
      ChargedInHand(w, g, first, s, r);
      DecideTold(w, g, first, maxTokens, Charged(Read(s1), r), r);
    }
  }

  lemma TurnIsTold(w: World, g: Given, first: Db, maxTokens: int, s: State)
    requires AtHead(w, g, first, s) && s.iteration <= 50
    ensures TurnTold(w, g, first, maxTokens, TurnOf(w, maxTokens, s))
  {
    KeptSame(w, g, first, s, Read(s), s.iteration);
    KeptSame(w, g, first, s, Chatted(Read(s)), s.iteration);
    if Flag(w, s.checks) {
      CancelledTold(w, g, first, maxTokens, Read(s));
    } else if s.iteration >= MAX_ITERATIONS {
      FailedTold(w, g, first, maxTokens, Read(s), s.iteration, GuardrailExceeded);
    } else {
      match w.chat(s.iteration) {
        case ProviderError => FailedTold(w, g, first, maxTokens, Chatted(Read(s)), s.iteration, LlmProviderError);
        case Reply(r) => RepliedTold(w, g, first, maxTokens, s, r);
      }
    }
  }

  lemma {:induction false} IterateTold(w: World, g: Given, first: Db, maxTokens: int, s: State)
    requires AtHead(w, g, first, s) && s.iteration <= 50
    ensures OutcomeTold(w, g, first, maxTokens, Iterate(w, maxTokens, s))
    decreases if s.iteration < MAX_ITERATIONS then MAX_ITERATIONS - s.iteration else 0
  {
    TurnIsTold(w, g, first, maxTokens, s);
    AgainAdvances(w, maxTokens, s);
    var t := TurnOf(w, maxTokens, s);
    if t.Again? {
      IterateTold(w, g, first, maxTokens, t.state);
    }
  }

  // ----- an execution ----------------------------------------------------------------------

  /** The database an execution works on: with the user's message in a first one; as it was in a resume. */
  function Begun(start: Db, text: string): Db {
    if start.run.status == Paused then start
    else start.(messages := start.messages + [Message(User, text, [], None, |start.messages|)])
  }

  /** The calls a resume has to answer first, and whether the text approves them. */
  ghost predicate GivenTo(start: Db, text: string, g: Given) {
    if start.run.status == Paused then
      (g.calls == if start.run.pending.Some? then start.run.pending.value.calls else []) && (g.approved <==> Approves(text))
    else g.calls == []
  }

  lemma NothingSince(first: Db, db: Db)
    requires db.rows == first.rows && db.messages == first.messages
    ensures Since(first.rows, db.rows) == [] && Since(first.messages, db.messages) == []
  {
  }

  lemma FirstHead(w: World, g: Given, start: Db, text: string)
    requires start.run.status != Paused
    ensures AtHead(w, g, Begun(start, text), FirstState(OpeningView(start, text)))
  {
    NothingSince(Begun(start, text), OpeningView(start, text).db);
  }

  lemma SavedTold(w: World, g: Given, start: Db, text: string)
    requires start.run.status == Paused && g == Given(SavedBy(start).calls, IsApproval(text))
    ensures var b := SavedBatch(w, start, text);
            BatchTold(w, g, start, 0, 0, g.calls, b) && b.state.iteration == 0
  {
    NothingSince(start, Restored(start).view.db);
    assert Calling(w, g, start, Restored(start), 0, 0, g.calls, 0);
    RunBatchTold(w, g, start, Restored(start), 0, 0, g.calls, 0, g.approved);
    BatchKeeps(w, Restored(start), 0, SavedBy(start).calls, 0, IsApproval(text));
  }

  lemma ResumedHead(w: World, g: Given, first: Db, b: Batch)
    requires BatchTold(w, g, first, 0, 0, g.calls, b) && !b.Overflowed? && b.state.iteration == 0
    ensures AtHead(w, g, first, ResumedAt(b.state)) && ResumedAt(b.state).iteration == 0
  {
    ResumedLeaves(b.state);
    HeadFrom(w, g, first, b.state, ResumedAt(b.state));
  }

  lemma ThrownTold(w: World, g: Given, first: Db, maxTokens: int, b: Batch)
    requires BatchTold(w, g, first, 0, 0, g.calls, b) && b.Overflowed?
    ensures OutcomeTold(w, g, first, maxTokens, Thrown(b.state.view))
  {
  }

  lemma ResumeTold(w: World, g: Given, start: Db, maxTokens: int, text: string)
    requires start.run.status == Paused && g == Given(SavedBy(start).calls, IsApproval(text))
    ensures OutcomeTold(w, g, start, maxTokens, ResumeRun(w, maxTokens, start, text))
  {
    var b := SavedBatch(w, start, text);
    SavedTold(w, g, start, text);
    if b.Overflowed? {
      ThrownTold(w, g, start, maxTokens, b);
    } else {
      ResumedHead(w, g, start, b);
      IterateTold(w, g, start, maxTokens, ResumedAt(b.state));
    }
  }

  /** What every execution records is what its replies and tools said, row by row and message by message: the saved calls of
      a resume first, made when its text approves and denied when not, then reply after reply with the calls of each; and the
      answer, the failure, the pause or the open end has the cause it names. */
  lemma ExecutionTold(w: World, g: Given, start: Db, maxTokens: int, text: string)
    requires start.run.status == Paused || |start.messages| < 1000
    requires GivenTo(start, text, g)
    ensures OutcomeTold(w, g, Begun(start, text), maxTokens, Execute(w, maxTokens, start, text))
  {
    if start.run.status == Paused {
      ApprovalSpelled(text);
      ResumeTold(w, g, start, maxTokens, text);
    } else {
      FirstHead(w, g, start, text);
      IterateTold(w, g, Begun(start, text), maxTokens, FirstState(OpeningView(start, text)));
    }
  }

  /** A conversation of a thousand messages takes no new run. */
  lemma FullConversation(w: World, start: Db, maxTokens: int, text: string)
    requires start.run.status != Paused && |start.messages| >= 1000
    ensures var o := Execute(w, maxTokens, start, text); o.Settled? && TurnedAway(start, o.view)
  {
    TurnedAwayWhenFull(start);
  }
}
