/** A pause and its resume, against executing the same batch directly. */
module SimplePause {
  import opened Basics
  import opened Trace
  import opened Protocol
  import opened Invariants
  import opened Tools
  import opened SimpleSpec
  import opened SimpleAnswers

  /** Two states with the same rows, messages and counters. */
  predicate Alike(s: State, t: State) {
    && s.view.db.rows == t.view.db.rows
    && s.view.db.messages == t.view.db.messages
    && s.runSeq == t.runSeq && s.loops == t.loops && s.tally.usage == t.tally.usage
  }

  /** Same kind of end, in states related by `Alike`. */
  predicate AlikeBatches(b: Batch, c: Batch) {
    (b.Ran? <==> c.Ran?) && (b.Overflowed? <==> c.Overflowed?) && Alike(b.state, c.state)
  }

  /** The tools answer the batch of one execution as they answer that of the other. */
  predicate SameAnswers(w1: World, b1: nat, w2: World, b2: nat, calls: seq<ToolCall>) {
    forall i :: 0 <= i < |calls| ==> Result(w1, b1, calls, i, true) == Result(w2, b2, calls, i, true)
  }

  lemma AlikeCalled(s: State, t: State, call: ToolCall, payload: ToolPayload)
    requires Alike(s, t)
    ensures Alike(Called(s, call, payload, true), Called(t, call, payload, true))
    ensures Alike(WithResult(Called(s, call, payload, true), call, payload),
                  WithResult(Called(t, call, payload, true), call, payload))
  {
  }

  lemma {:induction false} BatchesAlike(w1: World, b1: nat, s: State, w2: World, b2: nat, t: State, calls: seq<ToolCall>, i: nat)
    requires Alike(s, t) && SameAnswers(w1, b1, w2, b2, calls)
    requires !RunBatch(w1, s, b1, calls, i, true).Stopped? && !RunBatch(w2, t, b2, calls, i, true).Stopped?
    ensures AlikeBatches(RunBatch(w1, s, b1, calls, i, true), RunBatch(w2, t, b2, calls, i, true))
    decreases |calls| - i
  {
    if i < |calls| {
      var payload := Result(w1, b1, calls, i, true);
      var s0, t0 := Read(s), Read(t);
      AlikeCalled(s0, t0, calls[i], payload);
      var s1, t1 := Called(s0, calls[i], payload, true), Called(t0, calls[i], payload, true);
      if !Full(s1) {
        BatchesAlike(w1, b1, WithResult(s1, calls[i], payload), w2, b2, WithResult(t1, calls[i], payload), calls, i + 1);
      }
    }
  }

  lemma {:induction false} BatchKeepsRun(w: World, s: State, batch: nat, calls: seq<ToolCall>, i: nat, approved: bool)
    ensures RunBatch(w, s, batch, calls, i, approved).state.view.db.run == s.view.db.run
    decreases |calls| - i
  {
    if i < |calls| && !Flag(w, s.checks) {
      var payload := Result(w, batch, calls, i, approved);
      var s1 := Called(Read(s), calls[i], payload, approved);
      if !Full(s1) {
        BatchKeepsRun(w, WithResult(s1, calls[i], payload), batch, calls, i + 1, approved);
      }
    }
  }

  /** The row of a run that is under way: what a resume restores it to. */
  predicate UnderWay(run: RunRow) {
    run.status == Running && run.reason == None && run.pending == None
  }

  /** What is stored while the batch of state `s` waits. */
  function PausedDb(s: State, calls: seq<ToolCall>, call: ToolCall): Db {
    PausedAt(s, calls, call).view.committed
  }

  lemma RestoredAlike(s: State, calls: seq<ToolCall>, call: ToolCall)
    ensures Alike(s, Restored(PausedDb(s, calls, call)))
    ensures SavedBy(PausedDb(s, calls, call)) == SnapshotOf(s, calls)
    ensures Restored(PausedDb(s, calls, call)).view.db.run == PausedRow(s.view.db.run, SnapshotOf(s, calls))
  {
  }

  /** The stored state and the counters after a batch and its commit, and after a resumed batch and its commit. */
  predicate SameStored(direct: State, resumed: State) {
    var d, r := Do(direct.view, Commit), ResumedAt(resumed);
    && r.view.db == d.db && r.view.committed == d.committed
    && r.runSeq == direct.runSeq && r.loops == direct.loops && r.tally.usage == direct.tally.usage
  }

  lemma AlikeStored(direct: State, resumed: State, run: RunRow)
    requires Alike(direct, resumed) && UnderWay(run)
    requires direct.view.db.run == run
    requires resumed.view.db.run == run.(status := resumed.view.db.run.status, reason := resumed.view.db.run.reason,
                                         pending := resumed.view.db.run.pending)
    ensures SameStored(direct, resumed)
  {
  }

  lemma StoredTheSame(w1: World, s: State, b: nat, w2: World, t: State, calls: seq<ToolCall>)
    requires Alike(s, t) && UnderWay(s.view.db.run) && SameAnswers(w1, b, w2, 0, calls)
    requires t.view.db.run == PausedRow(s.view.db.run, SnapshotOf(s, calls))
    requires !RunBatch(w1, s, b, calls, 0, true).Stopped? && !RunBatch(w2, t, 0, calls, 0, true).Stopped?
    ensures var direct, resumed := RunBatch(w1, s, b, calls, 0, true), RunBatch(w2, t, 0, calls, 0, true);
            (direct.Ran? <==> resumed.Ran?) && (direct.Ran? ==> SameStored(direct.state, resumed.state))
  {
    BatchesAlike(w1, b, s, w2, 0, t, calls, 0);
    BatchKeepsRun(w1, s, b, calls, 0, true);
    BatchKeepsRun(w2, t, 0, calls, 0, true);
    AlikeStored(RunBatch(w1, s, b, calls, 0, true).state, RunBatch(w2, t, 0, calls, 0, true).state, s.view.db.run);
  }

  /** Pausing on a batch and resuming it with an approval in a fresh executor is transparent. Let the model have
      just asked for `calls`, and let no cancel interrupt either side. Then the batch runs to its end directly
      exactly when it does after the resume, and the whole stored state (run row, step rows, messages), the row
      counter, the loops and the tokens are the same. */
  lemma ResumeIsTransparent(w1: World, w2: World, s: State, calls: seq<ToolCall>, call: ToolCall, text: string)
    requires UnderWay(s.view.db.run) && Approves(text)
    requires SameAnswers(w1, s.iteration + 1, w2, 0, calls)
    requires !RunBatch(w1, s, s.iteration + 1, calls, 0, true).Stopped?
    requires !SavedBatch(w2, PausedDb(s, calls, call), text).Stopped?
    ensures var direct := RunBatch(w1, s, s.iteration + 1, calls, 0, true);
            var resumed := SavedBatch(w2, PausedDb(s, calls, call), text);
            (direct.Ran? <==> resumed.Ran?) && (direct.Ran? ==> SameStored(direct.state, resumed.state))
  {
    var t := Restored(PausedDb(s, calls, call));
    ApprovalSpelled(text);
    RestoredAlike(s, calls, call);
    StoredTheSame(w1, s, s.iteration + 1, w2, t, calls);
  }

  // ----- every pause is such a pause -------------------------------------------------------

  /** The outcome is a pause taken in a state whose run is under way. */
  ghost predicate PausePoint(w: World, o: Outcome) {
    exists s: State, calls: seq<ToolCall>, call: ToolCall ::
      o == PausedAt(s, calls, call) && UnderWay(s.view.db.run) && FirstDestructive(w, calls) == Some(call)
  }

  lemma ClosedRow(v: View, c: Closing)
    requires WellFormed(c)
    ensures CloseView(v, c).db.run.status == c.status
  {
    CloseViewDb(v, c);
  }

  lemma FinalReplyCloses(s: State, r: ChatReply)
    ensures FinalReply(s, r).Settled? ==> FinalReply(s, r).view.db.run.status != Paused
  {
    var s1 := Reasoned(s, r);
    match EmptyReason(r) {
      case Some(why) => ClosedRow(s1.view, Closing(Failed, Some(why), None, s1.tally, s1.loops));
      case None =>
        var s2 := WithRow(s1, TextRow(s1.runSeq + 1, Assistant, r.content, r.usage));
        ClosedRow(Do(s2.view, AddMessage(AssistantSpeaker, r.content, [], None)),
                  Closing(Completed, None, Some(r.content), s2.tally, s2.loops + 1));
    }
  }

  /** A turn leaves the run row alone, or ends the execution: by closing, or at a pause point. */
  ghost predicate TurnUnderWay(w: World, t: Turn) {
    match t
    case Again(s) => UnderWay(s.view.db.run)
    case Over(o) => o.Settled? && o.view.db.run.status == Paused ==> PausePoint(w, o)
  }

  lemma AfterBatchUnderWay(w: World, maxTokens: int, b: Batch)
    requires UnderWay(b.state.view.db.run)
    ensures TurnUnderWay(w, AfterBatch(maxTokens, b))
  {
    ClosedRow(Do(b.state.view, Commit), Closing(Failed, Some(MaxTokens), None, b.state.tally, b.state.loops));
  }

  lemma WholeUnderWay(w: World, s: State, calls: seq<ToolCall>)
    requires UnderWay(s.view.db.run)
    ensures UnderWay(WholeBatch(w, s, calls).state.view.db.run)
  {
    BatchKeepsRun(w, s, s.iteration + 1, calls, 0, true);
  }

  lemma ActOnUnderWay(w: World, maxTokens: int, s: State, calls: seq<ToolCall>)
    requires UnderWay(s.view.db.run)
    ensures TurnUnderWay(w, ActOn(w, maxTokens, s, calls))
  {
    ActOnIs(w, maxTokens, s, calls);
    match FirstDestructive(w, calls) {
      case Some(call) => assert PausePoint(w, PausedAt(s, calls, call));
      case None =>
        WholeUnderWay(w, s, calls);
        AfterBatchUnderWay(w, maxTokens, WholeBatch(w, s, calls));
    }
  }

  lemma DecideUnderWay(w: World, maxTokens: int, s: State, r: ChatReply)
    requires UnderWay(s.view.db.run)
    ensures TurnUnderWay(w, Decide(w, maxTokens, s, r))
  {
    if r.toolCalls == [] {
      FinalReplyCloses(s, r);
    } else {
      ActOnUnderWay(w, maxTokens, Asked(WithRow(s, CallsRow(s.runSeq + 1, r)), r), r.toolCalls);
    }
  }

  lemma TurnOfUnderWay(w: World, maxTokens: int, s: State)
    requires UnderWay(s.view.db.run)
    ensures TurnUnderWay(w, TurnOf(w, maxTokens, s))
  {
    ClosedRow(s.view, Closing(Failed, Some(GuardrailExceeded), None, s.tally, s.loops));
    ClosedRow(Do(s.view, Ask), Closing(Failed, Some(LlmProviderError), None, s.tally, s.loops));
    if !Flag(w, s.checks) && s.iteration < MAX_ITERATIONS && w.chat(s.iteration).Reply? {
      var r := w.chat(s.iteration).reply;
      DecideUnderWay(w, maxTokens, Charged(Read(Chatted(Read(s))), r), r);
    }
  }

  /** Every pause of a loop whose run is under way is one `ResumeIsTransparent` and `DenialKeepsTheShape` speak about. */
  lemma {:induction false} EveryPauseIsAPausePoint(w: World, maxTokens: int, s: State)
    requires UnderWay(s.view.db.run)
    ensures var o := Iterate(w, maxTokens, s); o.Settled? && o.view.db.run.status == Paused ==> PausePoint(w, o)
    decreases if s.iteration < MAX_ITERATIONS then MAX_ITERATIONS - s.iteration else 0
  {
    TurnOfUnderWay(w, maxTokens, s);
    AgainAdvances(w, maxTokens, s);
    var t := TurnOf(w, maxTokens, s);
    if t.Again? {
      EveryPauseIsAPausePoint(w, maxTokens, t.state);
    }
  }

  lemma OpeningUnderWay(start: Db, text: string)
    requires start.run == FRESH_RUN
    ensures UnderWay(FirstState(OpeningView(start, text)).view.db.run)
  {
  }

  /** So is every pause of an execution, from a first start and from a pause. */
  lemma ExecutionPauses(w: World, maxTokens: int, start: Db, text: string)
    requires start.run == FRESH_RUN || start.run.status == Paused
    ensures var o := Execute(w, maxTokens, start, text); o.Settled? && o.view.db.run.status == Paused ==> PausePoint(w, o)
  {
    if start.run.status == Paused {
      var b := SavedBatch(w, start, text);
      if !b.Overflowed? {
        EveryPauseIsAPausePoint(w, maxTokens, ResumedAt(b.state));
      }
    } else if |start.messages| < HARD_CAP {
      OpeningUnderWay(start, text);
      EveryPauseIsAPausePoint(w, maxTokens, FirstState(OpeningView(start, text)));
    }
  }

  // ----- denial ----------------------------------------------------------------------------

  /** A step row and a message without what a tool said. */
  function RowShape(row: StepRow): StepRow {
    row.(content := None, result := None)
  }

  function MessageShape(m: Message): Message {
    m.(content := "")
  }

  function RowShapes(rows: seq<StepRow>): seq<StepRow> {
    seq(|rows|, i requires 0 <= i < |rows| => RowShape(rows[i]))
  }

  function MessageShapes(ms: seq<Message>): seq<Message> {
    seq(|ms|, i requires 0 <= i < |ms| => MessageShape(ms[i]))
  }

  /** Same number of rows and messages, same columns but for what the tools said, same counters. */
  predicate SameShape(s: State, t: State) {
    && RowShapes(s.view.db.rows) == RowShapes(t.view.db.rows)
    && MessageShapes(s.view.db.messages) == MessageShapes(t.view.db.messages)
    && |s.view.db.messages| == |t.view.db.messages|
    && s.runSeq == t.runSeq && s.loops == t.loops && s.tally.usage == t.tally.usage
  }

  lemma RowShapesSnoc(rows: seq<StepRow>, row: StepRow)
    ensures RowShapes(rows + [row]) == RowShapes(rows) + [RowShape(row)]
  {
  }

  lemma MessageShapesSnoc(ms: seq<Message>, m: Message)
    ensures MessageShapes(ms + [m]) == MessageShapes(ms) + [MessageShape(m)]
  {
  }

  lemma ShapeCalled(s: State, t: State, call: ToolCall, p: ToolPayload, q: ToolPayload, a1: bool, a2: bool)
    requires SameShape(s, t)
    ensures SameShape(Called(s, call, p, a1), Called(t, call, q, a2))
  {
    RowShapesSnoc(s.view.db.rows, ToolResultRow(s.runSeq + 1, call, p));
    RowShapesSnoc(t.view.db.rows, ToolResultRow(t.runSeq + 1, call, q));
  }

  lemma ShapeAnswered(s: State, t: State, call: ToolCall, p: ToolPayload, q: ToolPayload)
    requires SameShape(s, t)
    ensures SameShape(WithResult(s, call, p), WithResult(t, call, q))
  {
    var n := |s.view.db.messages|;
    MessageShapesSnoc(s.view.db.messages, Message(ToolSpeaker, p.content, [], Some(call.id), n));
    MessageShapesSnoc(t.view.db.messages, Message(ToolSpeaker, q.content, [], Some(call.id), n));
  }

  /** One call, executed, approved or denied in any combination. */
  lemma ShapeStep(s: State, t: State, call: ToolCall, p: ToolPayload, q: ToolPayload, a1: bool, a2: bool)
    requires SameShape(s, t)
    ensures var s1, t1 := Called(s, call, p, a1), Called(t, call, q, a2);
            SameShape(s1, t1) && (Full(s1) <==> Full(t1)) && SameShape(WithResult(s1, call, p), WithResult(t1, call, q))
  {
    ShapeCalled(s, t, call, p, q, a1, a2);
    ShapeAnswered(Called(s, call, p, a1), Called(t, call, q, a2), call, p, q);
  }

  /** Same end, same shape. */
  predicate SameEnd(b: Batch, c: Batch) {
    (b.Ran? <==> c.Ran?) && (b.Overflowed? <==> c.Overflowed?) && SameShape(b.state, c.state)
  }

  lemma EndShape(b: Batch, c: Batch)
    requires SameShape(b.state, c.state) && ((b.Ran? && c.Ran?) || (b.Overflowed? && c.Overflowed?))
    ensures SameEnd(b, c)
  {
  }

  lemma {:induction false} BatchShape(w1: World, b1: nat, s: State, a1: bool, w2: World, b2: nat, t: State, a2: bool,
                                      calls: seq<ToolCall>, i: nat)
    requires SameShape(s, t)
    requires !RunBatch(w1, s, b1, calls, i, a1).Stopped? && !RunBatch(w2, t, b2, calls, i, a2).Stopped?
    ensures SameEnd(RunBatch(w1, s, b1, calls, i, a1), RunBatch(w2, t, b2, calls, i, a2))
    decreases |calls| - i
  {
    if i < |calls| {
      var p, q := Result(w1, b1, calls, i, a1), Result(w2, b2, calls, i, a2);
      var s0, t0 := Read(s), Read(t);
      ShapeStep(s0, t0, calls[i], p, q, a1, a2);
      BatchIs(w1, s, b1, calls, i, a1);
      BatchIs(w2, t, b2, calls, i, a2);
      var s1, t1 := Called(s0, calls[i], p, a1), Called(t0, calls[i], q, a2);
      if Full(s1) {
        EndShape(Overflowed(s1), Overflowed(t1));
      } else {
        BatchShape(w1, b1, WithResult(s1, calls[i], p), a1, w2, b2, WithResult(t1, calls[i], q), a2, calls, i + 1);
      }
    }
  }

  /** What a denied call leaves: an error row and a tool message that both say so. */
  predicate Denied(row: StepRow, m: Message, call: ToolCall) {
    && row.result == Some(ToolPayload(true, "user_denied")) && row.content == Some("user_denied")
    && row.role == ToolRole && row.toolName == Some(call.name)
    && m.role == ToolSpeaker && m.callId == Some(call.id) && m.content == "user_denied"
  }

  /** From row `r` and message `m` on there are denials of the first `i` calls, in order, and nothing else. */
  predicate DeniedFrom(s: State, calls: seq<ToolCall>, i: nat, r: nat, m: nat)
    requires i <= |calls|
  {
    && |s.view.db.rows| == r + i && |s.view.db.messages| == m + i
    && forall j :: 0 <= j < i ==> Denied(s.view.db.rows[r + j], s.view.db.messages[m + j], calls[j])
  }

  lemma OneMoreDenied(s: State, calls: seq<ToolCall>, i: nat, r: nat, m: nat)
    requires i < |calls| && DeniedFrom(s, calls, i, r, m)
    ensures var p := ToolPayload(true, "user_denied");
            DeniedFrom(WithResult(Called(s, calls[i], p, false), calls[i], p), calls, i + 1, r, m)
  {
  }

  predicate InvokesNothing(log: seq<Action>) {
    forall i :: 0 <= i < |log| ==> !log[i].Invoke?
  }

  lemma {:induction false} DeniedBatch(w: World, s: State, batch: nat, calls: seq<ToolCall>, i: nat, r: nat, m: nat)
    requires i <= |calls| && DeniedFrom(s, calls, i, r, m) && InvokesNothing(s.view.log)
    ensures var b := RunBatch(w, s, batch, calls, i, false);
            && InvokesNothing(b.state.view.log)
            && (b.Ran? ==> DeniedFrom(b.state, calls, |calls|, r, m))
    decreases |calls| - i
  {
    if i < |calls| && !Flag(w, s.checks) {
      var s0 := Read(s);
      var p := Result(w, batch, calls, i, false);
      var s1 := Called(s0, calls[i], p, false);
      if !Full(s1) {
        OneMoreDenied(s0, calls, i, r, m);
        DeniedBatch(w, WithResult(s1, calls[i], p), batch, calls, i + 1, r, m);
      }
    }
  }

  /** A resume with any other text: the batch leaves rows and messages of the same shape as executing it would, with
      the same counters, but every result says `user_denied` and no tool is invoked. */
  lemma DenialKeepsTheShape(w1: World, w2: World, s: State, calls: seq<ToolCall>, call: ToolCall, text: string)
    requires !Approves(text)
    requires !RunBatch(w1, s, s.iteration + 1, calls, 0, true).Stopped?
    requires !SavedBatch(w2, PausedDb(s, calls, call), text).Stopped?
    ensures var direct := RunBatch(w1, s, s.iteration + 1, calls, 0, true);
            var denied := SavedBatch(w2, PausedDb(s, calls, call), text);
            && (direct.Ran? <==> denied.Ran?)
            && SameShape(direct.state, denied.state)
            && InvokesNothing(denied.state.view.log)
            && (denied.Ran? ==> DeniedFrom(denied.state, calls, |calls|, |s.view.db.rows|, |s.view.db.messages|))
  {
    var t := Restored(PausedDb(s, calls, call));
    ApprovalSpelled(text);
    RestoredAlike(s, calls, call);
    BatchShape(w1, s.iteration + 1, s, true, w2, 0, t, false, calls, 0);
    DeniedBatch(w2, t, 0, calls, 0, |s.view.db.rows|, |s.view.db.messages|);
  }
}
