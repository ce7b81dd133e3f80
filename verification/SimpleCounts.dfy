/** What Simple mode counts: `loops` are the assistant rows of the trace, across pauses, and an execution asks the
    provider at most fifty times. */
module SimpleCounts {
  import opened Basics
  import opened Sequences
  import opened Trace
  import opened Protocol
  import opened Invariants
  import opened Tools
  import opened SimpleSpec

  function AssistantRows(rows: seq<StepRow>): nat {
    if rows == [] then 0
    else AssistantRows(rows[..|rows| - 1]) + (if rows[|rows| - 1].role.Assistant? then 1 else 0)
  }

  lemma AssistantSnoc(rows: seq<StepRow>, row: StepRow)
    ensures AssistantRows(rows + [row]) == AssistantRows(rows) + if row.role.Assistant? then 1 else 0
  {
    Snoc(rows, row);
  }

  /** At the head of an iteration: one assistant row per loop, one provider call per iteration. */
  predicate Counted(s: State) {
    && AssistantRows(s.view.db.rows) == s.loops
    && Asks(s.view.log) == s.iteration <= MAX_ITERATIONS
  }

  /** An outcome whose stored loops are the assistant rows, reached with at most fifty provider calls. */
  predicate OutcomeCounted(o: Outcome) {
    && Asks(o.view.log) <= MAX_ITERATIONS
    && (o.Settled? && o.view.db.run.status == Paused ==>
          o.view.db.run.pending.Some? && o.view.db.run.pending.value.loops == AssistantRows(o.view.db.rows))
    && (o.Settled? && o.view.db.run.status != Paused ==> o.view.db.run.loops == AssistantRows(o.view.db.rows))
  }

  // ----- one step --------------------------------------------------------------------------

  /** Same assistant rows, same provider calls, same counters. */
  predicate SameCounts(s: State, t: State) {
    && AssistantRows(s.view.db.rows) == AssistantRows(t.view.db.rows)
    && Asks(s.view.log) == Asks(t.view.log)
    && s.loops == t.loops && s.iteration == t.iteration
  }

  lemma RowCounts(v: View, row: StepRow)
    ensures Asks(Do(v, AddRow(row)).log) == Asks(v.log)
    ensures AssistantRows(Do(v, AddRow(row)).db.rows) == AssistantRows(v.db.rows) + if row.role.Assistant? then 1 else 0
  {
    AsksSnoc(v.log, AddRow(row));
    AssistantSnoc(v.db.rows, row);
  }

  lemma OtherCounts(v: View, a: Action)
    requires a.AddMessage? || a.Invoke?
    ensures Asks(Do(v, a).log) == Asks(v.log) && Do(v, a).db.rows == v.db.rows
  {
    AsksSnoc(v.log, a);
  }

  lemma InvokeCounts(v: View, call: ToolCall, approved: bool)
    ensures var u := if approved then Do(v, Invoke(call)) else v; Asks(u.log) == Asks(v.log) && u.db.rows == v.db.rows
  {
    OtherCounts(v, Invoke(call));
  }

  lemma CallCounts(s: State, call: ToolCall, payload: ToolPayload, approved: bool)
    ensures SameCounts(s, Called(s, call, payload, approved))
  {
    var v := if approved then Do(s.view, Invoke(call)) else s.view;
    CalledIs(s, call, payload, approved);
    InvokeCounts(s.view, call, approved);
    RowCounts(v, ToolResultRow(s.runSeq + 1, call, payload));
  }

  lemma ResultCounts(s: State, call: ToolCall, payload: ToolPayload)
    ensures SameCounts(s, WithResult(s, call, payload))
  {
    OtherCounts(s.view, AddMessage(ToolSpeaker, payload.content, [], Some(call.id)));
  }

  lemma {:induction false} BatchCounts(w: World, s: State, batch: nat, calls: seq<ToolCall>, i: nat, approved: bool)
    ensures SameCounts(s, RunBatch(w, s, batch, calls, i, approved).state)
    decreases |calls| - i
  {
    if i < |calls| {
      BatchIs(w, s, batch, calls, i, approved);
      var payload := Result(w, batch, calls, i, approved);
      var s1 := Called(Read(s), calls[i], payload, approved);
      CallCounts(Read(s), calls[i], payload, approved);
      if !Flag(w, s.checks) && !Full(s1) {
        ResultCounts(s1, calls[i], payload);
        BatchCounts(w, WithResult(s1, calls[i], payload), batch, calls, i + 1, approved);
      }
    }
  }

  lemma ClosedCounts(v: View, c: Closing)
    requires WellFormed(c) && c.loops == AssistantRows(v.db.rows) && Asks(v.log) <= MAX_ITERATIONS
    ensures OutcomeCounted(Settled(CloseView(v, c)))
  {
    CloseViewDb(v, c);
  }

  lemma FailedCounts(s: State, reason: Reason)
    requires AssistantRows(s.view.db.rows) == s.loops && Asks(s.view.log) <= MAX_ITERATIONS
    ensures OutcomeCounted(FailedAt(s, reason))
  {
    ClosedCounts(s.view, Closing(Failed, Some(reason), None, s.tally, s.loops));
  }

  lemma ReasoningCounts(s: State, r: ChatReply)
    ensures SameCounts(s, Reasoned(s, r))
  {
    if !Blank(r.reasoning) {
      AsksSnoc(s.view.log, Emit(Working(Reasoning(Strip(r.reasoning)))));
    }
  }

  /** In the middle of an iteration whose call has been made. */
  predicate Midway(s: State) {
    && AssistantRows(s.view.db.rows) == s.loops
    && Asks(s.view.log) == s.iteration + 1 <= MAX_ITERATIONS
  }

  lemma ConcludedCounts(s: State, r: ChatReply)
    requires Midway(s)
    ensures OutcomeCounted(Concluded(s, r))
  {
    ConcludedIs(s, r);
    if EmptyReason(r).Some? {
      FailedCounts(s, EmptyReason(r).value);
    } else {
      var row := TextRow(s.runSeq + 1, Assistant, r.content, r.usage);
      RowCounts(s.view, row);
      CompletedCounts(WithRow(s, row), r.content);
    }
  }

  lemma CompletedCounts(s: State, answer: string)
    requires AssistantRows(s.view.db.rows) == s.loops + 1 && Asks(s.view.log) <= MAX_ITERATIONS
    ensures OutcomeCounted(CompletedAt(s, answer))
  {
    var a := AddMessage(AssistantSpeaker, answer, [], None);
    OtherCounts(s.view, a);
    ClosedCounts(Do(s.view, a), Closing(Completed, None, Some(answer), s.tally, s.loops + 1));
  }

  predicate TurnCounted(t: Turn) {
    match t
    case Again(s) => Counted(s)
    case Over(o) => OutcomeCounted(o)
  }

  lemma AskedCounts(s: State, r: ChatReply)
    requires Midway(s)
    ensures var s1 := WithRow(s, CallsRow(s.runSeq + 1, r));
            Asks(s1.view.log) <= MAX_ITERATIONS && Midway(Asked(s1, r))
  {
    var row := CallsRow(s.runSeq + 1, r);
    RowCounts(s.view, row);
    OtherCounts(Do(s.view, AddRow(row)), AddMessage(AssistantSpeaker, r.content, r.toolCalls, None));
  }

  lemma AfterBatchCounts(maxTokens: int, b: Batch)
    requires Midway(b.state)
    ensures TurnCounted(AfterBatch(maxTokens, b))
  {
    AsksSnoc(b.state.view.log, Commit);
    FailedCounts(Committed(b.state), MaxTokens);
  }

  lemma WholeCounts(w: World, s: State, calls: seq<ToolCall>)
    requires Midway(s)
    ensures Midway(WholeBatch(w, s, calls).state)
  {
    BatchCounts(w, s, s.iteration + 1, calls, 0, true);
  }

  lemma ActOnCounts(w: World, maxTokens: int, s: State, calls: seq<ToolCall>)
    requires Midway(s)
    ensures TurnCounted(ActOn(w, maxTokens, s, calls))
  {
    ActOnIs(w, maxTokens, s, calls);
    match FirstDestructive(w, calls) {
      case Some(call) =>
        var p := SnapshotOf(s, calls);
        AsksSnoc(s.view.log, Pause(p));
        AsksSnoc(Do(s.view, Pause(p)).log, Emit(InputRequiredEvent(call)));
      case None =>
        WholeCounts(w, s, calls);
        AfterBatchCounts(maxTokens, WholeBatch(w, s, calls));
    }
  }

  lemma DecideCounts(w: World, maxTokens: int, s: State, r: ChatReply)
    requires Midway(s)
    ensures TurnCounted(Decide(w, maxTokens, s, r))
  {
    DecideIs(w, maxTokens, s, r);
    if r.toolCalls == [] {
      ReasoningCounts(s, r);
      ConcludedCounts(Reasoned(s, r), r);
    } else {
      AskedCounts(s, r);
      ActOnCounts(w, maxTokens, Asked(WithRow(s, CallsRow(s.runSeq + 1, r)), r), r.toolCalls);
    }
  }

  lemma OnOutcomeCounts(w: World, maxTokens: int, s: State)
    requires Midway(s)
    ensures TurnCounted(OnOutcome(w, maxTokens, s))
  {
    match w.chat(s.iteration) {
      case ProviderError => FailedCounts(s, LlmProviderError);
      case Reply(r) => DecideCounts(w, maxTokens, Charged(Read(s), r), r);
    }
  }

  lemma TurnCounts(w: World, maxTokens: int, s: State)
    requires Counted(s)
    ensures TurnCounted(TurnOf(w, maxTokens, s))
  {
    if s.iteration >= MAX_ITERATIONS {
      FailedCounts(Read(s), GuardrailExceeded);
    } else {
      AsksSnoc(s.view.log, Ask);
      OnOutcomeCounts(w, maxTokens, Chatted(Read(s)));
    }
  }

  lemma {:induction false} IterateCounts(w: World, maxTokens: int, s: State)
    requires Counted(s)
    ensures OutcomeCounted(Iterate(w, maxTokens, s))
    decreases if s.iteration < MAX_ITERATIONS then MAX_ITERATIONS - s.iteration else 0
  {
    TurnCounts(w, maxTokens, s);
    AgainAdvances(w, maxTokens, s);
    var t := TurnOf(w, maxTokens, s);
    if t.Again? {
      IterateCounts(w, maxTokens, t.state);
    }
  }

  // ----- executions ------------------------------------------------------------------------

  /** A fresh run, or a paused one whose snapshot counts its assistant rows. */
  predicate CountedStart(start: Db) {
    if start.run.status == Paused then
      start.run.pending.Some? && start.run.pending.value.loops == AssistantRows(start.rows)
    else start.rows == []
  }

  lemma ResumeCounts(start: Db, w: World, maxTokens: int, text: string)
    requires CountedStart(start) && start.run.status == Paused
    ensures OutcomeCounted(ResumeRun(w, maxTokens, start, text))
  {
    var none: seq<Action> := [];
    AsksSnoc(none, Emit(Working(Plain)));
    BatchCounts(w, Restored(start), 0, SavedBy(start).calls, 0, IsApproval(text));
    var s := SavedBatch(w, start, text).state;
    AsksSnoc(s.view.log, Resume);
    AsksSnoc(Do(s.view, Resume).log, Commit);
    IterateCounts(w, maxTokens, ResumedAt(s));
  }

  lemma ContextFullCounts(start: Db)
    requires start.rows == []
    ensures OutcomeCounted(Settled(ContextFullView(View(start, start, []))))
  {
    var v := View(start, start, []);
    AsksSnoc(v.log, Finalize(ContextFullClosing()));
    AsksSnoc(Do(v, Finalize(ContextFullClosing())).log, Emit(Working(Plain)));
    AsksSnoc(Do(Do(v, Finalize(ContextFullClosing())), Emit(Working(Plain))).log, Emit(FailedEvent(ContextFull)));
  }

  /** Each execution asks the provider at most fifty times; whenever it settles inline, the `loops` it stores (on the
      row, or in the snapshot a resume goes on from) are the assistant rows written so far, before and after pauses. */
  lemma LoopsAreAssistantRows(start: Db, w: World, maxTokens: int, text: string)
    requires CountedStart(start)
    ensures OutcomeCounted(Execute(w, maxTokens, start, text))
  {
    if start.run.status == Paused {
      ResumeCounts(start, w, maxTokens, text);
    } else if |start.messages| >= HARD_CAP {
      ContextFullCounts(start);
    } else {
      OpeningLog(start, text);
      IterateCounts(w, maxTokens, FirstState(OpeningView(start, text)));
    }
  }
}
