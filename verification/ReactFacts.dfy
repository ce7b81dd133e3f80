/** What every turn of the ReAct loop keeps, and what its exits leave. */
module ReactFacts {
  import opened Basics
  import opened Sequences
  import opened Trace
  import opened Protocol
  import opened Invariants
  import opened Tools
  import opened Similarity
  import opened Synthesis
  import opened ReactSpec

  // ----- the trace language ----------------------------------------------------------------

  /** Reading a trace left to right: (error | thought action observation^calls)*, then possibly one ending: a
      final thought, a synthesis, or an action whose observations were cut short. */
  datatype TracePhase = Ready | AfterThought | Observing(left: nat) | AfterSynthesis | Broken

  function Expecting(n: nat): TracePhase {
    if n == 0 then Ready else Observing(n)
  }

  function NextPhase(p: TracePhase, row: StepRow): TracePhase {
    match row.role
    case ErrorRole => if p.Ready? then Ready else Broken
    case Thought => if p.Ready? then AfterThought else Broken
    case ActionRole => if p.AfterThought? && row.args.CallArgs? then Expecting(|row.args.calls|) else Broken
    case Observation => if p.Observing? && p.left > 0 then Expecting(p.left - 1) else Broken
    case Synthesis => if p.Ready? then AfterSynthesis else Broken
    case _ => Broken
  }

  function PhaseOf(rows: seq<StepRow>): TracePhase {
    if rows == [] then Ready else NextPhase(PhaseOf(rows[..|rows| - 1]), rows[|rows| - 1])
  }

  lemma PhaseSnoc(rows: seq<StepRow>, row: StepRow)
    ensures PhaseOf(rows + [row]) == NextPhase(PhaseOf(rows), row)
  {
    Snoc(rows, row);
  }

  // ----- the books -------------------------------------------------------------------------

  /** The totals are the sums over the rows, plus the embedding tokens, plus `owed`: what the reply in hand
      cost before its row is written. */
  predicate Owing(l: Loop, owed: Usage) {
    && Numbered(l.view.db.rows) && |l.view.db.rows| == l.runSeq
    && l.tally.usage.tokensIn == SumUsage(l.view.db.rows).tokensIn + l.embedIn + owed.tokensIn
    && l.tally.usage.tokensOut == SumUsage(l.view.db.rows).tokensOut + owed.tokensOut
  }

  /** The rows at `p` in the trace language, books with `owed` outstanding, `asks` provider calls made. */
  predicate At(start: Db, l: Loop, owed: Usage, p: TracePhase, asks: nat) {
    && Calm(start, l.view) && Owing(l, owed) && PhaseOf(l.view.db.rows) == p && Asks(l.view.log) == asks
  }

  lemma OwingSame(l: Loop, l': Loop, owed: Usage)
    requires Owing(l, owed)
    requires l'.view.db.rows == l.view.db.rows && l'.runSeq == l.runSeq && l'.tally == l.tally && l'.embedIn == l.embedIn
    ensures Owing(l', owed)
  {
  }

  lemma RowsKept(v: View, a: Action)
    requires !a.AddRow? && !a.PatchRow?
    ensures Do(v, a).db.rows == v.db.rows
  {
  }

  /** An action that leaves the rows alone leaves everything but the call count alone. */
  lemma StepAt(start: Db, l: Loop, owed: Usage, p: TracePhase, asks: nat, a: Action)
    requires At(start, l, owed, p, asks) && CalmAction(a) && !a.AddRow? && !a.PatchRow?
    ensures At(start, l.(view := Do(l.view, a)), owed, p, asks + if a.Ask? then 1 else 0)
  {
    CalmStep(start, l.view, a);
    RowsKept(l.view, a);
    OwingSame(l, l.(view := Do(l.view, a)), owed);
  }

  lemma OwingRow(l: Loop, owed: Usage, row: StepRow)
    requires Owing(l, owed) && row.seqNo == l.runSeq + 1
    ensures row.usage == Some(owed) ==> Owing(WithRow(l, row), NO_USAGE)
    ensures row.usage == None ==> Owing(WithRow(l, row), owed)
  {
    NumberedSnoc(l.view.db.rows, row);
    SumSnoc(l.view.db.rows, row);
  }

  /** Writing the row of the reply in hand settles what is owed. */
  lemma RowAt(start: Db, l: Loop, owed: Usage, p: TracePhase, asks: nat, row: StepRow)
    requires At(start, l, owed, p, asks) && row.seqNo == l.runSeq + 1
    ensures row.usage == Some(owed) ==> At(start, WithRow(l, row), NO_USAGE, NextPhase(p, row), asks)
    ensures row.usage == None ==> At(start, WithRow(l, row), owed, NextPhase(p, row), asks)
  {
    CalmStep(start, l.view, AddRow(row));
    OwingRow(l, owed, row);
    PhaseSnoc(l.view.db.rows, row);
  }

  // ----- comparing candidates --------------------------------------------------------------

  lemma ChargeAt(start: Db, l: Loop, owed: Usage, p: TracePhase, asks: nat, text: string, tokensIn: int, cost: Option<real>)
    requires At(start, l, owed, p, asks)
    ensures At(start, ChargeEmbedding(l, text, tokensIn, cost), owed, p, asks)
  {
  }

  /** What a comparison leaves: the books still balance, and only the cache and the embedding counters moved. */
  predicate ComparedAt(start: Db, l: Loop, l': Loop, owed: Usage, p: TracePhase, asks: nat) {
    && At(start, l', owed, p, asks)
    && l'.view == l.view && l'.loops == l.loops && l'.prevText == l.prevText
    && l'.scratchpad == l.scratchpad && l'.runSeq == l.runSeq && l'.candidates == l.candidates
    && l'.tally.usage.tokensOut == l.tally.usage.tokensOut
  }

  lemma EmbeddedAt(start: Db, l: Loop, owed: Usage, p: TracePhase, asks: nat, text: string, tokensIn: int, cost: Option<real>,
                   vector: seq<real>)
    requires At(start, l, owed, p, asks)
    ensures ComparedAt(start, l, ChargeEmbedding(l, text, tokensIn, cost).(prevVector := Some(vector)), owed, p, asks)
  {
    ChargeAt(start, l, owed, p, asks, text, tokensIn, cost);
  }

  lemma PreviousAt(start: Db, w: World, l: Loop, owed: Usage, p: TracePhase, asks: nat, cached: bool)
    requires At(start, l, owed, p, asks) && l.prevText.Some?
    ensures ComparedAt(start, l, PreviousVector(w, l, cached).loop, owed, p, asks)
  {
    if !(cached && l.prevVector.Some?) && w.embed(l.prevText.value).Embedded? {
      var e := w.embed(l.prevText.value);
      EmbeddedAt(start, l, owed, p, asks, l.prevText.value, e.tokensIn, e.cost, e.vector);
    }
  }

  lemma NextAt(start: Db, w: World, l: Loop, owed: Usage, p: TracePhase, asks: nat, text: string)
    requires At(start, l, owed, p, asks)
    ensures ComparedAt(start, l, MeasureNext(w, l, text).loop, owed, p, asks)
  {
    if w.embed(text).Embedded? {
      var e := w.embed(text);
      EmbeddedAt(start, l, owed, p, asks, text, e.tokensIn, e.cost, e.vector);
    }
  }

  lemma CompareAt(start: Db, w: World, l: Loop, owed: Usage, p: TracePhase, asks: nat, text: string, cached: bool)
    requires At(start, l, owed, p, asks)
    ensures ComparedAt(start, l, Compare(w, l, text, cached).loop, owed, p, asks)
  {
    if l.loops >= 2 && l.prevText.Some? {
      CompareIs(w, l, text, cached);
      PreviousAt(start, w, l, owed, p, asks, cached);
      var c := PreviousVector(w, l, cached);
      if c.Measured? {
        NextAt(start, w, c.loop, owed, p, asks, text);
      }
    }
  }

  // ----- recording a tool turn -------------------------------------------------------------

  lemma PatchedBooks(l: Loop, l': Loop, owed: Usage, row: StepRow)
    requires Owing(l, owed) && row.seqNo == l.runSeq + 1 && row.usage == Some(owed)
    requires l'.view.db.rows == l.view.db.rows + [row] && l'.runSeq == l.runSeq + 1
    requires l'.tally == l.tally && l'.embedIn == l.embedIn
    ensures Owing(l', NO_USAGE)
  {
    OwingRow(l, owed, row);
    OwingSame(WithRow(l, row), l', NO_USAGE);
  }

  lemma PatchedCalm(start: Db, l: Loop, row: StepRow, value: real)
    requires Calm(start, l.view) && row.seqNo == l.runSeq + 1
    ensures var v := AddedAndPatched(l, row, value).view; Calm(start, v) && Asks(v.log) == Asks(l.view.log)
  {
    CalmStep(start, l.view, AddRow(row));
    CalmStep(start, Do(l.view, AddRow(row)), PatchRow(l.runSeq + 1, SetSimilarity(value)));
  }

  lemma PatchedRows(l: Loop, row: StepRow, value: real)
    requires Numbered(l.view.db.rows) && |l.view.db.rows| == l.runSeq && row.seqNo == l.runSeq + 1
    ensures AddedAndPatched(l, row, value).view.db.rows == l.view.db.rows + [Patched(row, SetSimilarity(value))]
  {
    PatchHitsOnlyTheNewRow(l.view, row, SetSimilarity(value));
  }

  lemma AtFrom(start: Db, l: Loop, owed: Usage, p: TracePhase, asks: nat)
    requires Calm(start, l.view) && Asks(l.view.log) == asks
    requires Owing(l, owed)
    requires PhaseOf(l.view.db.rows) == p
    ensures At(start, l, owed, p, asks)
  {
  }

  lemma PatchedOwing(l: Loop, owed: Usage, row: StepRow, value: real)
    requires Owing(l, owed) && row.seqNo == l.runSeq + 1 && row.usage == Some(owed)
    ensures Owing(AddedAndPatched(l, row, value), NO_USAGE)
  {
    PatchedRows(l, row, value);
    PatchedBooks(l, AddedAndPatched(l, row, value), owed, Patched(row, SetSimilarity(value)));
  }

  lemma PatchedPhase(l: Loop, row: StepRow, value: real)
    requires Numbered(l.view.db.rows) && |l.view.db.rows| == l.runSeq && row.seqNo == l.runSeq + 1
    ensures PhaseOf(AddedAndPatched(l, row, value).view.db.rows) == NextPhase(PhaseOf(l.view.db.rows), row)
  {
    PatchedRows(l, row, value);
    PhaseSnoc(l.view.db.rows, Patched(row, SetSimilarity(value)));
  }

  /** Patching the row just added changes that row only, and no total. */
  lemma PatchAt(start: Db, l: Loop, owed: Usage, p: TracePhase, asks: nat, row: StepRow, value: real)
    requires At(start, l, owed, p, asks) && row.seqNo == l.runSeq + 1 && row.usage == Some(owed)
    ensures At(start, AddedAndPatched(l, row, value), NO_USAGE, NextPhase(p, row), asks)
  {
    PatchedCalm(start, l, row, value);
    PatchedOwing(l, owed, row, value);
    PatchedPhase(l, row, value);
    AtFrom(start, AddedAndPatched(l, row, value), NO_USAGE, NextPhase(p, row), asks);
  }

  lemma ThoughtAt(start: Db, l: Loop, asks: nat, r: ChatReply, thought: string, similarity: Option<real>)
    requires At(start, l, r.usage, Ready, asks)
    ensures At(start, RecordThought(l, r, thought, similarity), NO_USAGE, AfterThought, asks)
  {
    var row := ThoughtRow(l, r, thought);
    match similarity {
      case None => RowAt(start, l, r.usage, Ready, asks, row);
      case Some(value) => PatchAt(start, l, r.usage, Ready, asks, row, value);
    }
  }

  lemma ActedAt(start: Db, l: Loop, asks: nat, thought: string, calls: seq<ToolCall>)
    requires At(start, l, NO_USAGE, AfterThought, asks)
    ensures At(start, Acted(l, thought, calls), NO_USAGE, Expecting(|calls|), asks)
  {
    RowAt(start, l, NO_USAGE, AfterThought, asks, ActionRow(l.runSeq + 1, calls));
  }

  lemma RecordAt(start: Db, l: Loop, asks: nat, r: ChatReply, thought: string, calls: seq<ToolCall>, similarity: Option<real>)
    requires At(start, l, r.usage, Ready, asks)
    ensures At(start, RecordTurn(l, r, thought, calls, similarity), NO_USAGE, Expecting(|calls|), asks)
  {
    ThoughtAt(start, l, asks, r, thought, similarity);
    ActedAt(start, RecordThought(l, r, thought, similarity), asks, thought, calls);
  }

  lemma RecordKeeps(l: Loop, r: ChatReply, thought: string, calls: seq<ToolCall>, similarity: Option<real>)
    ensures var l' := RecordTurn(l, r, thought, calls, similarity);
            l'.loops == l.loops && l'.tally == l.tally && l'.prevText == l.prevText && l'.prevVector == l.prevVector
            && l'.embeds == l.embeds && l'.embedIn == l.embedIn && l'.candidates == l.candidates + [thought]
  {
  }

  /** The scratchpad is in nobody's books. */
  lemma ScratchAt(start: Db, l: Loop, owed: Usage, p: TracePhase, asks: nat, lines: seq<string>)
    requires At(start, l, owed, p, asks)
    ensures At(start, l.(scratchpad := lines), owed, p, asks)
  {
  }

  lemma ObservedAt(start: Db, l: Loop, asks: nat, left: nat, call: ToolCall, payload: ToolPayload)
    requires At(start, l, NO_USAGE, Expecting(left), asks) && left > 0
    ensures At(start, Observed(l, call, payload), NO_USAGE, Expecting(left - 1), asks)
  {
    StepAt(start, l, NO_USAGE, Expecting(left), asks, Invoke(call));
    var l1 := l.(view := Do(l.view, Invoke(call)));
    RowAt(start, l1, NO_USAGE, Expecting(left), asks, ObservationRow(l.runSeq + 1, call, payload));
    ScratchAt(start, WithRow(l1, ObservationRow(l.runSeq + 1, call, payload)), NO_USAGE, Expecting(left - 1), asks,
              Observed(l, call, payload).scratchpad);
  }

  /** Where the calls of a turn leave the trace: all observed, or cut short. */
  predicate CallsLeft(start: Db, result: (Loop, bool), asks: nat) {
    var p := if result.1 then Ready else PhaseOf(result.0.view.db.rows);
    (result.1 || p.Observing?) && At(start, result.0, NO_USAGE, p, asks)
  }

  /** The trace stays in the language, and a cancelled batch leaves it waiting for observations. */
  lemma {:induction false} CallsAt(start: Db, w: World, l: Loop, asks: nat, iteration: nat, calls: seq<ToolCall>, i: nat)
    requires i <= |calls| && At(start, l, NO_USAGE, Expecting(|calls| - i), asks)
    ensures CallsLeft(start, RunCalls(w, l, iteration, calls, i), asks)
    decreases |calls| - i
  {
    if i < |calls| {
      CallsAre(w, l, iteration, calls, i);
      if !w.cancelCall(iteration, i) {
        var payload := CallResult(w, iteration, calls, i);
        ObservedAt(start, l, asks, |calls| - i, calls[i], payload);
        CallsAt(start, w, Observed(l, calls[i], payload), asks, iteration, calls, i + 1);
      }
    }
  }

  /** The rows of calls `i` to `m`, in call order: the name of each, and what its tool yielded. */
  function Observations(w: World, seqNo: nat, iteration: nat, calls: seq<ToolCall>, i: nat, m: nat): seq<StepRow>
    requires i <= m <= |calls|
  {
    seq(m - i, k requires 0 <= k < m - i =>
      ObservationRow(seqNo + 1 + k, calls[i + k], CallResult(w, iteration, calls, i + k)))
  }

  /** The first call from the `i`-th on that a cancel stops, or the number of calls. */
  function StopsAt(w: World, iteration: nat, calls: seq<ToolCall>, i: nat): (m: nat)
    requires i <= |calls|
    ensures i <= m <= |calls| && (m < |calls| ==> w.cancelCall(iteration, m))
    ensures forall j :: i <= j < m ==> !w.cancelCall(iteration, j)
    decreases |calls| - i
  {
    if i < |calls| && !w.cancelCall(iteration, i) then StopsAt(w, iteration, calls, i + 1) else i
  }

  lemma ObservationsNext(w: World, seqNo: nat, iteration: nat, calls: seq<ToolCall>, i: nat, m: nat)
    requires i < m <= |calls|
    ensures Observations(w, seqNo, iteration, calls, i, m) ==
            [ObservationRow(seqNo + 1, calls[i], CallResult(w, iteration, calls, i))]
            + Observations(w, seqNo + 1, iteration, calls, i + 1, m)
  {
  }

  /** One observation per call that was made, in call order, each with its call's name and result; the calls made are
      those before the first that a cancel stops. */
  lemma {:induction false} CallsObserved(w: World, l: Loop, iteration: nat, calls: seq<ToolCall>, i: nat)
    requires i <= |calls|
    ensures ObservedUpTo(w, l, RunCalls(w, l, iteration, calls, i), iteration, calls, i, StopsAt(w, iteration, calls, i))
    decreases |calls| - i
  {
    var m := StopsAt(w, iteration, calls, i);
    if i < |calls| {
      CallsAre(w, l, iteration, calls, i);
    }
    if i < m {
      var l1 := Observed(l, calls[i], CallResult(w, iteration, calls, i));
      CallsObserved(w, l1, iteration, calls, i + 1);
      OneMoreObserved(w, l, RunCalls(w, l1, iteration, calls, i + 1), iteration, calls, i, m);
    }
  }

  /** The rows `r` adds to `l` are the observations of the calls from the `i`-th to the `m`-th. */
  predicate ObservedUpTo(w: World, l: Loop, r: (Loop, bool), iteration: nat, calls: seq<ToolCall>, i: nat, m: nat)
    requires i <= m <= |calls|
  {
    (r.1 <==> m == |calls|) && r.0.view.db.rows == l.view.db.rows + Observations(w, l.runSeq, iteration, calls, i, m)
  }

  lemma ObservedRow(l: Loop, call: ToolCall, payload: ToolPayload)
    ensures Observed(l, call, payload).view.db.rows == l.view.db.rows + [ObservationRow(l.runSeq + 1, call, payload)]
    ensures Observed(l, call, payload).runSeq == l.runSeq + 1
  {
  }

  lemma OneMoreObserved(w: World, l: Loop, r: (Loop, bool), iteration: nat, calls: seq<ToolCall>, i: nat, m: nat)
    requires i < m <= |calls|
    requires ObservedUpTo(w, Observed(l, calls[i], CallResult(w, iteration, calls, i)), r, iteration, calls, i + 1, m)
    ensures ObservedUpTo(w, l, r, iteration, calls, i, m)
  {
    var payload := CallResult(w, iteration, calls, i);
    ObservedRow(l, calls[i], payload);
    ObservationsNext(w, l.runSeq, iteration, calls, i, m);
    Assoc(l.view.db.rows, [ObservationRow(l.runSeq + 1, calls[i], payload)],
          Observations(w, l.runSeq + 1, iteration, calls, i + 1, m));
  }

  // ----- exits -----------------------------------------------------------------------------

  /** The reply of the last iteration. */
  predicate LastReplied(w: World, l: Loop, r: ChatReply) {
    l.loops > 0 && w.chat(l.loops - 1) == Reply(r)
  }

  /** What was spent on a reply whose row was never written: the last chat's, when its answer was blank or its candidate
      could not be embedded, or the synthesis, when it was empty. */
  function Unrecorded(w: World, l: Loop, status: Status, reason: Option<Reason>, asks: nat): Usage {
    if !status.Failed? || reason == Some(LlmProviderError) || reason == Some(GuardrailNoSynthesis) then NO_USAGE
    else if asks > l.loops then (if w.synthesis.Reply? then w.synthesis.reply.usage else NO_USAGE)
    else if l.loops > 0 && w.chat(l.loops - 1).Reply? then w.chat(l.loops - 1).reply.usage
    else NO_USAGE
  }

  /** The stored totals: the rows, the embeddings, and exactly the reply whose row was never written, if there is one. */
  predicate TotalsExplained(w: World, v: View, l: Loop) {
    v.db.run.tally.usage ==
      Plus(Plus(SumUsage(v.db.rows), Usage(l.embedIn, 0)), Unrecorded(w, l, v.db.run.status, v.db.run.reason, Asks(v.log)))
  }

  predicate BudgetLeft(cfg: Config, l: Loop) {
    l.loops < cfg.maxLoops && l.tally.usage.tokensOut < cfg.maxTokens
  }

  /** One chat per loop, and at most one more: with budget left it is the chat that raised, with a budget spent it is
      the synthesis, and that is only asked for while twice the projected total stays within three budgets. */
  predicate ChatsFit(w: World, cfg: Config, l: Loop, asks: nat) {
    l.loops <= asks <= l.loops + 1
    && (asks == l.loops + 1 ==>
          if BudgetLeft(cfg, l) then w.chat(l.loops).ProviderError?
          else 2 * (l.tally.usage.tokensOut + |JoinLines(l.scratchpad)| / 4) <= 3 * cfg.maxTokens)
  }

  /** Where an ending leaves the trace. A failed run has an observation for every call of its last action; observations
      are only missing after a cancel, or when the turn answered by similarity. */
  predicate PhaseFits(e: Exit, p: TracePhase) {
    match e
    case Raised(_, _, _) => p.AfterThought? || p.Observing? || p.AfterSynthesis?
    case Left(v) =>
      && (v.db.run.status.Failed? ==> p.Ready?)
      && (v.db.run.status.Cancelled? ==> p.Ready? || p.Observing?)
      && (v.db.run.status.Completed? ==> (p.Observing? <==> v.db.run.reason == Some(Reason.Similarity)))
      && !p.Broken?
  }

  /** A stop reason that is only given with a synthesized answer. */
  predicate WithSynthesis(run: RunRow) {
    run.reason == Some(MaxLoops) || run.reason == Some(MaxTokens)
  }

  /** What an exit leaves: a stream that agrees with the database, rows in the language and where the ending leaves
      them, totals that are explained, the chats that were made, and a stop reason that says what happened. */
  ghost predicate ExitLeft(start: Db, w: World, cfg: Config, e: Exit, l: Loop) {
    && ExitOk(start, e)
    && Numbered(e.view.db.rows)
    && PhaseFits(e, PhaseOf(e.view.db.rows))
    && l.loops <= cfg.maxLoops
    && ChatsFit(w, cfg, l, Asks(e.view.log))
    && (e.Left? ==> e.view.committed == e.view.db && e.view.db.run.loops == l.loops && TotalsExplained(w, e.view, l))
    && (e.Raised? ==> e.loops == l.loops && e.tally.usage == Plus(SumUsage(e.view.db.rows), Usage(l.embedIn, 0)))
    && (e.Left? && e.view.db.run.status == Completed ==>
          && CompletedHonestly(cfg, e.view.db, l)
          && Asks(e.view.log) == l.loops + if WithSynthesis(e.view.db.run) then 1 else 0)
  }

  /** A completed run: exact totals, an answer that is the last message, and a reason matching the trace. */
  predicate CompletedHonestly(cfg: Config, db: Db, l: Loop) {
    && db.run.tally.usage.tokensIn == SumUsage(db.rows).tokensIn + l.embedIn
    && db.run.tally.usage.tokensOut == SumUsage(db.rows).tokensOut
    && db.run.answer.Some? && db.run.reason.Some?
    && db.messages != [] && db.messages[|db.messages| - 1].content == db.run.answer.value
    && db.messages[|db.messages| - 1].role == AssistantSpeaker
    && (db.run.reason.value.Similarity? || !Blank(db.run.answer.value))
    && match db.run.reason.value
       case FinalAnswer => PhaseOf(db.rows).AfterThought?
       case Similarity => PhaseOf(db.rows).Observing? && l.prevText == Some(db.run.answer.value)
       case MaxLoops => PhaseOf(db.rows).AfterSynthesis? && l.loops == cfg.maxLoops
       case MaxTokens =>
         PhaseOf(db.rows).AfterSynthesis? && l.loops < cfg.maxLoops && l.tally.usage.tokensOut >= cfg.maxTokens
       case _ => false
  }

  lemma FailedExit(start: Db, w: World, cfg: Config, l: Loop, l': Loop, owed: Usage, asks: nat, reason: Reason)
    requires At(start, l, owed, Ready, asks) && ChatsFit(w, cfg, l', asks)
    requires l.loops == l'.loops <= cfg.maxLoops && l'.embedIn == l.embedIn
    requires owed == Unrecorded(w, l', Failed, Some(reason), asks)
    ensures ExitLeft(start, w, cfg, FailedAt(l, reason), l')
  {
    var c := Closing(Failed, Some(reason), None, l.tally, l.loops);
    ClosedExit(start, l.view, c);
    CloseViewDb(l.view, c);
    OwedExplains(w, l, l', owed, CloseView(l.view, c));
  }

  lemma OwedExplains(w: World, l: Loop, l': Loop, owed: Usage, v: View)
    requires Owing(l, owed) && owed == Unrecorded(w, l', v.db.run.status, v.db.run.reason, Asks(v.log)) && l'.embedIn == l.embedIn
    requires v.db.rows == l.view.db.rows && v.db.run.tally == l.tally
    ensures TotalsExplained(w, v, l')
  {
    assert v.db.run.tally.usage == Plus(Plus(SumUsage(v.db.rows), Usage(l'.embedIn, 0)), owed);
  }

  lemma CancelledExit(start: Db, w: World, cfg: Config, l: Loop, p: TracePhase)
    requires At(start, l, NO_USAGE, p, l.loops) && (p.Ready? || p.Observing?) && l.loops <= cfg.maxLoops
    ensures ExitLeft(start, w, cfg, CancelledAt(l), l)
  {
    var c := Closing(Cancelled, Some(CancelRequested), None, l.tally, l.loops);
    ClosedExit(start, l.view, c);
    CloseViewDb(l.view, c);
    OwedExplains(w, l, l, NO_USAGE, CloseView(l.view, c));
  }

  lemma MessageAdded(start: Db, v: View, answer: string)
    requires Calm(start, v)
    ensures var a := AddMessage(AssistantSpeaker, answer, [], None);
            && Announced(start, Do(v, a)) && Asks(Do(v, a).log) == Asks(v.log)
            && Do(v, a).db.rows == v.db.rows && Do(v, a).db.run == v.db.run
            && |Do(v, a).db.messages| == |v.db.messages| + 1
            && Do(v, a).db.messages[|v.db.messages|].content == answer
            && Do(v, a).db.messages[|v.db.messages|].role == AssistantSpeaker
  {
    var a := AddMessage(AssistantSpeaker, answer, [], None);
    AnnouncedDo(start, v, a);
    AsksSnoc(v.log, a);
  }

  /** A stop reason that fits the rows, the answer and the reported variables `l`. */
  predicate ReasonFits(cfg: Config, p: TracePhase, l: Loop, reason: Reason, answer: string) {
    && (reason.Similarity? || !Blank(answer))
    && match reason
       case FinalAnswer => p.AfterThought?
       case Similarity => p.Observing? && l.prevText == Some(answer)
       case MaxLoops => p.AfterSynthesis? && l.loops == cfg.maxLoops
       case MaxTokens => p.AfterSynthesis? && l.loops < cfg.maxLoops && l.tally.usage.tokensOut >= cfg.maxTokens
       case _ => false
  }

  lemma HonestData(cfg: Config, l: Loop, l': Loop, p: TracePhase, reason: Reason, answer: string, db: Db)
    requires Owing(l, NO_USAGE) && PhaseOf(l.view.db.rows) == p && ReasonFits(cfg, p, l', reason, answer)
    requires l'.embedIn == l.embedIn && db.rows == l.view.db.rows && db.run.tally == l.tally
    requires db.run.answer == Some(answer) && db.run.reason == Some(reason)
    requires db.messages != [] && db.messages[|db.messages| - 1].content == answer
    requires db.messages[|db.messages| - 1].role == AssistantSpeaker
    ensures CompletedHonestly(cfg, db, l')
  {
  }

  lemma RaisedLeft(start: Db, w: World, cfg: Config, l: Loop, l': Loop, p: TracePhase, asks: nat)
    requires At(start, l, NO_USAGE, p, asks) && (p.AfterThought? || p.Observing? || p.AfterSynthesis?)
    requires l.loops == l'.loops <= cfg.maxLoops && l'.embedIn == l.embedIn && ChatsFit(w, cfg, l', asks)
    ensures ExitLeft(start, w, cfg, Raised(l.view, l.tally, l.loops), l')
  {
    RaisedExit(start, l.view, l.tally, l.loops);
  }

  /** Completing with an answer, or raising on a full context. `l'` are the variables the exit is reported with. */
  lemma CompletedExit(start: Db, w: World, cfg: Config, l: Loop, l': Loop, p: TracePhase, asks: nat, reason: Reason, answer: string)
    requires At(start, l, NO_USAGE, p, asks) && !p.Broken?
    requires l.loops == l'.loops <= cfg.maxLoops && l'.embedIn == l.embedIn
    requires asks == (l.loops + if reason.MaxLoops? || reason.MaxTokens? then 1 else 0) && ChatsFit(w, cfg, l', asks)
    requires ReasonFits(cfg, p, l', reason, answer)
    ensures ExitLeft(start, w, cfg, CompletedAt(l, reason, answer), l')
  {
    if |l.view.db.messages| >= HARD_CAP {
      RaisedLeft(start, w, cfg, l, l', p, asks);
    } else {
      var v := Do(l.view, AddMessage(AssistantSpeaker, answer, [], None));
      var c := Closing(Completed, Some(reason), Some(answer), l.tally, l.loops);
      MessageAdded(start, l.view, answer);
      ClosedExit(start, v, c);
      CloseViewDb(v, c);
      OwedExplains(w, l, l', NO_USAGE, CloseView(v, c));
      HonestData(cfg, l, l', p, reason, answer, CloseView(v, c).db);
    }
  }

  // ----- one turn --------------------------------------------------------------------------

  /** The head of an iteration: books settled, budget left, one chat per loop so far. */
  predicate AtHead(start: Db, cfg: Config, l: Loop) {
    At(start, l, NO_USAGE, Ready, l.loops) && BudgetLeft(cfg, l)
  }

  /** The budget a stop reason names is the one that is spent. */
  predicate BudgetSpent(cfg: Config, l: Loop, reason: Reason) {
    match reason
    case MaxLoops => l.loops == cfg.maxLoops
    case MaxTokens => l.loops < cfg.maxLoops && l.tally.usage.tokensOut >= cfg.maxTokens
    case _ => false
  }

  /** What a turn leaves. */
  ghost predicate TurnLeft(start: Db, w: World, cfg: Config, t: Turn) {
    match t
    case Again(l) => AtHead(start, cfg, l)
    case Over(e, l) => ExitLeft(start, w, cfg, e, l)
    case OutOfBudget(l, reason) =>
      && At(start, l, NO_USAGE, Ready, l.loops) && l.loops <= cfg.maxLoops
      && BudgetSpent(cfg, l, reason)
  }

  lemma GuardedLeft(start: Db, w: World, cfg: Config, l: Loop)
    requires At(start, l, NO_USAGE, Ready, l.loops) && l.loops <= cfg.maxLoops
    ensures TurnLeft(start, w, cfg, Guarded(cfg, l))
  {
  }

  lemma ErrorAt(start: Db, l: Loop, asks: nat, r: ChatReply)
    requires At(start, l, r.usage, Ready, asks)
    ensures At(start, ErrorRecorded(l, r), NO_USAGE, Ready, asks) && ErrorRecorded(l, r).loops == l.loops
  {
    var row := TextRow(l.runSeq + 1, ErrorRole, "parse_error", r.usage);
    RowAt(start, l, r.usage, Ready, asks, row);
    StepAt(start, WithRow(l, row), NO_USAGE, Ready, asks, Commit);
  }

  lemma ParseErrorLeft(start: Db, w: World, cfg: Config, l: Loop, r: ChatReply)
    requires At(start, l, r.usage, Ready, l.loops) && l.loops <= cfg.maxLoops
    ensures TurnLeft(start, w, cfg, ParseErrorTurn(cfg, l, r))
  {
    ErrorAt(start, l, l.loops, r);
    GuardedLeft(start, w, cfg, ErrorRecorded(l, r));
  }

  lemma ReasoningAt(start: Db, l: Loop, owed: Usage, p: TracePhase, asks: nat, r: ChatReply)
    requires At(start, l, owed, p, asks)
    ensures At(start, Reasoned(l, r), owed, p, asks)
  {
    CalmReasoning(start, l.view, r);
  }

  lemma FinalAnswerLeft(start: Db, w: World, cfg: Config, l: Loop, l': Loop, r: ChatReply, text: string)
    requires At(start, l, r.usage, Ready, l.loops) && l.loops == l'.loops <= cfg.maxLoops && l'.embedIn == l.embedIn
    requires !Blank(text)
    ensures ExitLeft(start, w, cfg, ConcludedAt(l, TextRow(l.runSeq + 1, Thought, text, r.usage), FinalAnswer, text), l')
  {
    var row := TextRow(l.runSeq + 1, Thought, text, r.usage);
    RowAt(start, l, r.usage, Ready, l.loops, row);
    CompletedExit(start, w, cfg, WithRow(l, row), l', AfterThought, l.loops, FinalAnswer, text);
  }

  /** The reason an empty reply gives is about that reply. */
  lemma BlankReason(r: ChatReply)
    ensures EmptyReason(r).Some? ==>
              EmptyReason(r).value != LlmProviderError && EmptyReason(r).value != GuardrailNoSynthesis
  {
  }

  lemma BlankFinalLeft(start: Db, w: World, cfg: Config, l: Loop, l': Loop, r: ChatReply)
    requires At(start, l, r.usage, Ready, l.loops) && l.loops == l'.loops <= cfg.maxLoops && l'.embedIn == l.embedIn
    requires LastReplied(w, l', r)
    ensures ExitLeft(start, w, cfg, FailedAt(l, if EmptyReason(r).Some? then EmptyReason(r).value else EmptyResponse), l')
  {
    BlankReason(r);
    FailedExit(start, w, cfg, l, l', r.usage, l.loops, if EmptyReason(r).Some? then EmptyReason(r).value else EmptyResponse);
  }

  lemma FinishedLeft(start: Db, w: World, cfg: Config, l: Loop, l': Loop, r: ChatReply, text: string)
    requires At(start, l, r.usage, Ready, l.loops) && l.loops == l'.loops <= cfg.maxLoops && l'.embedIn == l.embedIn
    requires LastReplied(w, l', r)
    ensures ExitLeft(start, w, cfg, Finished(l, r, text), l')
  {
    if Blank(text) {
      BlankFinalLeft(start, w, cfg, l, l', r);
    } else {
      FinalAnswerLeft(start, w, cfg, l, l', r, text);
    }
  }

  lemma ReasonedKeeps(l: Loop, r: ChatReply)
    ensures Reasoned(l, r).loops == l.loops && Reasoned(l, r).embedIn == l.embedIn
  {
  }

  lemma FinalTurnLeft(start: Db, w: World, cfg: Config, l: Loop, r: ChatReply, text: string)
    requires At(start, l, r.usage, Ready, l.loops) && l.loops <= cfg.maxLoops && LastReplied(w, l, r)
    ensures ExitLeft(start, w, cfg, FinalTurnEnd(l, r, text), l)
  {
    ReasoningAt(start, l, r.usage, Ready, l.loops, r);
    ReasonedKeeps(l, r);
    FinishedLeft(start, w, cfg, Reasoned(l, r), l, r, text);
  }

  lemma AfterCallsLeft(start: Db, w: World, cfg: Config, l: Loop, iteration: nat, thought: string)
    requires At(start, l, NO_USAGE, Ready, l.loops) && l.loops <= cfg.maxLoops
    ensures TurnLeft(start, w, cfg, AfterCalls(cfg, l, iteration, thought))
  {
    var a := Emit(Working(Phase(iteration + 1, "observation")));
    StepAt(start, l, NO_USAGE, Ready, l.loops, a);
    var l1 := l.(view := Do(l.view, a));
    StepAt(start, l1, NO_USAGE, Ready, l.loops, Commit);
    var l2 := l1.(view := Do(l1.view, Commit), prevText := Some(thought));
    GuardedLeft(start, w, cfg, l2);
  }

  lemma AnnounceAt(start: Db, l: Loop, owed: Usage, asks: nat, iteration: nat)
    requires At(start, l, owed, Ready, asks)
    ensures At(start, Announce(l, iteration), owed, Ready, asks)
  {
    var a := Emit(Working(Phase(iteration + 1, "thought")));
    StepAt(start, l, owed, Ready, asks, a);
    StepAt(start, l.(view := Do(l.view, a)), owed, Ready, asks, Emit(Working(Phase(iteration + 1, "action"))));
  }

  lemma RecordedTurnLeft(start: Db, w: World, cfg: Config, l: Loop, iteration: nat, thought: string, calls: seq<ToolCall>)
    requires At(start, l, NO_USAGE, Expecting(|calls|), l.loops) && l.loops <= cfg.maxLoops
    ensures TurnLeft(start, w, cfg, RunTurnCalls(w, cfg, l, iteration, thought, calls))
  {
    var (l', ran) := RunCalls(w, l, iteration, calls, 0);
    CallsAt(start, w, l, l.loops, iteration, calls, 0);
    RunCallsKeeps(w, l, iteration, calls, 0);
    if ran {
      AfterCallsLeft(start, w, cfg, l', iteration, thought);
    } else {
      CancelledExit(start, w, cfg, l', PhaseOf(l'.view.db.rows));
    }
  }

  lemma ActOnLeft(start: Db, w: World, cfg: Config, l: Loop, iteration: nat, thought: string, calls: seq<ToolCall>,
                  similarity: Option<real>)
    requires At(start, l, NO_USAGE, Expecting(|calls|), l.loops) && l.loops <= cfg.maxLoops && calls != []
    requires similarity.Some? ==> l.prevText.Some?
    ensures TurnLeft(start, w, cfg, ActOn(w, cfg, l, iteration, thought, calls, similarity))
  {
    if similarity.Some? && similarity.value >= cfg.threshold {
      SimilarityLeft(start, w, cfg, l, calls, l.prevText.value);
    } else {
      RecordedTurnLeft(start, w, cfg, l, iteration, thought, calls);
    }
  }

  lemma ComparedTurnLeft(start: Db, w: World, cfg: Config, l: Loop, iteration: nat, r: ChatReply, thought: string,
                         calls: seq<ToolCall>, similarity: Option<real>)
    requires At(start, l, r.usage, Ready, l.loops) && l.loops <= cfg.maxLoops && calls != []
    requires similarity.Some? ==> l.prevText.Some?
    ensures TurnLeft(start, w, cfg,
                     ActOn(w, cfg, RecordTurn(l, r, thought, calls, similarity), iteration, thought, calls, similarity))
  {
    RecordAt(start, l, l.loops, r, thought, calls, similarity);
    RecordKeepsBudget(l, r, thought, calls, similarity);
    ActOnLeft(start, w, cfg, RecordTurn(l, r, thought, calls, similarity), iteration, thought, calls, similarity);
  }

  /** A similarity is only measured against a previous candidate. */
  lemma MeasuredAgainst(w: World, l: Loop, text: string, cached: bool)
    ensures var c := Compare(w, l, text, cached); c.Measured? && c.similarity.Some? ==> l.prevText.Some?
  {
  }

  lemma ToolTurnLeft(start: Db, w: World, cfg: Config, l: Loop, iteration: nat, r: ChatReply, thought: string,
                     calls: seq<ToolCall>, cached: bool)
    requires At(start, l, r.usage, Ready, l.loops) && l.loops <= cfg.maxLoops && calls != [] && LastReplied(w, l, r)
    ensures TurnLeft(start, w, cfg, ToolTurnOf(w, cfg, l, iteration, r, thought, calls, cached))
  {
    var l0 := Announce(l, iteration);
    var c := Compare(w, l0, thought, cached);
    AnnounceAt(start, l, r.usage, l.loops, iteration);
    CompareAt(start, w, l0, r.usage, Ready, l.loops, thought, cached);
    MeasuredAgainst(w, l0, thought, cached);
    ToolTurnIs(w, cfg, l, iteration, r, thought, calls, cached, c);
    match c {
      case Unavailable(l1) => FailedExit(start, w, cfg, l1, l1, r.usage, l.loops, EmbeddingUnavailable);
      case Measured(l1, similarity) =>
        ComparedTurnLeft(start, w, cfg, l1, iteration, r, thought, calls, similarity);
    }
  }

  lemma SimilarityLeft(start: Db, w: World, cfg: Config, l: Loop, calls: seq<ToolCall>, previous: string)
    requires At(start, l, NO_USAGE, Expecting(|calls|), l.loops) && l.loops <= cfg.maxLoops && calls != []
    requires l.prevText == Some(previous)
    ensures ExitLeft(start, w, cfg, CompletedAt(l, Reason.Similarity, previous), l)
  {
    CompletedExit(start, w, cfg, l, l, Expecting(|calls|), l.loops, Reason.Similarity, previous);
  }

  lemma AnsweredAt(start: Db, l: Loop, r: ChatReply)
    requires At(start, l, NO_USAGE, Ready, l.loops)
    ensures At(start, Answered(l, r), r.usage, Ready, l.loops + 1)
  {
    StepAt(start, l, NO_USAGE, Ready, l.loops, Ask);
  }

  lemma OnReplyLeft(start: Db, w: World, cfg: Config, l: Loop, iteration: nat, r: ChatReply, cached: bool)
    requires At(start, l, r.usage, Ready, l.loops) && l.loops <= cfg.maxLoops && LastReplied(w, l, r)
    ensures TurnLeft(start, w, cfg, OnReply(w, cfg, l, iteration, r, cached))
  {
    match ParseReply(r) {
      case ParseError => ParseErrorLeft(start, w, cfg, l, r);
      case FinalTurn(text) => FinalTurnLeft(start, w, cfg, l, r, text);
      case ToolTurn(thought, calls) => ToolTurnLeft(start, w, cfg, l, iteration, r, thought, calls, cached);
    }
  }

  lemma ProviderErrorLeft(start: Db, w: World, cfg: Config, l: Loop)
    requires AtHead(start, cfg, l) && w.chat(l.loops).ProviderError?
    ensures var l1 := l.(view := Do(l.view, Ask)); ExitLeft(start, w, cfg, FailedAt(l1, LlmProviderError), l1)
  {
    var l1 := l.(view := Do(l.view, Ask));
    StepAt(start, l, NO_USAGE, Ready, l.loops, Ask);
    FailedExit(start, w, cfg, l1, l1, NO_USAGE, l.loops + 1, LlmProviderError);
  }

  lemma AnswerLeft(start: Db, w: World, cfg: Config, l: Loop, r: ChatReply, cached: bool)
    requires AtHead(start, cfg, l) && w.chat(l.loops) == Reply(r)
    ensures TurnLeft(start, w, cfg, OnReply(w, cfg, Answered(l, r), l.loops, r, cached))
  {
    AnsweredAt(start, l, r);
    OnReplyLeft(start, w, cfg, Answered(l, r), l.loops, r, cached);
  }

  lemma TurnKeeps(start: Db, w: World, cfg: Config, l: Loop, cached: bool)
    requires AtHead(start, cfg, l)
    ensures TurnLeft(start, w, cfg, TurnOf(w, cfg, l, cached))
  {
    if w.cancelHead(l.loops) {
      CancelledExit(start, w, cfg, l, Ready);
    } else {
      match w.chat(l.loops) {
        case ProviderError => ProviderErrorLeft(start, w, cfg, l);
        case Reply(r) => AnswerLeft(start, w, cfg, l, r, cached);
      }
    }
  }

  // ----- synthesis -------------------------------------------------------------------------

  lemma BilledAt(start: Db, l: Loop, p: TracePhase, asks: nat, r: ChatReply)
    requires At(start, l, NO_USAGE, p, asks)
    ensures At(start, Billed(l, r), r.usage, p, asks)
  {
    ReasoningAt(start, l.(tally := Charge(l.tally, r.usage, r.cost)), r.usage, p, asks, r);
  }

  /** Synthesis goes ahead, with the variables `l`. */
  predicate SynthesisDue(cfg: Config, l: Loop, reason: Reason) {
    && BudgetSpent(cfg, l, reason) && cfg.maxTokens >= 1 && l.loops <= cfg.maxLoops
    && !SkipSynthesis(l.tally.usage.tokensOut, cfg.maxTokens, |JoinLines(l.scratchpad)|)
  }

  lemma SynthesisFits(w: World, cfg: Config, l: Loop, reason: Reason)
    requires SynthesisDue(cfg, l, reason)
    ensures ChatsFit(w, cfg, l, l.loops + 1)
  {
    SkipMeansOverBudget(l.tally.usage.tokensOut, cfg.maxTokens, |JoinLines(l.scratchpad)|);
  }

  lemma SynthesisAnswerLeft(start: Db, w: World, cfg: Config, l: Loop, l': Loop, r: ChatReply, reason: Reason)
    requires At(start, l, r.usage, Ready, l.loops + 1) && l.loops == l'.loops <= cfg.maxLoops && l'.embedIn == l.embedIn
    requires BudgetSpent(cfg, l', reason) && ChatsFit(w, cfg, l', l.loops + 1) && !Blank(r.content)
    ensures ExitLeft(start, w, cfg,
                     ConcludedAt(l, TextRow(l.runSeq + 1, Trace.Synthesis, r.content, r.usage), reason, r.content), l')
  {
    var row := TextRow(l.runSeq + 1, Trace.Synthesis, r.content, r.usage);
    RowAt(start, l, r.usage, Ready, l.loops + 1, row);
    CompletedExit(start, w, cfg, WithRow(l, row), l', AfterSynthesis, l.loops + 1, reason, r.content);
  }

  lemma SynthesizedLeft(start: Db, w: World, cfg: Config, l: Loop, l': Loop, r: ChatReply, reason: Reason)
    requires At(start, l, r.usage, Ready, l.loops + 1) && l.loops == l'.loops && l'.embedIn == l.embedIn
    requires SynthesisDue(cfg, l', reason) && w.synthesis == Reply(r)
    ensures ExitLeft(start, w, cfg, Synthesized(l, r, reason), l')
  {
    SynthesisFits(w, cfg, l', reason);
    if EmptyReason(r).Some? {
      BlankReason(r);
      FailedExit(start, w, cfg, l, l', r.usage, l.loops + 1, EmptyReason(r).value);
    } else {
      SynthesisAnswerLeft(start, w, cfg, l, l', r, reason);
    }
  }

  lemma AskedLeft(start: Db, w: World, cfg: Config, l: Loop, reason: Reason)
    requires TurnLeft(start, w, cfg, OutOfBudget(l, reason)) && SynthesisDue(cfg, l, reason)
    ensures ExitLeft(start, w, cfg, Synthesize(w, cfg, l, reason), l)
  {
    var l1 := l.(view := Do(l.view, Ask));
    StepAt(start, l, NO_USAGE, Ready, l.loops, Ask);
    match w.synthesis {
      case ProviderError =>
        SynthesisFits(w, cfg, l, reason);
        FailedExit(start, w, cfg, l1, l, NO_USAGE, l.loops + 1, LlmProviderError);
      case Reply(r) =>
        BilledAt(start, l1, Ready, l.loops + 1, r);
        SynthesizedLeft(start, w, cfg, Billed(l1, r), l, r, reason);
    }
  }

  lemma SynthesizeLeft(start: Db, w: World, cfg: Config, l: Loop, reason: Reason)
    requires TurnLeft(start, w, cfg, OutOfBudget(l, reason)) && cfg.maxTokens >= 1
    ensures ExitLeft(start, w, cfg, Synthesize(w, cfg, l, reason), l)
  {
    if SkipSynthesis(l.tally.usage.tokensOut, cfg.maxTokens, |JoinLines(l.scratchpad)|) {
      FailedExit(start, w, cfg, l, l, NO_USAGE, l.loops, GuardrailNoSynthesis);
    } else {
      AskedLeft(start, w, cfg, l, reason);
    }
  }

  // ----- the loop --------------------------------------------------------------------------

  /** The loop is left for a synthesis with one of two reasons. */
  lemma OutOfBudgetReason(w: World, cfg: Config, l: Loop, cached: bool)
    ensures var t := TurnOf(w, cfg, l, cached); t.OutOfBudget? ==> t.reason.MaxLoops? || t.reason.MaxTokens?
  {
    if !w.cancelHead(l.loops) && w.chat(l.loops).Reply? {
      var r := w.chat(l.loops).reply;
      if ParseReply(r).ToolTurn? {
        var p := ParseReply(r);
        var c := Compare(w, Announce(Answered(l, r), l.loops), p.thought, cached);
        ToolTurnIs(w, cfg, Answered(l, r), l.loops, r, p.thought, p.calls, cached, c);
      }
    }
  }

  lemma {:induction false} IterateKeeps(start: Db, w: World, cfg: Config, l: Loop, cached: bool)
    requires AtHead(start, cfg, l) && cfg.maxTokens >= 1
    ensures var (e, l') := Iterate(w, cfg, l, cached); ExitLeft(start, w, cfg, e, l')
    decreases cfg.maxLoops - l.loops
  {
    TurnKeeps(start, w, cfg, l, cached);
    match TurnOf(w, cfg, l, cached) {
      case Over(e, l1) =>
      case OutOfBudget(l1, reason) => SynthesizeLeft(start, w, cfg, l1, reason);
      case Again(l1) =>
        AgainMeansBudget(w, cfg, l, cached);
        IterateKeeps(start, w, cfg, l1, cached);
    }
  }
}
