/** The totals of a ReAct run at any moment: every reply so far, and the embeddings. */
module ReactBills {
  import opened Basics
  import opened Sequences
  import opened Trace
  import opened Protocol
  import opened Invariants
  import opened Cuts
  import opened Bills
  import opened Tools
  import opened Synthesis
  import opened ReactSpec
  import opened ReactFacts
  import opened ReactTheorems

  function UsageIn(c: ChatOutcome): Usage {
    if c.Reply? then c.reply.usage else NO_USAGE
  }

  /** The bill of each provider call of a run that ends after `last` loops: its reply's usage; the call after the last loop
      is the synthesis. */
  function Bill(w: World, last: nat): nat -> Usage {
    (k: nat) => UsageIn(if k < last then w.chat(k) else w.synthesis)
  }

  /** One call per loop so far, and totals that are the replies to them and the embeddings. */
  predicate Paid(w: World, last: nat, l: Loop) {
    && Accounted(Bill(w, last), l.view.log) && Asks(l.view.log) == l.loops
    && l.tally.usage.tokensIn == Spent(Bill(w, last), l.loops).tokensIn + l.embedIn
    && l.tally.usage.tokensOut == Spent(Bill(w, last), l.loops).tokensOut
  }

  /** The last reply is charged and has no row yet. */
  predicate Due(w: World, last: nat, l: Loop, r: ChatReply) {
    && Paid(w, last, l) && Outstanding(l.view.log)
    && 1 <= l.loops <= last && Bill(w, last)(l.loops - 1) == r.usage
  }

  predicate TurnBilled(w: World, last: nat, t: Turn) {
    match t
    case Again(l) => Paid(w, last, l) && !Dirty(l.view.log)
    case Over(e, _) => Accounted(Bill(w, last), e.view.log)
    case OutOfBudget(l, _) => Paid(w, last, l) && !Dirty(l.view.log)
  }

  // ----- one step --------------------------------------------------------------------------

  lemma PaidDo(w: World, last: nat, l: Loop, a: Action)
    requires Paid(w, last, l) && !Counts(a) && !a.Ask?
    ensures Paid(w, last, l.(view := Do(l.view, a)))
    ensures Outstanding(l.view.log) ==> Outstanding(Do(l.view, a).log)
  {
    BilledDo(Bill(w, last), l.view, a);
  }

  /** A row without usage. */
  lemma PaidRow(w: World, last: nat, l: Loop, row: StepRow)
    requires Paid(w, last, l) && row.usage == None
    ensures Paid(w, last, WithRow(l, row))
  {
    PaidDo(w, last, l, AddRow(row));
  }

  /** The row of the last reply. */
  lemma DueRow(w: World, last: nat, l: Loop, r: ChatReply, row: StepRow)
    requires Due(w, last, l, r) && row.usage == Some(r.usage)
    ensures Paid(w, last, WithRow(l, row))
  {
    BilledRow(Bill(w, last), l.view, row);
  }

  lemma ScratchPaid(w: World, last: nat, l: Loop, lines: seq<string>)
    requires Paid(w, last, l)
    ensures Paid(w, last, l.(scratchpad := lines))
  {
  }

  lemma FailedBilled(bill: nat -> Usage, l: Loop, reason: Reason)
    requires Accounted(bill, l.view.log)
    ensures Accounted(bill, FailedAt(l, reason).view.log)
  {
    BilledClose(bill, l.view, Closing(Failed, Some(reason), None, l.tally, l.loops));
  }

  lemma CancelledBilled(bill: nat -> Usage, l: Loop)
    requires Accounted(bill, l.view.log)
    ensures Accounted(bill, CancelledAt(l).view.log)
  {
    BilledClose(bill, l.view, Closing(Cancelled, Some(CancelRequested), None, l.tally, l.loops));
  }

  lemma CompletedBilled(bill: nat -> Usage, l: Loop, reason: Reason, answer: string)
    requires Accounted(bill, l.view.log)
    ensures Accounted(bill, CompletedAt(l, reason, answer).view.log)
  {
    var a := AddMessage(AssistantSpeaker, answer, [], None);
    BilledDo(bill, l.view, a);
    BilledClose(bill, Do(l.view, a), Closing(Completed, Some(reason), Some(answer), l.tally, l.loops));
  }

  /** The row of the last reply, and completion with it. */
  lemma ConcludedBilled(bill: nat -> Usage, l: Loop, row: StepRow, reason: Reason, answer: string)
    requires Accounted(bill, l.view.log) && Outstanding(l.view.log) && Asks(l.view.log) > 0
    requires row.usage == Some(bill(Asks(l.view.log) - 1))
    ensures Accounted(bill, ConcludedAt(l, row, reason, answer).view.log)
  {
    BilledRow(bill, l.view, row);
    CompletedBilled(bill, WithRow(l, row), reason, answer);
  }

  lemma ReasonedDue(w: World, last: nat, l: Loop, r: ChatReply)
    requires Due(w, last, l, r)
    ensures Due(w, last, Reasoned(l, r), r)
  {
    if !Blank(r.reasoning) {
      PaidDo(w, last, l, Emit(Working(Reasoning(Strip(r.reasoning)))));
    }
  }

  lemma AnnouncedDue(w: World, last: nat, l: Loop, r: ChatReply, iteration: nat)
    requires Due(w, last, l, r)
    ensures Due(w, last, Announce(l, iteration), r)
  {
    var a := Emit(Working(Phase(iteration + 1, "thought")));
    PaidDo(w, last, l, a);
    PaidDo(w, last, l.(view := Do(l.view, a)), Emit(Working(Phase(iteration + 1, "action"))));
  }

  lemma EmbeddedDue(w: World, last: nat, l: Loop, r: ChatReply, text: string, tokensIn: int, cost: Option<real>, vector: seq<real>)
    requires Due(w, last, l, r)
    ensures Due(w, last, ChargeEmbedding(l, text, tokensIn, cost).(prevVector := Some(vector)), r)
  {
  }

  lemma PreviousDue(w: World, last: nat, l: Loop, r: ChatReply, cached: bool)
    requires Due(w, last, l, r) && l.prevText.Some?
    ensures Due(w, last, PreviousVector(w, l, cached).loop, r)
  {
    if !(cached && l.prevVector.Some?) && w.embed(l.prevText.value).Embedded? {
      var e := w.embed(l.prevText.value);
      EmbeddedDue(w, last, l, r, l.prevText.value, e.tokensIn, e.cost, e.vector);
    }
  }

  lemma ComparedDue(w: World, last: nat, l: Loop, r: ChatReply, text: string, cached: bool)
    requires Due(w, last, l, r)
    ensures Due(w, last, Compare(w, l, text, cached).loop, r)
  {
    if l.loops >= 2 && l.prevText.Some? {
      CompareIs(w, l, text, cached);
      PreviousDue(w, last, l, r, cached);
      var c := PreviousVector(w, l, cached);
      if c.Measured? && w.embed(text).Embedded? {
        var e := w.embed(text);
        EmbeddedDue(w, last, c.loop, r, text, e.tokensIn, e.cost, e.vector);
      }
    }
  }

  lemma ThoughtPaid(w: World, last: nat, l: Loop, r: ChatReply, thought: string, similarity: Option<real>)
    requires Due(w, last, l, r)
    ensures Paid(w, last, RecordThought(l, r, thought, similarity))
  {
    var row := ThoughtRow(l, r, thought);
    DueRow(w, last, l, r, row);
    match similarity {
      case None =>
      case Some(value) => PaidDo(w, last, WithRow(l, row), PatchRow(l.runSeq + 1, SetSimilarity(value)));
    }
  }

  lemma RecordedPaid(w: World, last: nat, l: Loop, r: ChatReply, thought: string, calls: seq<ToolCall>, similarity: Option<real>)
    requires Due(w, last, l, r)
    ensures Paid(w, last, RecordTurn(l, r, thought, calls, similarity))
  {
    ThoughtPaid(w, last, l, r, thought, similarity);
    ActedPaid(w, last, RecordThought(l, r, thought, similarity), thought, calls);
  }

  lemma ActedPaid(w: World, last: nat, l: Loop, thought: string, calls: seq<ToolCall>)
    requires Paid(w, last, l)
    ensures Paid(w, last, Acted(l, thought, calls))
  {
    PaidRow(w, last, l, ActionRow(l.runSeq + 1, calls));
  }

  lemma ObservedPaid(w: World, last: nat, l: Loop, call: ToolCall, payload: ToolPayload)
    requires Paid(w, last, l)
    ensures Paid(w, last, Observed(l, call, payload))
  {
    PaidDo(w, last, l, Invoke(call));
    var l1 := l.(view := Do(l.view, Invoke(call)));
    PaidRow(w, last, l1, ObservationRow(l.runSeq + 1, call, payload));
    ScratchPaid(w, last, WithRow(l1, ObservationRow(l.runSeq + 1, call, payload)), Observed(l, call, payload).scratchpad);
  }

  lemma {:induction false} CallsPaid(w: World, last: nat, l: Loop, iteration: nat, calls: seq<ToolCall>, i: nat)
    requires Paid(w, last, l)
    ensures Paid(w, last, RunCalls(w, l, iteration, calls, i).0)
    decreases |calls| - i
  {
    if i < |calls| {
      CallsAre(w, l, iteration, calls, i);
      if !w.cancelCall(iteration, i) {
        var payload := CallResult(w, iteration, calls, i);
        ObservedPaid(w, last, l, calls[i], payload);
        CallsPaid(w, last, Observed(l, calls[i], payload), iteration, calls, i + 1);
      }
    }
  }

  // ----- one turn --------------------------------------------------------------------------

  lemma GuardedBilled(w: World, last: nat, cfg: Config, l: Loop)
    requires Paid(w, last, l) && !Dirty(l.view.log)
    ensures TurnBilled(w, last, Guarded(cfg, l))
  {
  }

  lemma AfterCallsBilled(w: World, last: nat, cfg: Config, l: Loop, iteration: nat, thought: string)
    requires Paid(w, last, l)
    ensures TurnBilled(w, last, AfterCalls(cfg, l, iteration, thought))
  {
    var a := Emit(Working(Phase(iteration + 1, "observation")));
    PaidDo(w, last, l, a);
    var l1 := l.(view := Do(l.view, a));
    CommittedPaid(w, last, l1);
    GuardedBilled(w, last, cfg, l1.(view := Do(l1.view, Commit), prevText := Some(thought)));
  }

  lemma ActOnBilled(w: World, last: nat, cfg: Config, l: Loop, iteration: nat, thought: string, calls: seq<ToolCall>,
                    similarity: Option<real>)
    requires Paid(w, last, l)
    ensures TurnBilled(w, last, ActOn(w, cfg, l, iteration, thought, calls, similarity))
  {
    if similarity.Some? && similarity.value >= cfg.threshold {
      CompletedBilled(Bill(w, last), l, Reason.Similarity, if l.prevText.Some? then l.prevText.value else "");
    } else {
      CallsPaid(w, last, l, iteration, calls, 0);
      var (l1, ran) := RunCalls(w, l, iteration, calls, 0);
      if ran {
        AfterCallsBilled(w, last, cfg, l1, iteration, thought);
      } else {
        CancelledBilled(Bill(w, last), l1);
      }
    }
  }

  lemma ToolTurnBilled(w: World, last: nat, cfg: Config, l: Loop, iteration: nat, r: ChatReply, thought: string,
                       calls: seq<ToolCall>, cached: bool)
    requires Due(w, last, l, r)
    ensures TurnBilled(w, last, ToolTurnOf(w, cfg, l, iteration, r, thought, calls, cached))
  {
    var c := Compare(w, Announce(l, iteration), thought, cached);
    AnnouncedDue(w, last, l, r, iteration);
    ComparedDue(w, last, Announce(l, iteration), r, thought, cached);
    ToolTurnIs(w, cfg, l, iteration, r, thought, calls, cached, c);
    match c {
      case Unavailable(l1) => FailedBilled(Bill(w, last), l1, EmbeddingUnavailable);
      case Measured(l1, similarity) =>
        RecordedPaid(w, last, l1, r, thought, calls, similarity);
        ActOnBilled(w, last, cfg, RecordTurn(l1, r, thought, calls, similarity), iteration, thought, calls, similarity);
    }
  }

  lemma FinalBilled(w: World, last: nat, l: Loop, r: ChatReply, text: string)
    requires Due(w, last, l, r)
    ensures Accounted(Bill(w, last), Finished(l, r, text).view.log)
  {
    if Blank(text) {
      FailedBilled(Bill(w, last), l, if EmptyReason(r).Some? then EmptyReason(r).value else EmptyResponse);
    } else {
      ConcludedBilled(Bill(w, last), l, TextRow(l.runSeq + 1, Thought, text, r.usage), FinalAnswer, text);
    }
  }

  lemma CommittedPaid(w: World, last: nat, l: Loop)
    requires Paid(w, last, l)
    ensures Paid(w, last, l.(view := Do(l.view, Commit))) && !Dirty(Do(l.view, Commit).log)
  {
    PaidDo(w, last, l, Commit);
  }

  lemma ErrorIs(l: Loop, r: ChatReply)
    ensures var l1 := WithRow(l, TextRow(l.runSeq + 1, ErrorRole, "parse_error", r.usage));
            ErrorRecorded(l, r) == l1.(view := Do(l1.view, Commit))
  {
  }

  lemma ErrorPaid(w: World, last: nat, l: Loop, r: ChatReply)
    requires Due(w, last, l, r)
    ensures Paid(w, last, ErrorRecorded(l, r)) && !Dirty(ErrorRecorded(l, r).view.log)
  {
    var row := TextRow(l.runSeq + 1, ErrorRole, "parse_error", r.usage);
    DueRow(w, last, l, r, row);
    CommittedPaid(w, last, WithRow(l, row));
    ErrorIs(l, r);
  }

  lemma ParseErrorBilled(w: World, last: nat, cfg: Config, l: Loop, r: ChatReply)
    requires Due(w, last, l, r)
    ensures TurnBilled(w, last, ParseErrorTurn(cfg, l, r))
  {
    ErrorPaid(w, last, l, r);
    GuardedBilled(w, last, cfg, ErrorRecorded(l, r));
  }

  lemma OnReplyBilled(w: World, last: nat, cfg: Config, l: Loop, iteration: nat, r: ChatReply, cached: bool)
    requires Due(w, last, l, r)
    ensures TurnBilled(w, last, OnReply(w, cfg, l, iteration, r, cached))
  {
    match ParseReply(r) {
      case ParseError => ParseErrorBilled(w, last, cfg, l, r);
      case FinalTurn(text) =>
        ReasonedDue(w, last, l, r);
        FinalBilled(w, last, Reasoned(l, r), r, text);
      case ToolTurn(thought, calls) => ToolTurnBilled(w, last, cfg, l, iteration, r, thought, calls, cached);
    }
  }

  lemma AnsweredDue(w: World, last: nat, l: Loop, r: ChatReply)
    requires Paid(w, last, l) && !Dirty(l.view.log) && l.loops < last && w.chat(l.loops) == Reply(r)
    ensures Due(w, last, Answered(l, r), r)
  {
    BilledDo(Bill(w, last), l.view, Ask);
    assert Spent(Bill(w, last), l.loops + 1) == Plus(Spent(Bill(w, last), l.loops), Bill(w, last)(l.loops));
  }

  /** A reply counts one loop. */
  predicate Replied(w: World, l: Loop) {
    !w.cancelHead(l.loops) && w.chat(l.loops).Reply?
  }

  lemma TurnBills(w: World, last: nat, cfg: Config, l: Loop, cached: bool)
    requires Paid(w, last, l) && !Dirty(l.view.log) && (Replied(w, l) ==> l.loops < last)
    ensures TurnBilled(w, last, TurnOf(w, cfg, l, cached))
  {
    if w.cancelHead(l.loops) {
      CancelledBilled(Bill(w, last), l);
    } else {
      match w.chat(l.loops) {
        case ProviderError =>
          BilledDo(Bill(w, last), l.view, Ask);
          FailedBilled(Bill(w, last), l.(view := Do(l.view, Ask)), LlmProviderError);
        case Reply(r) =>
          AnsweredDue(w, last, l, r);
          OnReplyBilled(w, last, cfg, Answered(l, r), l.loops, r, cached);
      }
    }
  }

  // ----- how many loops --------------------------------------------------------------------

  lemma ToolTurnLoops(w: World, cfg: Config, l: Loop, iteration: nat, r: ChatReply, thought: string, calls: seq<ToolCall>, cached: bool)
    ensures ToolTurnOf(w, cfg, l, iteration, r, thought, calls, cached).loop.loops == l.loops
  {
    var c := Compare(w, Announce(l, iteration), thought, cached);
    ToolTurnIs(w, cfg, l, iteration, r, thought, calls, cached, c);
    CompareKeeps(w, Announce(l, iteration), thought, cached);
    if c.Measured? {
      var l1 := RecordTurn(c.loop, r, thought, calls, c.similarity);
      RecordKeepsBudget(c.loop, r, thought, calls, c.similarity);
      RunCallsKeeps(w, l1, iteration, calls, 0);
    }
  }

  lemma TurnLoops(w: World, cfg: Config, l: Loop, cached: bool)
    ensures TurnOf(w, cfg, l, cached).loop.loops == l.loops + if Replied(w, l) then 1 else 0
  {
    if Replied(w, l) {
      var r := w.chat(l.loops).reply;
      if ParseReply(r).ToolTurn? {
        ToolTurnLoops(w, cfg, Answered(l, r), l.loops, r, ParseReply(r).thought, ParseReply(r).calls, cached);
      }
    }
  }

  lemma {:induction false} LoopsGrow(w: World, cfg: Config, l: Loop, cached: bool)
    ensures Iterate(w, cfg, l, cached).1.loops >= TurnOf(w, cfg, l, cached).loop.loops
    decreases if l.loops < cfg.maxLoops then cfg.maxLoops - l.loops else 0
  {
    var t := TurnOf(w, cfg, l, cached);
    if t.Again? {
      AgainMeansBudget(w, cfg, l, cached);
      LoopsGrow(w, cfg, t.loop, cached);
      TurnLoops(w, cfg, t.loop, cached);
    }
  }

  // ----- the run ---------------------------------------------------------------------------

  lemma SynthesisBilled(bill: nat -> Usage, l: Loop, r: ChatReply, reason: Reason)
    requires Accounted(bill, l.view.log) && Outstanding(l.view.log) && Asks(l.view.log) > 0
    requires bill(Asks(l.view.log) - 1) == r.usage
    ensures Accounted(bill, Synthesized(l, r, reason).view.log)
  {
    SynthesizedIs(l, r, reason);
    if EmptyReason(r).Some? {
      FailedBilled(bill, l, EmptyReason(r).value);
    } else {
      ConcludedBilled(bill, l, TextRow(l.runSeq + 1, Trace.Synthesis, r.content, r.usage), reason, r.content);
    }
  }

  lemma SynthesizeBilled(w: World, cfg: Config, l: Loop, reason: Reason)
    requires Paid(w, l.loops, l) && !Dirty(l.view.log)
    ensures Accounted(Bill(w, l.loops), Synthesize(w, cfg, l, reason).view.log)
  {
    if SkipSynthesis(l.tally.usage.tokensOut, cfg.maxTokens, |JoinLines(l.scratchpad)|) {
      FailedBilled(Bill(w, l.loops), l, GuardrailNoSynthesis);
    } else {
      var l1 := l.(view := Do(l.view, Ask));
      BilledDo(Bill(w, l.loops), l.view, Ask);
      match w.synthesis {
        case ProviderError => FailedBilled(Bill(w, l.loops), l1, LlmProviderError);
        case Reply(r) =>
          if !Blank(r.reasoning) {
            BilledDo(Bill(w, l.loops), l1.view, Emit(Working(Reasoning(Strip(r.reasoning)))));
          }
          assert Bill(w, l.loops)(l.loops) == r.usage;
          SynthesisBilled(Bill(w, l.loops), ReactSpec.Billed(l1, r), r, reason);
      }
    }
  }

  lemma {:induction false} IterateBills(w: World, last: nat, cfg: Config, l: Loop, cached: bool)
    requires Paid(w, last, l) && !Dirty(l.view.log) && last == Iterate(w, cfg, l, cached).1.loops
    ensures Accounted(Bill(w, last), Iterate(w, cfg, l, cached).0.view.log)
    decreases if l.loops < cfg.maxLoops then cfg.maxLoops - l.loops else 0
  {
    TurnLoops(w, cfg, l, cached);
    LoopsGrow(w, cfg, l, cached);
    TurnBills(w, last, cfg, l, cached);
    match TurnOf(w, cfg, l, cached) {
      case Over(_, _) =>
      case OutOfBudget(l1, reason) => SynthesizeBilled(w, cfg, l1, reason);
      case Again(l1) =>
        AgainMeansBudget(w, cfg, l, cached);
        IterateBills(w, last, cfg, l1, cached);
    }
  }

  lemma OpeningPaid(w: World, last: nat, start: Db, text: string)
    ensures Paid(w, last, FirstLoop(OpeningView(start, text))) && !Dirty(OpeningView(start, text).log)
  {
    assert Quiescent(OpeningView(start, text).log);
    QuiescentBilled(Bill(w, last), OpeningView(start, text).log);
  }

  /** Every row of a run that counts tokens counts those of the reply before it, and no reply is counted twice. */
  lemma RunBilled(start: Db, w: World, cfg: Config, cached: bool)
    ensures var (e, l) := RunResult(w, cfg, start, cached); Accounted(Bill(w, l.loops), e.view.log)
  {
    var (e, l) := RunResult(w, cfg, start, cached);
    if |start.messages| >= HARD_CAP {
      assert Quiescent(e.view.log);
      QuiescentBilled(Bill(w, l.loops), e.view.log);
    } else {
      OpeningPaid(w, l.loops, start, cfg.userText);
      IterateBills(w, l.loops, cfg, FirstLoop(OpeningView(start, cfg.userText)), cached);
    }
  }

  /** A run cut while it waits for the provider leaves everything it has written stored. */
  lemma WaitingIsSafe(start: Db, w: World, cfg: Config, cached: bool, k: nat, flagSet: bool, why: Interruption, tally: Tally,
                      loops: nat)
    requires k < |RunResult(w, cfg, start, cached).0.view.log| && RunResult(w, cfg, start, cached).0.view.log[k].Ask?
    ensures var log := RunResult(w, cfg, start, cached).0.view.log[..k + 1];
            var db := AfterFinally(Replay(start, log), flagSet, why, tally, loops).0;
            db.rows == Replay(start, log).db.rows && db.messages == Replay(start, log).db.messages
  {
    var (e, l) := RunResult(w, cfg, start, cached);
    RunBilled(start, w, cfg, cached);
    AsksAreClean(Bill(w, l.loops), e.view.log);
    WaitingLosesNothing(start, e.view.log, k, flagSet, why, tally, loops);
  }

  // ----- cuts ------------------------------------------------------------------------------

  lemma HonestReplies(w: World, last: nat)
    requires HonestCounts(w)
    ensures HonestBills(Bill(w, last))
  {
    forall k: nat ensures NonNegative(Bill(w, last)(k)) {
      assert w.chat(k).Reply? ==> NonNegative(w.chat(k).reply.usage);
    }
  }

  /** Cut a run anywhere before it settled: if the totals in hand count every reply received, the orphan write stores totals
      that cover the rows committed. */
  lemma CutTotals(start: Db, w: World, cfg: Config, n: nat, flagSet: bool, why: Interruption, tally: Tally, loops: nat)
    requires FreshStart(start) && cfg.maxLoops >= 1 && cfg.maxTokens >= 1 && HonestCounts(w)
    requires n <= |RunResult(w, cfg, start, true).0.view.log| && Settles(RunResult(w, cfg, start, true).0.view.log[..n]) == 0
    requires var (e, l) := RunResult(w, cfg, start, true);
             AtLeast(tally.usage, Plus(SumUsage(start.rows), Spent(Bill(w, l.loops), Received(e.view.log[..n]))))
    ensures var log := RunResult(w, cfg, start, true).0.view.log[..n];
            var db := AfterFinally(Replay(start, log), flagSet, why, tally, loops).0;
            db.run.tally == tally && AtLeast(db.run.tally.usage, SumUsage(db.rows))
  {
    var (e, l) := RunResult(w, cfg, start, true);
    RunBilled(start, w, cfg, true);
    RunExits(start, w, cfg, true);
    RunTrace(start, w, cfg, true);
    GenuinePrefix(start, e.view, n);
    HonestReplies(w, l.loops);
    CutCovered(Bill(w, l.loops), start, e.view.log, n, flagSet, why, tally, loops);
  }
}
