/** What a ReAct run stores as its cost: the sum of what its replies and embeddings reported. */
module ReactCosts {
  import opened Basics
  import opened Trace
  import opened Protocol
  import opened Invariants
  import opened Tools
  import opened Synthesis
  import opened ReactSpec
  import opened ReactFacts
  import opened ReactTheorems

  /** The costs of the first `n` replies. */
  function ReplyCosts(w: World, n: nat): seq<Option<real>> {
    seq(n, k requires 0 <= k < n => ReplyCost(w.chat(k)))
  }

  /** The costs of embedding these texts. */
  function EmbeddingCosts(w: World, texts: seq<string>): seq<Option<real>> {
    seq(|texts|, k requires 0 <= k < |texts| => if w.embed(texts[k]).Embedded? then w.embed(texts[k]).cost else None)
  }

  /** The total in hand is the sum over the replies and the embeddings so far. */
  predicate Costed(w: World, l: Loop) {
    CostsAddUp(l.tally.cost, ReplyCosts(w, l.loops) + EmbeddingCosts(w, l.embeds))
  }

  lemma AnsweredCosted(w: World, l: Loop, r: ChatReply)
    requires Costed(w, l) && w.chat(l.loops) == Reply(r)
    ensures Costed(w, Answered(l, r))
  {
    var a, b := ReplyCosts(w, l.loops), EmbeddingCosts(w, l.embeds);
    CostsSwapped(l.tally.cost, a, b);
    CostAdded(l.tally.cost, b + a, r.cost);
    assert (b + a) + [r.cost] == b + (a + [r.cost]);
    CostsSwapped(AddCost(l.tally.cost, r.cost), b, a + [r.cost]);
    assert ReplyCosts(w, l.loops + 1) == a + [r.cost];
  }

  lemma EmbeddingCosted(w: World, l: Loop, text: string, vector: Option<seq<real>>)
    requires Costed(w, l) && w.embed(text).Embedded?
    ensures Costed(w, ChargeEmbedding(l, text, w.embed(text).tokensIn, w.embed(text).cost).(prevVector := vector))
  {
    var a, b, cost := ReplyCosts(w, l.loops), EmbeddingCosts(w, l.embeds), w.embed(text).cost;
    CostAdded(l.tally.cost, a + b, cost);
    assert (a + b) + [cost] == a + (b + [cost]);
    assert EmbeddingCosts(w, l.embeds + [text]) == b + [cost];
  }

  lemma CompareCosted(w: World, l: Loop, text: string, cached: bool)
    requires Costed(w, l)
    ensures Costed(w, Compare(w, l, text, cached).loop)
  {
    if l.loops >= 2 && l.prevText.Some? {
      CompareIs(w, l, text, cached);
      var c := PreviousVector(w, l, cached);
      if !(cached && l.prevVector.Some?) && w.embed(l.prevText.value).Embedded? {
        EmbeddingCosted(w, l, l.prevText.value, Some(w.embed(l.prevText.value).vector));
      }
      if c.Measured? && w.embed(text).Embedded? {
        EmbeddingCosted(w, c.loop, text, Some(w.embed(text).vector));
      }
    }
  }

  /** What a turn leaves: a sum, and an exit that stores it. */
  predicate TurnCosted(w: World, t: Turn) {
    Costed(w, t.loop) && (t.Over? ==> ExitTally(t.exit) == t.loop.tally && !SynthesisRun(t.exit))
  }

  /** Completed with a synthesized answer. */
  predicate SynthesisRun(e: Exit) {
    e.Left? && e.view.db.run.status == Completed && WithSynthesis(e.view.db.run)
  }

  lemma ClosedTally(v: View, c: Closing)
    requires WellFormed(c)
    ensures ExitTally(Left(CloseView(v, c))) == c.tally
    ensures CloseView(v, c).db.run.status == c.status && CloseView(v, c).db.run.reason == c.reason
  {
    CloseViewDb(v, c);
  }

  lemma FailedTally(l: Loop, reason: Reason)
    ensures ExitTally(FailedAt(l, reason)) == l.tally && !SynthesisRun(FailedAt(l, reason))
    ensures FailedAt(l, reason).Left? && FailedAt(l, reason).view.db.run.reason == Some(reason)
    ensures FailedAt(l, reason).view.db.run.status == Failed
  {
    ClosedTally(l.view, Closing(Failed, Some(reason), None, l.tally, l.loops));
  }

  lemma CancelledTally(l: Loop)
    ensures ExitTally(CancelledAt(l)) == l.tally && !SynthesisRun(CancelledAt(l))
  {
    ClosedTally(l.view, Closing(Cancelled, Some(CancelRequested), None, l.tally, l.loops));
  }

  lemma CompletedTally(l: Loop, reason: Reason, answer: string)
    ensures ExitTally(CompletedAt(l, reason, answer)) == l.tally
    ensures SynthesisRun(CompletedAt(l, reason, answer)) ==> reason.MaxLoops? || reason.MaxTokens?
    ensures CompletedAt(l, reason, answer).Left? ==> CompletedAt(l, reason, answer).view.db.run.status == Completed
  {
    ClosedTally(Do(l.view, AddMessage(AssistantSpeaker, answer, [], None)),
                Closing(Completed, Some(reason), Some(answer), l.tally, l.loops));
  }

  lemma ActOnCosted(w: World, cfg: Config, l: Loop, iteration: nat, thought: string, calls: seq<ToolCall>, similarity: Option<real>)
    requires Costed(w, l)
    ensures TurnCosted(w, ActOn(w, cfg, l, iteration, thought, calls, similarity))
  {
    CompletedTally(l, Reason.Similarity, if l.prevText.Some? then l.prevText.value else "");
    RunCallsKeeps(w, l, iteration, calls, 0);
    CancelledTally(RunCalls(w, l, iteration, calls, 0).0);
  }

  lemma ToolTurnCosted(w: World, cfg: Config, l: Loop, iteration: nat, r: ChatReply, thought: string, calls: seq<ToolCall>, cached: bool)
    requires Costed(w, l)
    ensures TurnCosted(w, ToolTurnOf(w, cfg, l, iteration, r, thought, calls, cached))
  {
    var c := Compare(w, Announce(l, iteration), thought, cached);
    CompareCosted(w, Announce(l, iteration), thought, cached);
    ToolTurnIs(w, cfg, l, iteration, r, thought, calls, cached, c);
    match c {
      case Unavailable(l1) => FailedTally(l1, EmbeddingUnavailable);
      case Measured(l1, similarity) =>
        RecordKeeps(l1, r, thought, calls, similarity);
        ActOnCosted(w, cfg, RecordTurn(l1, r, thought, calls, similarity), iteration, thought, calls, similarity);
    }
  }

  lemma FinishedTally(l: Loop, r: ChatReply, text: string)
    ensures ExitTally(Finished(l, r, text)) == l.tally && !SynthesisRun(Finished(l, r, text))
  {
    if Blank(text) {
      FailedTally(l, if EmptyReason(r).Some? then EmptyReason(r).value else EmptyResponse);
    } else {
      CompletedTally(WithRow(l, TextRow(l.runSeq + 1, Thought, text, r.usage)), FinalAnswer, text);
    }
  }

  lemma FinalCosted(w: World, l: Loop, r: ChatReply, text: string)
    requires Costed(w, l)
    ensures TurnCosted(w, Over(FinalTurnEnd(l, r, text), l))
  {
    FinishedTally(Reasoned(l, r), r, text);
  }

  lemma OnReplyCosted(w: World, cfg: Config, l: Loop, iteration: nat, r: ChatReply, cached: bool)
    requires Costed(w, l)
    ensures TurnCosted(w, OnReply(w, cfg, l, iteration, r, cached))
  {
    match ParseReply(r) {
      case ParseError =>
      case FinalTurn(text) => FinalCosted(w, l, r, text);
      case ToolTurn(thought, calls) => ToolTurnCosted(w, cfg, l, iteration, r, thought, calls, cached);
    }
  }

  lemma TurnIsCosted(w: World, cfg: Config, l: Loop, cached: bool)
    requires Costed(w, l)
    ensures TurnCosted(w, TurnOf(w, cfg, l, cached))
  {
    if w.cancelHead(l.loops) {
      CancelledTally(l);
    } else {
      match w.chat(l.loops) {
        case ProviderError => FailedTally(l.(view := Do(l.view, Ask)), LlmProviderError);
        case Reply(r) =>
          AnsweredCosted(w, l, r);
          OnReplyCosted(w, cfg, Answered(l, r), l.loops, r, cached);
      }
    }
  }

  /** The cost stored: over the replies and embeddings, and over the synthesis reply when there was one to charge. */
  predicate ExitCosted(w: World, e: Exit, l: Loop) {
    var costs := ReplyCosts(w, l.loops) + EmbeddingCosts(w, l.embeds);
    || (CostsAddUp(ExitTally(e).cost, costs) && !SynthesisRun(e))
    || (w.synthesis.Reply? && CostsAddUp(ExitTally(e).cost, costs + [w.synthesis.reply.cost])
        && (e.Left? ==> e.view.db.run.status == Failed || SynthesisRun(e)))
  }

  lemma SynthesizedTally(w: World, l: Loop, r: ChatReply, reason: Reason)
    requires w.synthesis == Reply(r) && (reason.MaxLoops? || reason.MaxTokens?)
    ensures var e := Synthesized(l, r, reason);
            ExitTally(e) == l.tally && (e.Left? ==> e.view.db.run.status == Failed || SynthesisRun(e))
  {
    match EmptyReason(r) {
      case Some(why) => FailedTally(l, why);
      case None =>
        var l1 := WithRow(l, TextRow(l.runSeq + 1, Trace.Synthesis, r.content, r.usage));
        ClosedTally(Do(l1.view, AddMessage(AssistantSpeaker, r.content, [], None)),
                    Closing(Completed, Some(reason), Some(r.content), l1.tally, l1.loops));
    }
  }

  lemma SynthesizeCosted(w: World, cfg: Config, l: Loop, reason: Reason)
    requires Costed(w, l) && (reason.MaxLoops? || reason.MaxTokens?)
    ensures ExitCosted(w, Synthesize(w, cfg, l, reason), l)
  {
    var l1 := l.(view := Do(l.view, Ask));
    if SkipSynthesis(l.tally.usage.tokensOut, cfg.maxTokens, |JoinLines(l.scratchpad)|) {
      FailedTally(l, GuardrailNoSynthesis);
    } else {
      match w.synthesis {
        case ProviderError => FailedTally(l1, LlmProviderError);
        case Reply(r) =>
          SynthesizedTally(w, Billed(l1, r), r, reason);
          CostAdded(l.tally.cost, ReplyCosts(w, l.loops) + EmbeddingCosts(w, l.embeds), r.cost);
      }
    }
  }

  lemma {:induction false} IterateCosted(w: World, cfg: Config, l: Loop, cached: bool)
    requires Costed(w, l)
    ensures var (e, l') := Iterate(w, cfg, l, cached); ExitCosted(w, e, l')
    decreases if l.loops < cfg.maxLoops then cfg.maxLoops - l.loops else 0
  {
    TurnIsCosted(w, cfg, l, cached);
    OutOfBudgetReason(w, cfg, l, cached);
    match TurnOf(w, cfg, l, cached) {
      case Over(_, _) =>
      case OutOfBudget(l1, reason) => SynthesizeCosted(w, cfg, l1, reason);
      case Again(l1) =>
        AgainMeansBudget(w, cfg, l, cached);
        IterateCosted(w, cfg, l1, cached);
    }
  }

  /** The cost a run stores is the sum of what its replies and embeddings reported, the synthesis reply of a synthesized
      answer included, and absent exactly when none of them reported one. */
  lemma RunCosted(start: Db, w: World, cfg: Config, cached: bool)
    requires |start.messages| < HARD_CAP
    ensures var (e, l) := RunResult(w, cfg, start, cached); ExitCosted(w, e, l)
  {
    IterateCosted(w, cfg, FirstLoop(OpeningView(start, cfg.userText)), cached);
  }
}
