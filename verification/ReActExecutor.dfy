/** The ReAct executor as a loop over mutable variables, with the cached vector of the previous candidate. */
module ReActExecutorModule {
  import opened Basics
  import opened Trace
  import opened Protocol
  import opened Invariants
  import opened Tools
  import opened Similarity
  import opened Synthesis
  import opened SessionModule
  import opened ReactSpec
  import Theorems = ReactTheorems

  /** How one turn of the loop ends: on with the loop, out of `run` by a return or an exception, or by a `break`. */
  datatype Next = GoOn | Exited(raised: bool) | Broke

  class ReActExecutor {
    const session: Session
    const world: World
    const cfg: Config
    var tally: Tally
    var runSeq: nat
    var loops: nat
    var scratchpad: seq<string>
    var prevCandidateText: Option<string>
    var prevVector: Option<seq<real>>
    var stopReasonPending: Option<Reason>
    var finalized: bool
    ghost var embedIn: int
    ghost var embeds: seq<string>
    ghost var candidates: seq<string>

    constructor (session: Session, world: World, cfg: Config)
      ensures this.session == session && this.world == world && this.cfg == cfg && !finalized
      ensures State() == FirstLoop(session.Now())
    {
      this.session, this.world, this.cfg := session, world, cfg;
      tally, runSeq, loops := ZERO_TALLY, 0, 0;
      scratchpad, prevCandidateText, prevVector := [], None, None;
      stopReasonPending, finalized := None, false;
      embedIn, embeds, candidates := 0, [], [];
    }

    ghost function State(): Loop
      reads this, session
    {
      Loop(session.Now(), tally, runSeq, loops, scratchpad, prevCandidateText, prevVector, embedIn, embeds, candidates)
    }

    ghost function ExitNow(raised: bool): Exit
      reads this, session
    {
      if raised then Raised(session.Now(), tally, loops) else Left(session.Now())
    }

    // ----- exits ---------------------------------------------------------------------------

    method Fail(reason: Reason)
      requires session.Valid()
      modifies this`finalized, session
      ensures session.Valid() && finalized && ExitNow(false) == FailedAt(old(State()), reason)
    {
      session.Close(Closing(Failed, Some(reason), None, tally, loops));
      finalized := true;
    }

    /** The inner `finally` for an explicit cancel, and the event after it. */
    method Cancel()
      requires session.Valid()
      modifies this`finalized, session
      ensures session.Valid() && finalized && ExitNow(false) == CancelledAt(old(State()))
    {
      session.Close(Closing(Cancelled, Some(CancelRequested), None, tally, loops));
      finalized := true;
    }

    method Complete(reason: Reason, answer: string) returns (raised: bool)
      requires session.Valid() && !finalized
      modifies this`finalized, session
      ensures session.Valid() && (finalized <==> !raised)
      ensures ExitNow(raised) == CompletedAt(old(State()), reason, answer)
    {
      raised := session.AppendMessage(AssistantSpeaker, answer, [], None);
      if !raised {
        session.Close(Closing(Completed, Some(reason), Some(answer), tally, loops));
        finalized := true;
      }
    }

    // ----- rows and events -----------------------------------------------------------------

    method AppendRow(row: StepRow)
      requires session.Valid()
      modifies this`runSeq, session
      ensures session.Valid() && State() == WithRow(old(State()), row)
    {
      runSeq := runSeq + 1;
      session.AppendRunStep(row);
    }

    method Conclude(row: StepRow, reason: Reason, answer: string) returns (raised: bool)
      requires session.Valid() && !finalized
      modifies this`runSeq, this`finalized, session
      ensures session.Valid() && (finalized <==> !raised)
      ensures ExitNow(raised) == ConcludedAt(old(State()), row, reason, answer)
    {
      AppendRow(row);
      raised := Complete(reason, answer);
    }

    method YieldReasoning(r: ChatReply)
      requires session.Valid()
      modifies session
      ensures session.Valid() && State() == Reasoned(old(State()), r)
    {
      if !Blank(r.reasoning) {
        session.Yield(Working(Reasoning(Strip(r.reasoning))));
      }
    }

    // ----- similarity ----------------------------------------------------------------------

    /** `_embed_text`, charged when it answers. */
    method EmbedText(text: string) returns (outcome: EmbedOutcome)
      modifies this`tally, this`embedIn, this`embeds
      ensures outcome == world.embed(text)
      ensures State() == match outcome
                         case EmbeddingError => old(State())
                         case Embedded(_, tokensIn, cost) => ChargeEmbedding(old(State()), text, tokensIn, cost)
    {
      outcome := world.embed(text);
      if outcome.Embedded? {
        tally := Charge(tally, Usage(outcome.tokensIn, 0), outcome.cost);
        embedIn := embedIn + outcome.tokensIn;
        embeds := embeds + [text];
      }
    }

    /** The vector of the previous candidate, from the cache when it is there. */
    method FetchPrevious() returns (ok: bool)
      requires prevCandidateText.Some?
      modifies this`tally, this`prevVector, this`embedIn, this`embeds
      ensures PreviousVector(world, old(State()), true) == if ok then Measured(State(), None) else Unavailable(State())
    {
      if prevVector.None? {
        var outcome := EmbedText(prevCandidateText.value);
        if outcome.EmbeddingError? {
          return false;
        }
        prevVector := Some(outcome.vector);
      }
      return true;
    }

    method CompareCandidate(text: string) returns (ok: bool, similarity: Option<real>)
      requires IsRoot(world.root)
      modifies this`tally, this`prevVector, this`embedIn, this`embeds
      ensures Compare(world, old(State()), text, true) == if ok then Measured(State(), similarity) else Unavailable(State())
    {
      similarity := None;
      if loops < 2 || prevCandidateText.None? {
        return true, None;
      }
      ok := FetchPrevious();
      if !ok {
        return false, None;
      }
      var current := EmbedText(text);
      if current.EmbeddingError? {
        return false, None;
      }
      var value := CosineSimilarity(world.root, current.vector, if prevVector.Some? then prevVector.value else []);
      prevVector := Some(current.vector);
      return true, Some(value);
    }

    // ----- a tool turn ---------------------------------------------------------------------

    method StoreThought(r: ChatReply, thought: string, similarity: Option<real>)
      requires session.Valid()
      modifies this`runSeq, session
      ensures session.Valid() && State() == RecordThought(old(State()), r, thought, similarity)
    {
      AppendRow(TextRow(runSeq + 1, Thought, thought, r.usage));
      if similarity.Some? {
        session.UpdateRunStep(runSeq, SetSimilarity(similarity.value));
      }
    }

    method StoreToolTurn(r: ChatReply, thought: string, calls: seq<ToolCall>, similarity: Option<real>)
      requires session.Valid()
      modifies this`runSeq, this`scratchpad, this`candidates, session
      ensures session.Valid() && State() == RecordTurn(old(State()), r, thought, calls, similarity)
    {
      StoreThought(r, thought, similarity);
      StoreAction(thought, calls);
    }

    method StoreAction(thought: string, calls: seq<ToolCall>)
      requires session.Valid()
      modifies this`runSeq, this`scratchpad, this`candidates, session
      ensures session.Valid() && State() == Acted(old(State()), thought, calls)
    {
      AppendRow(ActionRow(runSeq + 1, calls));
      scratchpad := scratchpad + ["Thought: " + thought];
      candidates := candidates + [thought];
    }

    method Observe(call: ToolCall, payload: ToolPayload)
      requires session.Valid()
      modifies this`runSeq, this`scratchpad, session
      ensures session.Valid() && State() == Observed(old(State()), call, payload)
    {
      session.Tool(call);
      AppendRow(ObservationRow(runSeq + 1, call, payload));
      scratchpad := scratchpad + ["Action: " + call.name + "(" + call.arguments + ")"];
      scratchpad := scratchpad + ["Observation: " + payload.content];
    }

    /** The loop over the tool calls of a turn; false when a cancel stopped it. */
    method RunToolCalls(iteration: nat, calls: seq<ToolCall>) returns (ran: bool)
      requires session.Valid()
      modifies this`runSeq, this`scratchpad, session
      ensures session.Valid() && (State(), ran) == RunCalls(world, old(State()), iteration, calls, 0)
    {
      for i := 0 to |calls|
        invariant session.Valid()
        invariant RunCalls(world, State(), iteration, calls, i) == RunCalls(world, old(State()), iteration, calls, 0)
      {
        if world.cancelCall(iteration, i) {
          return false;
        }
        var payload, _ := InvokeMcpTool(calls[i].name, world.target(calls[i].name), AttemptsOf(world, iteration, i));
        Observe(calls[i], payload);
      }
      return true;
    }

    /** The checks at the end of an iteration. */
    method CheckBudget() returns (next: Next)
      modifies this`stopReasonPending
      ensures Did(Guarded(cfg, old(State())), next) && State() == old(State())
    {
      if loops >= cfg.maxLoops || tally.usage.tokensOut >= cfg.maxTokens {
        stopReasonPending := Some(if loops >= cfg.maxLoops then MaxLoops else MaxTokens);
        return Broke;
      }
      return GoOn;
    }

    /** What this turn was, in terms of the specification. */
    ghost predicate Did(t: Turn, next: Next)
      reads this, session
    {
      match next
      case GoOn => t == Again(State())
      case Exited(raised) => t.Over? && t.exit == ExitNow(raised) && (finalized <==> !raised)
      case Broke => stopReasonPending.Some? && t == OutOfBudget(State(), stopReasonPending.value)
    }

    method FinishToolTurn(iteration: nat, thought: string) returns (next: Next)
      requires session.Valid()
      modifies this`prevCandidateText, this`stopReasonPending, session
      ensures session.Valid() && Did(AfterCalls(cfg, old(State()), iteration, thought), next)
    {
      session.Yield(Working(Phase(iteration + 1, "observation")));
      session.CommitAll();
      prevCandidateText := Some(thought);
      next := CheckBudget();
    }

    method MakeCalls(iteration: nat, thought: string, calls: seq<ToolCall>) returns (next: Next)
      requires session.Valid() && !finalized
      modifies this`runSeq, this`scratchpad, this`prevCandidateText, this`stopReasonPending, this`finalized, session
      ensures session.Valid() && (next.Exited? || !finalized)
      ensures Did(RunTurnCalls(world, cfg, old(State()), iteration, thought, calls), next)
    {
      var ran := RunToolCalls(iteration, calls);
      if !ran {
        Cancel();
        return Exited(false);
      }
      next := FinishToolTurn(iteration, thought);
    }

    method AnnouncePhases(iteration: nat)
      requires session.Valid()
      modifies session
      ensures session.Valid() && State() == Announce(old(State()), iteration)
    {
      session.Yield(Working(Phase(iteration + 1, "thought")));
      session.Yield(Working(Phase(iteration + 1, "action")));
    }

    /** A turn similar enough to the one before ends the run; otherwise its calls are made. */
    method JudgeSimilarity(iteration: nat, thought: string, calls: seq<ToolCall>, similarity: Option<real>) returns (next: Next)
      requires session.Valid() && !finalized
      modifies this`runSeq, this`scratchpad, this`prevCandidateText, this`stopReasonPending, this`finalized, session
      ensures session.Valid() && (next.Exited? || !finalized)
      ensures Did(ActOn(world, cfg, old(State()), iteration, thought, calls, similarity), next)
    {
      if similarity.Some? && similarity.value >= cfg.threshold {
        var raised := Complete(Reason.Similarity, if prevCandidateText.Some? then prevCandidateText.value else "");
        return Exited(raised);
      }
      next := MakeCalls(iteration, thought, calls);
    }

    method StoreAndAct(iteration: nat, r: ChatReply, thought: string, calls: seq<ToolCall>, similarity: Option<real>)
      returns (next: Next)
      requires session.Valid() && !finalized
      modifies this, session
      ensures session.Valid() && (next.Exited? || !finalized)
      ensures Did(ActOn(world, cfg, RecordTurn(old(State()), r, thought, calls, similarity), iteration, thought, calls,
                        similarity), next)
    {
      StoreToolTurn(r, thought, calls, similarity);
      next := JudgeSimilarity(iteration, thought, calls, similarity);
    }

    method RunToolTurn(iteration: nat, r: ChatReply, thought: string, calls: seq<ToolCall>) returns (next: Next)
      requires session.Valid() && !finalized && IsRoot(world.root)
      modifies this, session
      ensures session.Valid() && (next.Exited? || !finalized)
      ensures Did(ToolTurnOf(world, cfg, old(State()), iteration, r, thought, calls, true), next)
    {
      ghost var l := State();
      AnnouncePhases(iteration);
      var ok, similarity := CompareCandidate(thought);
      ToolTurnIs(world, cfg, l, iteration, r, thought, calls, true,
                 if ok then Measured(State(), similarity) else Unavailable(State()));
      if !ok {
        Fail(EmbeddingUnavailable);
        return Exited(false);
      }
      next := StoreAndAct(iteration, r, thought, calls, similarity);
    }

    // ----- the other turns -----------------------------------------------------------------

    method StoreParseError(r: ChatReply)
      requires session.Valid()
      modifies this`runSeq, session
      ensures session.Valid() && State() == ErrorRecorded(old(State()), r)
    {
      AppendRow(TextRow(runSeq + 1, ErrorRole, "parse_error", r.usage));
      session.CommitAll();
    }

    method RecordParseError(r: ChatReply) returns (next: Next)
      requires session.Valid()
      modifies this`runSeq, this`stopReasonPending, session
      ensures session.Valid() && Did(ParseErrorTurn(cfg, old(State()), r), next)
    {
      StoreParseError(r);
      next := CheckBudget();
    }

    method FinishWith(r: ChatReply, text: string) returns (raised: bool)
      requires session.Valid() && !finalized
      modifies this`runSeq, this`finalized, session
      ensures session.Valid() && (finalized <==> !raised)
      ensures ExitNow(raised) == Finished(old(State()), r, text)
    {
      if Blank(text) {
        Fail(if EmptyReason(r).Some? then EmptyReason(r).value else EmptyResponse);
        return false;
      }
      raised := Conclude(TextRow(runSeq + 1, Thought, text, r.usage), FinalAnswer, text);
    }

    method AnswerFinally(r: ChatReply, text: string) returns (raised: bool)
      requires session.Valid() && !finalized
      modifies this`runSeq, this`finalized, session
      ensures session.Valid() && (finalized <==> !raised)
      ensures ExitNow(raised) == FinalTurnEnd(old(State()), r, text)
    {
      YieldReasoning(r);
      raised := FinishWith(r, text);
    }

    method ChargeReply(r: ChatReply)
      requires session.Valid()
      modifies this`tally, this`loops, session
      ensures session.Valid() && State() == Answered(old(State()), r)
    {
      session.Chat();
      tally := Charge(tally, r.usage, r.cost);
      loops := loops + 1;
    }

    /** What a reply leads to. */
    method React(iteration: nat, r: ChatReply) returns (next: Next)
      requires session.Valid() && !finalized && IsRoot(world.root)
      modifies this, session
      ensures session.Valid() && (next.Exited? || !finalized)
      ensures Did(OnReply(world, cfg, old(State()), iteration, r, true), next)
    {
      match ParseReply(r) {
        case ParseError => next := RecordParseError(r);
        case FinalTurn(text) =>
          var raised := AnswerFinally(r, text);
          next := Exited(raised);
        case ToolTurn(thought, calls) => next := RunToolTurn(iteration, r, thought, calls);
      }
    }

    method RunTurn() returns (next: Next)
      requires session.Valid() && !finalized && IsRoot(world.root)
      modifies this, session
      ensures session.Valid() && (next.Exited? || !finalized)
      ensures Did(TurnOf(world, cfg, old(State()), true), next)
    {
      if world.cancelHead(loops) {
        Cancel();
        return Exited(false);
      }
      var iteration := loops;
      match world.chat(iteration) {
        case ProviderError =>
          session.Chat();
          Fail(LlmProviderError);
          return Exited(false);
        case Reply(r) =>
          ChargeReply(r);
          next := React(iteration, r);
      }
    }

    // ----- synthesis -----------------------------------------------------------------------

    method ChargeSynthesis(r: ChatReply)
      requires session.Valid()
      modifies this`tally, session
      ensures session.Valid()
      ensures State() == Billed(old(State()), r)
    {
      tally := Charge(tally, r.usage, r.cost);
      YieldReasoning(r);
    }

    method UseSynthesis(r: ChatReply, reason: Reason) returns (raised: bool)
      requires session.Valid() && !finalized
      modifies this`runSeq, this`finalized, session
      ensures session.Valid() && (finalized <==> !raised)
      ensures ExitNow(raised) == Synthesized(old(State()), r, reason)
    {
      var why := EmptyReason(r);
      if why.Some? {
        Fail(why.value);
        return false;
      }
      raised := Conclude(TextRow(runSeq + 1, Trace.Synthesis, r.content, r.usage), reason, r.content);
    }

    method ForceSynthesis(reason: Reason) returns (raised: bool)
      requires session.Valid() && !finalized
      modifies this`tally, this`runSeq, this`finalized, session
      ensures session.Valid() && (finalized <==> !raised)
      ensures ExitNow(raised) == Synthesize(world, cfg, old(State()), reason)
    {
      if SkipSynthesis(tally.usage.tokensOut, cfg.maxTokens, |JoinLines(scratchpad)|) {
        Fail(GuardrailNoSynthesis);
        return false;
      }
      session.Chat();
      match world.synthesis {
        case ProviderError =>
          Fail(LlmProviderError);
          return false;
        case Reply(r) =>
          ChargeSynthesis(r);
          raised := UseSynthesis(r, reason);
      }
    }

    // ----- the run -------------------------------------------------------------------------

    /** The `while True` loop: it is left by an exit, or by a `break` that leaves a stop reason pending. */
    method Loops() returns (next: Next)
      requires session.Valid() && !finalized && IsRoot(world.root)
      modifies this, session
      ensures session.Valid() && !next.GoOn?
      ensures next.Exited? ==>
                Iterate(world, cfg, old(State()), true).0 == ExitNow(next.raised) && (finalized <==> !next.raised)
      ensures next.Broke? ==>
                && !finalized && stopReasonPending.Some?
                && Iterate(world, cfg, old(State()), true).0 == Synthesize(world, cfg, State(), stopReasonPending.value)
    {
      ghost var l0 := State();
      while true
        invariant session.Valid() && !finalized
        invariant Iterate(world, cfg, State(), true) == Iterate(world, cfg, l0, true)
        decreases if loops < cfg.maxLoops then cfg.maxLoops - loops else 0
      {
        AgainMeansBudget(world, cfg, State(), true);
        next := RunTurn();
        if !next.GoOn? {
          return;
        }
      }
    }

    /** Stores the user's message and announces the run; a full context ends it at once. */
    method Open() returns (full: bool)
      requires session.Valid() && session.Now() == View(session.start, session.start, []) && !finalized
      modifies this`finalized, session
      ensures session.Valid() && (full <==> |session.start.messages| >= HARD_CAP) && finalized == full
      ensures session.Now() == if full then ContextFullView(View(session.start, session.start, []))
                               else OpeningView(session.start, cfg.userText)
    {
      full := session.AppendMessage(User, cfg.userText, [], None);
      if full {
        session.FinalizeRun(Closing(Failed, Some(ContextFull), None, ZERO_TALLY, 0));
        finalized := true;
        session.Yield(Working(Plain));
        session.Yield(FailedEvent(ContextFull));
        return;
      }
      session.CommitAll();
      session.Yield(Working(Plain));
    }

    /** The body of the outer `try`. Past the loop a run that has not exited has a stop reason to synthesize for; without
        one it would fall off the end unfinalized, which the contract rules out. */
    method Body() returns (raised: bool)
      requires session.Valid() && session.Now() == View(session.start, session.start, [])
      requires State() == FirstLoop(session.Now()) && !finalized && IsRoot(world.root)
      modifies this, session
      ensures session.Valid() && (finalized <==> !raised)
      ensures RunResult(world, cfg, session.start, true).0 == ExitNow(raised)
    {
      var full := Open();
      if full {
        return false;
      }
      var next := Loops();
      if next.Exited? {
        return next.raised;
      }
      raised := false;
      if stopReasonPending.Some? {
        raised := ForceSynthesis(stopReasonPending.value);
      }
    }

    /** `run`: whatever the world does, it ends with one terminal row; if no exception escaped, the yielded
        events agree with it, and the decisions are those of the loop that caches nothing. */
    method Run(flagSet: bool)
      requires session.Valid() && session.Now() == View(session.start, session.start, [])
      requires Theorems.FreshStart(session.start) && cfg.maxLoops >= 1 && cfg.maxTokens >= 1
      requires State() == FirstLoop(session.Now()) && !finalized && IsRoot(world.root)
      modifies this, session
      ensures session.committed.run.closed && Terminal(session.committed.run.status)
      ensures finalized ==> StreamAgrees(session.events, session.committed.run)
      ensures Settles(session.log) == if finalized then 1 else 0
      ensures finalized ==> Theorems.SameExit(Left(session.Now()), RunResult(world, cfg, session.start, false).0)
    {
      var raised := Body();
      Theorems.EveryRunEndsWell(session.start, world, cfg, true);
      Theorems.CacheRefinesNaiveLoop(session.start, world, cfg);
      ExitSettles(session.start, RunResult(world, cfg, session.start, true).0);
      if !finalized {
        session.OrphanFinalize(flagSet, Crashed, tally, loops);
      }
    }
  }
}
