/** The promises of a ReAct run, for every model, tool, embedding and cancel. */
module ReactTheorems {
  import opened Basics
  import opened Trace
  import opened Protocol
  import opened Invariants
  import opened Tools
  import opened Similarity
  import opened Synthesis
  import opened ReactSpec
  import opened ReactFacts
  import opened Cuts

  predicate FreshStart(start: Db) {
    start.run == FRESH_RUN && start.rows == []
  }

  lemma FirstAtHead(start: Db, cfg: Config)
    requires FreshStart(start) && cfg.maxLoops >= 1 && cfg.maxTokens >= 1
    ensures AtHead(start, cfg, FirstLoop(OpeningView(start, cfg.userText)))
  {
    OpeningIsCalm(start, cfg.userText);
  }

  /** The stream of every run agrees with the database; rows are numbered 1..n, in the trace language, and end where the
      ending says; the stored totals are explained; chats and loops agree but for a chat that raised or a synthesis the
      budget allowed; a completed run's stop reason says what happened. */
  lemma EveryRunEndsWell(start: Db, w: World, cfg: Config, cached: bool)
    requires FreshStart(start) && cfg.maxLoops >= 1 && cfg.maxTokens >= 1
    ensures ExitOk(start, RunResult(w, cfg, start, cached).0)
    ensures |start.messages| < HARD_CAP ==>
              ExitLeft(start, w, cfg, RunResult(w, cfg, start, cached).0, RunResult(w, cfg, start, cached).1)
  {
    if |start.messages| >= HARD_CAP {
      ContextFullExit(start);
    } else {
      FirstAtHead(start, cfg);
      IterateKeeps(start, w, cfg, FirstLoop(OpeningView(start, cfg.userText)), cached);
    }
  }

  lemma RunExits(start: Db, w: World, cfg: Config, cached: bool)
    requires FreshStart(start) && cfg.maxLoops >= 1 && cfg.maxTokens >= 1
    ensures ExitOk(start, RunResult(w, cfg, start, cached).0)
  {
    EveryRunEndsWell(start, w, cfg, cached);
  }

  /** Wherever a run is cut, it settles exactly once and ends closed. */
  lemma OneTerminalWrite(start: Db, w: World, cfg: Config, n: nat, flagSet: bool, why: Interruption, tally: Tally, loops: nat)
    requires FreshStart(start) && cfg.maxLoops >= 1 && cfg.maxTokens >= 1
    requires n <= |RunResult(w, cfg, start, true).0.view.log|
    ensures ClosesOnce(start, RunResult(w, cfg, start, true).0.view.log[..n], flagSet, why, tally, loops)
  {
    RunExits(start, w, cfg, true);
    var e := RunResult(w, cfg, start, true).0;
    ExitClosesOnce(start, e, n, flagSet, why, tally, loops);
  }

  /** Rows numbered 1..n and in the trace language. */
  predicate TraceOk(rows: seq<StepRow>) {
    Numbered(rows) && !PhaseOf(rows).Broken?
  }

  lemma {:induction false} PhaseBefore(rows: seq<StepRow>, later: seq<StepRow>)
    requires rows <= later && !PhaseOf(later).Broken?
    ensures !PhaseOf(rows).Broken?
    decreases |later|
  {
    if |rows| < |later| {
      assert rows <= later[..|later| - 1];
      PhaseBefore(rows, later[..|later| - 1]);
    } else {
      assert rows == later;
    }
  }

  lemma RunTrace(start: Db, w: World, cfg: Config, cached: bool)
    requires FreshStart(start) && cfg.maxLoops >= 1 && cfg.maxTokens >= 1
    ensures TraceOk(RunResult(w, cfg, start, cached).0.view.db.rows)
  {
    EveryRunEndsWell(start, w, cfg, cached);
  }

  /** Wherever a run is cut, what is stored after the `finally` block is a trace in the language as well, and the run, had
      it gone on, would only have added to it: a row is stored with all that is ever recorded in it, or not at all. */
  lemma TraceAtACut(start: Db, w: World, cfg: Config, n: nat, flagSet: bool, why: Interruption, tally: Tally, loops: nat)
    requires FreshStart(start) && cfg.maxLoops >= 1 && cfg.maxTokens >= 1
    requires n <= |RunResult(w, cfg, start, true).0.view.log|
    ensures var e := RunResult(w, cfg, start, true).0;
            var db := AfterFinally(Replay(start, e.view.log[..n]), flagSet, why, tally, loops).0;
            TraceOk(db.rows) && GrowsTo(db, e.view.db)
  {
    var e := RunResult(w, cfg, start, true).0;
    RunExits(start, w, cfg, true);
    RunTrace(start, w, cfg, true);
    LeftAtACut(start, e, n, flagSet, why, tally, loops);
    PhaseBefore(AfterFinally(Replay(start, e.view.log[..n]), flagSet, why, tally, loops).0.rows, e.view.db.rows);
  }

  // ----- totals ----------------------------------------------------------------------------

  /** No reply and no embedding reports a negative count. */
  ghost predicate HonestCounts(w: World) {
    && (forall i: nat :: w.chat(i).Reply? ==> NonNegative(w.chat(i).reply.usage))
    && (w.synthesis.Reply? ==> NonNegative(w.synthesis.reply.usage))
    && (forall text: string :: w.embed(text).Embedded? ==> w.embed(text).tokensIn >= 0)
  }

  lemma CompareCharges(w: World, l: Loop, text: string, cached: bool)
    requires HonestCounts(w)
    ensures Compare(w, l, text, cached).loop.embedIn >= l.embedIn
  {
  }

  lemma ActOnCharges(w: World, cfg: Config, l: Loop, iteration: nat, thought: string, calls: seq<ToolCall>,
                     similarity: Option<real>)
    ensures ActOn(w, cfg, l, iteration, thought, calls, similarity).loop.embedIn == l.embedIn
  {
    RunCallsKeeps(w, l, iteration, calls, 0);
  }

  lemma ToolTurnCharges(w: World, cfg: Config, l: Loop, iteration: nat, r: ChatReply, thought: string,
                        calls: seq<ToolCall>, cached: bool)
    requires HonestCounts(w)
    ensures ToolTurnOf(w, cfg, l, iteration, r, thought, calls, cached).loop.embedIn >= l.embedIn
  {
    var c := Compare(w, Announce(l, iteration), thought, cached);
    ToolTurnIs(w, cfg, l, iteration, r, thought, calls, cached, c);
    CompareCharges(w, Announce(l, iteration), thought, cached);
    if c.Measured? {
      RecordKeeps(c.loop, r, thought, calls, c.similarity);
      ActOnCharges(w, cfg, RecordTurn(c.loop, r, thought, calls, c.similarity), iteration, thought, calls, c.similarity);
    }
  }

  lemma TurnCharges(w: World, cfg: Config, l: Loop, cached: bool)
    requires HonestCounts(w)
    ensures TurnOf(w, cfg, l, cached).loop.embedIn >= l.embedIn
  {
    if !w.cancelHead(l.loops) && w.chat(l.loops).Reply? {
      var r := w.chat(l.loops).reply;
      var p := ParseReply(r);
      if p.ToolTurn? {
        ToolTurnCharges(w, cfg, Answered(l, r), l.loops, r, p.thought, p.calls, cached);
      }
    }
  }

  lemma {:induction false} IterateCharges(w: World, cfg: Config, l: Loop, cached: bool)
    requires HonestCounts(w)
    ensures Iterate(w, cfg, l, cached).1.embedIn >= l.embedIn
    decreases if l.loops < cfg.maxLoops then cfg.maxLoops - l.loops else 0
  {
    TurnCharges(w, cfg, l, cached);
    var t := TurnOf(w, cfg, l, cached);
    if t.Again? {
      AgainMeansBudget(w, cfg, l, cached);
      IterateCharges(w, cfg, t.loop, cached);
    }
  }

  lemma UnrecordedNonNegative(w: World, l: Loop, status: Status, reason: Option<Reason>, asks: nat)
    requires HonestCounts(w)
    ensures NonNegative(Unrecorded(w, l, status, reason, asks))
  {
  }

  /** However a run ends inline, completed, failed or cancelled: what it stores as its totals is the sum over its
      rows, plus the embeddings, plus exactly the reply whose row was never written; so, when no count is negative,
      it is never below the sum over the rows. */
  lemma TokensConserved(start: Db, w: World, cfg: Config, cached: bool)
    requires FreshStart(start) && cfg.maxLoops >= 1 && cfg.maxTokens >= 1 && |start.messages| < HARD_CAP
    requires RunResult(w, cfg, start, cached).0.Left?
    ensures var (e, l) := RunResult(w, cfg, start, cached);
            var db := e.view.committed;
            && TotalsExplained(w, e.view, l) && db == e.view.db
            && (db.run.status == Completed ==> db.run.tally.usage == Plus(SumUsage(db.rows), Usage(l.embedIn, 0)))
            && (HonestCounts(w) ==>
                  && db.run.tally.usage.tokensIn >= SumUsage(db.rows).tokensIn
                  && db.run.tally.usage.tokensOut >= SumUsage(db.rows).tokensOut)
  {
    EveryRunEndsWell(start, w, cfg, cached);
    var (e, l) := RunResult(w, cfg, start, cached);
    if HonestCounts(w) {
      IterateCharges(w, cfg, FirstLoop(OpeningView(start, cfg.userText)), cached);
      UnrecordedNonNegative(w, l, e.view.db.run.status, e.view.db.run.reason, Asks(e.view.log));
    }
  }

  /** A run left to the `finally` block by an exception of its own: the totals in hand, which the block stores, are the
      sums over the rows written plus the embeddings, so they cover the rows committed when no count is negative. */
  lemma RaisedTotals(start: Db, w: World, cfg: Config, cached: bool, flagSet: bool, why: Interruption)
    requires FreshStart(start) && cfg.maxLoops >= 1 && cfg.maxTokens >= 1 && |start.messages| < HARD_CAP
    requires RunResult(w, cfg, start, cached).0.Raised?
    ensures var (e, l) := RunResult(w, cfg, start, cached);
            var db := AfterFinally(e.view, flagSet, why, e.tally, e.loops).0;
            && db.run.tally.usage == Plus(SumUsage(e.view.db.rows), Usage(l.embedIn, 0))
            && (HonestCounts(w) && HonestRows(e.view.db.rows) ==> AtLeast(db.run.tally.usage, SumUsage(db.rows)))
  {
    EveryRunEndsWell(start, w, cfg, cached);
    var (e, l) := RunResult(w, cfg, start, cached);
    RaisedCovers(start, e, flagSet, why);
    if HonestCounts(w) {
      IterateCharges(w, cfg, FirstLoop(OpeningView(start, cfg.userText)), cached);
    }
  }

  // ----- the embedding cache ---------------------------------------------------------------

  /** The cache holds the embedding of the previous candidate, or nothing. */
  predicate CacheOk(w: World, l: Loop) {
    l.prevVector.Some? ==>
      && l.prevText.Some?
      && w.embed(l.prevText.value).Embedded?
      && w.embed(l.prevText.value).vector == l.prevVector.value
  }

  /** Two loops that differ only in the cache and in what embeddings cost. */
  predicate Alike(l: Loop, m: Loop) {
    && l.view == m.view && l.runSeq == m.runSeq && l.loops == m.loops && l.scratchpad == m.scratchpad
    && l.prevText == m.prevText && l.candidates == m.candidates
    && l.tally.usage.tokensOut == m.tally.usage.tokensOut
  }

  /** A run row without the two columns embeddings are charged to. */
  function Erased(run: RunRow): RunRow {
    run.(tally := Tally(Usage(0, run.tally.usage.tokensOut), None))
  }

  /** Two exits with the same decisions, answer, rows, messages and events. */
  predicate SameExit(e: Exit, f: Exit) {
    && (e.Left? <==> f.Left?)
    && e.view.db.rows == f.view.db.rows
    && e.view.db.messages == f.view.db.messages
    && EventsOf(e.view.log) == EventsOf(f.view.log)
    && Erased(e.view.db.run) == Erased(f.view.db.run)
  }

  lemma SameClose(v: View, c: Closing, d: Closing)
    requires WellFormed(c) && d == c.(tally := d.tally) && c.tally.usage.tokensOut == d.tally.usage.tokensOut
    ensures SameExit(Left(CloseView(v, c)), Left(CloseView(v, d)))
  {
    CloseViewEvents(v, c);
    CloseViewEvents(v, d);
    CloseViewDb(v, c);
    CloseViewDb(v, d);
  }

  lemma SameFailed(l: Loop, m: Loop, reason: Reason)
    requires Alike(l, m)
    ensures SameExit(FailedAt(l, reason), FailedAt(m, reason))
  {
    SameClose(l.view, Closing(Failed, Some(reason), None, l.tally, l.loops), Closing(Failed, Some(reason), None, m.tally, m.loops));
  }

  lemma SameCancelled(l: Loop, m: Loop)
    requires Alike(l, m)
    ensures SameExit(CancelledAt(l), CancelledAt(m))
  {
    SameClose(l.view, Closing(Cancelled, Some(CancelRequested), None, l.tally, l.loops),
              Closing(Cancelled, Some(CancelRequested), None, m.tally, m.loops));
  }

  lemma SameCompleted(l: Loop, m: Loop, reason: Reason, answer: string)
    requires Alike(l, m)
    ensures SameExit(CompletedAt(l, reason, answer), CompletedAt(m, reason, answer))
  {
    if |l.view.db.messages| < HARD_CAP {
      SameClose(Do(l.view, AddMessage(AssistantSpeaker, answer, [], None)),
                Closing(Completed, Some(reason), Some(answer), l.tally, l.loops),
                Closing(Completed, Some(reason), Some(answer), m.tally, m.loops));
    }
  }

  /** The cached comparison measures what the naive one measures, and leaves the candidate's vector cached. */
  lemma CompareAlike(w: World, l: Loop, m: Loop, text: string)
    requires CacheOk(w, l) && Alike(l, m)
    ensures var c, d := Compare(w, l, text, true), Compare(w, m, text, false);
            && Alike(c.loop, d.loop)
            && (c.Measured? <==> d.Measured?)
            && (c.Measured? ==> c.similarity == d.similarity)
            && (c.Measured? && c.similarity.Some? ==>
                  w.embed(text).Embedded? && c.loop.prevVector == Some(w.embed(text).vector))
            && (c.Measured? && c.similarity.None? ==> c.loop == l && (l.loops < 2 || l.prevText.None?))
  {
  }

  lemma ThoughtAlike(l: Loop, m: Loop, r: ChatReply, thought: string, similarity: Option<real>)
    requires Alike(l, m)
    ensures Alike(RecordThought(l, r, thought, similarity), RecordThought(m, r, thought, similarity))
  {
  }

  lemma ActedAlike(l: Loop, m: Loop, thought: string, calls: seq<ToolCall>)
    requires Alike(l, m)
    ensures Alike(Acted(l, thought, calls), Acted(m, thought, calls))
  {
  }

  lemma RecordAlike(l: Loop, m: Loop, r: ChatReply, thought: string, calls: seq<ToolCall>, similarity: Option<real>)
    requires Alike(l, m)
    ensures Alike(RecordTurn(l, r, thought, calls, similarity), RecordTurn(m, r, thought, calls, similarity))
  {
    ThoughtAlike(l, m, r, thought, similarity);
    ActedAlike(RecordThought(l, r, thought, similarity), RecordThought(m, r, thought, similarity), thought, calls);
  }

  lemma {:induction false} CallsAlike(w: World, l: Loop, m: Loop, iteration: nat, calls: seq<ToolCall>, i: nat)
    requires Alike(l, m)
    ensures RunCalls(w, l, iteration, calls, i).1 == RunCalls(w, m, iteration, calls, i).1
    ensures Alike(RunCalls(w, l, iteration, calls, i).0, RunCalls(w, m, iteration, calls, i).0)
    decreases |calls| - i
  {
    if i < |calls| && !w.cancelCall(iteration, i) {
      var payload := CallResult(w, iteration, calls, i);
      CallsAlike(w, Observed(l, calls[i], payload), Observed(m, calls[i], payload), iteration, calls, i + 1);
    }
  }

  /** At the head of an iteration: a sound cache, and a previous candidate only after a first iteration. */
  predicate CachedHead(w: World, l: Loop) {
    CacheOk(w, l) && (l.prevText.Some? ==> l.loops >= 1)
  }

  /** Turns with the same outcome. */
  predicate SameTurn(w: World, t: Turn, u: Turn) {
    match t
    case Again(l) => u.Again? && Alike(l, u.loop) && CachedHead(w, l)
    case Over(e, _) => u.Over? && SameExit(e, u.exit)
    case OutOfBudget(l, reason) => u.OutOfBudget? && Alike(l, u.loop) && reason == u.reason
  }

  lemma GuardedAlike(w: World, cfg: Config, l: Loop, m: Loop)
    requires Alike(l, m) && CachedHead(w, l)
    ensures SameTurn(w, Guarded(cfg, l), Guarded(cfg, m))
  {
  }

  lemma RecordedAlike(w: World, cfg: Config, l: Loop, m: Loop, iteration: nat, thought: string, calls: seq<ToolCall>)
    requires Alike(l, m) && l.loops >= 1
    requires l.prevVector.Some? ==> w.embed(thought).Embedded? && l.prevVector == Some(w.embed(thought).vector)
    ensures SameTurn(w, RunTurnCalls(w, cfg, l, iteration, thought, calls), RunTurnCalls(w, cfg, m, iteration, thought, calls))
  {
    CallsAlike(w, l, m, iteration, calls, 0);
    RunCallsKeeps(w, l, iteration, calls, 0);
    var (l', ran) := RunCalls(w, l, iteration, calls, 0);
    var (m', _) := RunCalls(w, m, iteration, calls, 0);
    if ran {
      var v := Do(Do(l'.view, Emit(Working(Phase(iteration + 1, "observation")))), Commit);
      GuardedAlike(w, cfg, l'.(view := v, prevText := Some(thought)), m'.(view := v, prevText := Some(thought)));
    } else {
      SameCancelled(l', m');
    }
  }

  lemma ActOnAlike(w: World, cfg: Config, l: Loop, m: Loop, iteration: nat, thought: string, calls: seq<ToolCall>,
                   similarity: Option<real>)
    requires Alike(l, m) && l.loops >= 1
    requires l.prevVector.Some? ==> w.embed(thought).Embedded? && l.prevVector == Some(w.embed(thought).vector)
    ensures SameTurn(w, ActOn(w, cfg, l, iteration, thought, calls, similarity),
                     ActOn(w, cfg, m, iteration, thought, calls, similarity))
  {
    if similarity.Some? && similarity.value >= cfg.threshold {
      SameCompleted(l, m, Reason.Similarity, if l.prevText.Some? then l.prevText.value else "");
    } else {
      RecordedAlike(w, cfg, l, m, iteration, thought, calls);
    }
  }

  /** After a comparison: the cache holds the candidate's vector, or nothing was compared and nothing is cached. */
  lemma CacheAfter(w: World, l: Loop, m: Loop, text: string)
    requires CacheOk(w, l) && Alike(l, m) && (l.prevText.Some? ==> l.loops >= 2)
    ensures var c := Compare(w, l, text, true);
            c.Measured? && c.loop.prevVector.Some? ==>
              w.embed(text).Embedded? && c.loop.prevVector == Some(w.embed(text).vector)
    ensures Compare(w, l, text, true).loop.loops == l.loops
  {
    CompareAlike(w, l, m, text);
    CompareKeeps(w, l, text, true);
  }

  lemma ToolTurnAlike(w: World, cfg: Config, l: Loop, m: Loop, iteration: nat, r: ChatReply, thought: string, calls: seq<ToolCall>)
    requires Alike(l, m) && CacheOk(w, l) && l.loops >= 1 && (l.prevText.Some? ==> l.loops >= 2)
    ensures SameTurn(w, ToolTurnOf(w, cfg, l, iteration, r, thought, calls, true),
                     ToolTurnOf(w, cfg, m, iteration, r, thought, calls, false))
  {
    var l0, m0 := Announce(l, iteration), Announce(m, iteration);
    var c, d := Compare(w, l0, thought, true), Compare(w, m0, thought, false);
    CompareAlike(w, l0, m0, thought);
    CacheAfter(w, l0, m0, thought);
    ToolTurnIs(w, cfg, l, iteration, r, thought, calls, true, c);
    ToolTurnIs(w, cfg, m, iteration, r, thought, calls, false, d);
    if c.Unavailable? {
      SameFailed(c.loop, d.loop, EmbeddingUnavailable);
    } else {
      RecordAlike(c.loop, d.loop, r, thought, calls, c.similarity);
      RecordKeeps(c.loop, r, thought, calls, c.similarity);
      ActOnAlike(w, cfg, RecordTurn(c.loop, r, thought, calls, c.similarity),
                 RecordTurn(d.loop, r, thought, calls, c.similarity), iteration, thought, calls, c.similarity);
    }
  }

  lemma SameConcluded(l: Loop, m: Loop, row: StepRow, reason: Reason, answer: string)
    requires Alike(l, m)
    ensures SameExit(ConcludedAt(l, row, reason, answer), ConcludedAt(m, row, reason, answer))
  {
    SameCompleted(WithRow(l, row), WithRow(m, row), reason, answer);
  }

  lemma FinalAlike(l: Loop, m: Loop, r: ChatReply, text: string)
    requires Alike(l, m)
    ensures SameExit(FinalTurnEnd(l, r, text), FinalTurnEnd(m, r, text))
  {
    var l1, m1 := Reasoned(l, r), Reasoned(m, r);
    if Blank(text) {
      SameFailed(l1, m1, if EmptyReason(r).Some? then EmptyReason(r).value else EmptyResponse);
    } else {
      SameConcluded(l1, m1, TextRow(l.runSeq + 1, Thought, text, r.usage), FinalAnswer, text);
    }
  }

  lemma ErrorAlike(w: World, l: Loop, m: Loop, r: ChatReply)
    requires Alike(l, m) && CachedHead(w, l)
    ensures Alike(ErrorRecorded(l, r), ErrorRecorded(m, r)) && CachedHead(w, ErrorRecorded(l, r))
  {
  }

  lemma ParseErrorAlike(w: World, cfg: Config, l: Loop, m: Loop, r: ChatReply)
    requires Alike(l, m) && CachedHead(w, l)
    ensures SameTurn(w, ParseErrorTurn(cfg, l, r), ParseErrorTurn(cfg, m, r))
  {
    ErrorAlike(w, l, m, r);
    GuardedAlike(w, cfg, ErrorRecorded(l, r), ErrorRecorded(m, r));
  }

  lemma TurnAlike(w: World, cfg: Config, l: Loop, m: Loop)
    requires Alike(l, m) && CachedHead(w, l)
    ensures SameTurn(w, TurnOf(w, cfg, l, true), TurnOf(w, cfg, m, false))
  {
    if w.cancelHead(l.loops) {
      SameCancelled(l, m);
    } else {
      match w.chat(l.loops) {
        case ProviderError =>
          SameFailed(l.(view := Do(l.view, Ask)), m.(view := Do(m.view, Ask)), LlmProviderError);
        case Reply(r) =>
          var l1, m1 := Answered(l, r), Answered(m, r);
          match ParseReply(r) {
            case ParseError => ParseErrorAlike(w, cfg, l1, m1, r);
            case FinalTurn(text) => FinalAlike(l1, m1, r, text);
            case ToolTurn(thought, calls) => ToolTurnAlike(w, cfg, l1, m1, l.loops, r, thought, calls);
          }
      }
    }
  }

  lemma SynthesizeAlike(w: World, cfg: Config, l: Loop, m: Loop, reason: Reason)
    requires Alike(l, m)
    ensures SameExit(Synthesize(w, cfg, l, reason), Synthesize(w, cfg, m, reason))
  {
    if SkipSynthesis(l.tally.usage.tokensOut, cfg.maxTokens, |JoinLines(l.scratchpad)|) {
      SameFailed(l, m, GuardrailNoSynthesis);
    } else {
      var l1, m1 := l.(view := Do(l.view, Ask)), m.(view := Do(m.view, Ask));
      match w.synthesis {
        case ProviderError => SameFailed(l1, m1, LlmProviderError);
        case Reply(r) => SynthesizedAlike(Billed(l1, r), Billed(m1, r), r, reason);
      }
    }
  }

  lemma SynthesizedAlike(l: Loop, m: Loop, r: ChatReply, reason: Reason)
    requires Alike(l, m)
    ensures SameExit(Synthesized(l, r, reason), Synthesized(m, r, reason))
  {
    match EmptyReason(r) {
      case Some(why) => SameFailed(l, m, why);
      case None =>
        SameConcluded(l, m, TextRow(l.runSeq + 1, Trace.Synthesis, r.content, r.usage), reason, r.content);
    }
  }

  lemma {:induction false} IterateAlike(w: World, cfg: Config, l: Loop, m: Loop)
    requires Alike(l, m) && CachedHead(w, l)
    ensures SameExit(Iterate(w, cfg, l, true).0, Iterate(w, cfg, m, false).0)
    decreases if l.loops < cfg.maxLoops then cfg.maxLoops - l.loops else 0
  {
    TurnAlike(w, cfg, l, m);
    var t, u := TurnOf(w, cfg, l, true), TurnOf(w, cfg, m, false);
    match t {
      case Over(_, _) =>
      case OutOfBudget(l1, reason) => SynthesizeAlike(w, cfg, l1, u.loop, reason);
      case Again(l1) =>
        AgainMeansBudget(w, cfg, l, true);
        IterateAlike(w, cfg, l1, u.loop);
    }
  }

  /** With a deterministic embedding, the loop that caches the previous vector makes the same decisions as the
      loop that embeds both texts every time: same rows (similarities included), messages, events, status, stop
      reason, answer, loops and completion tokens. Only what embeddings cost may differ. */
  lemma CacheRefinesNaiveLoop(start: Db, w: World, cfg: Config)
    ensures SameExit(RunResult(w, cfg, start, true).0, RunResult(w, cfg, start, false).0)
  {
    if |start.messages| < HARD_CAP {
      var l := FirstLoop(OpeningView(start, cfg.userText));
      IterateAlike(w, cfg, l, l);
    }
  }

  // ----- one embedding per candidate -------------------------------------------------------

  /** What has been embedded: nothing before the first comparison, then exactly the candidates, in order. */
  predicate EmbeddedOnce(l: Loop) {
    && (l.prevText.Some? <==> l.candidates != [])
    && (l.prevText.Some? ==> l.loops >= 1 && l.prevText.value == l.candidates[|l.candidates| - 1])
    && (l.prevVector.None? ==> l.embeds == [] && |l.candidates| <= 1)
    && (l.prevVector.Some? ==> l.embeds == l.candidates && l.prevText.Some?)
  }

  lemma CompareEmbeds(w: World, l: Loop, text: string)
    requires EmbeddedOnce(l) && (l.prevText.Some? ==> l.loops >= 2)
    ensures var c := Compare(w, l, text, true);
            && c.loop.candidates == l.candidates && c.loop.prevText == l.prevText && c.loop.loops == l.loops
            && c.loop.embeds <= l.candidates + [text]
            && (c.Unavailable? ==> c.loop.embeds <= l.candidates)
            && (c.Measured? && l.prevText.Some? ==> c.loop.embeds == l.candidates + [text] && c.loop.prevVector.Some?)
            && (c.Measured? && l.prevText.None? ==> c.loop == l)
  {
    if l.prevText.Some? && l.prevVector.None? {
      assert l.candidates == [l.prevText.value];
      assert [] + [l.prevText.value] == l.candidates;
    }
  }

  /** Acting on a recorded turn embeds nothing; if the loop goes on, the candidate is the new previous text. */
  lemma ActingEmbedsNothing(w: World, cfg: Config, l: Loop, iteration: nat, thought: string, calls: seq<ToolCall>,
                            similarity: Option<real>)
    ensures var t := ActOn(w, cfg, l, iteration, thought, calls, similarity);
            && t.loop.embeds == l.embeds && t.loop.candidates == l.candidates
            && (t.Again? ==>
                  t.loop.prevText == Some(thought) && t.loop.prevVector == l.prevVector && t.loop.loops == l.loops)
  {
    RunCallsKeeps(w, l, iteration, calls, 0);
  }

  lemma EmbeddedNext(l: Loop, thought: string)
    requires l.prevText == Some(thought) && l.loops >= 1
    requires l.candidates != [] && l.candidates[|l.candidates| - 1] == thought
    requires if l.prevVector.None? then l.embeds == [] && |l.candidates| <= 1 else l.embeds == l.candidates
    ensures EmbeddedOnce(l)
  {
  }

  lemma ToolTurnEmbeds(w: World, cfg: Config, l: Loop, iteration: nat, r: ChatReply, thought: string, calls: seq<ToolCall>)
    requires EmbeddedOnce(l) && l.loops >= 1 && (l.prevText.Some? ==> l.loops >= 2)
    ensures var t := ToolTurnOf(w, cfg, l, iteration, r, thought, calls, true);
            if t.Again? then EmbeddedOnce(t.loop) else t.loop.embeds <= t.loop.candidates
  {
    var l0 := Announce(l, iteration);
    var c := Compare(w, l0, thought, true);
    CompareEmbeds(w, l0, thought);
    ToolTurnIs(w, cfg, l, iteration, r, thought, calls, true, c);
    if c.Measured? {
      var l2 := RecordTurn(c.loop, r, thought, calls, c.similarity);
      RecordKeeps(c.loop, r, thought, calls, c.similarity);
      ActingEmbedsNothing(w, cfg, l2, iteration, thought, calls, c.similarity);
      var t := ActOn(w, cfg, l2, iteration, thought, calls, c.similarity);
      if t.Again? {
        EmbeddedNext(t.loop, thought);
      }
    }
  }

  lemma {:induction false} IterateEmbeds(w: World, cfg: Config, l: Loop)
    requires EmbeddedOnce(l)
    ensures Iterate(w, cfg, l, true).1.embeds <= Iterate(w, cfg, l, true).1.candidates
    decreases if l.loops < cfg.maxLoops then cfg.maxLoops - l.loops else 0
  {
    TurnEmbeds(w, cfg, l);
    var t := TurnOf(w, cfg, l, true);
    if t.Again? {
      AgainMeansBudget(w, cfg, l, true);
      IterateEmbeds(w, cfg, t.loop);
    }
  }

  lemma TurnEmbeds(w: World, cfg: Config, l: Loop)
    requires EmbeddedOnce(l)
    ensures var t := TurnOf(w, cfg, l, true);
            if t.Again? then EmbeddedOnce(t.loop) else t.loop.embeds <= t.loop.candidates
  {
    if !w.cancelHead(l.loops) && w.chat(l.loops).Reply? {
      var r := w.chat(l.loops).reply;
      if ParseReply(r).ToolTurn? {
        ToolTurnEmbeds(w, cfg, Answered(l, r), l.loops, r, ParseReply(r).thought, ParseReply(r).calls);
      }
    }
  }

  /** The texts embedded over a run are a prefix of its candidates, in order: none is embedded twice. */
  lemma EachCandidateEmbeddedOnce(start: Db, w: World, cfg: Config)
    ensures RunResult(w, cfg, start, true).1.embeds <= RunResult(w, cfg, start, true).1.candidates
  {
    if |start.messages| < HARD_CAP {
      IterateEmbeds(w, cfg, FirstLoop(OpeningView(start, cfg.userText)));
    }
  }

  // ----- a repeated candidate --------------------------------------------------------------

  /** The reply at this head is a tool turn whose candidate has the same non-zero embedding as the previous one. */
  predicate Repeats(w: World, l: Loop, r: ChatReply) {
    && l.prevText.Some? && !w.cancelHead(l.loops) && w.chat(l.loops) == Reply(r) && ParseReply(r).ToolTurn?
    && w.embed(l.prevText.value).Embedded? && w.embed(ParseReply(r).thought).Embedded?
    && w.embed(l.prevText.value).vector == w.embed(ParseReply(r).thought).vector
    && w.embed(l.prevText.value).vector != []
    && Dot(w.embed(l.prevText.value).vector, w.embed(l.prevText.value).vector) != 0.0
  }

  /** Completed by similarity, answering with this candidate. */
  predicate StoppedWith(e: Exit, candidate: Option<string>) {
    && e.Left? && e.view.db.run.status == Completed
    && e.view.db.run.reason == Some(Reason.Similarity) && e.view.db.run.answer == candidate
  }

  /** A turn that repeats the previous candidate ends the run by similarity, whatever the threshold up to 1, and answers with
      that candidate. */
  lemma RepeatStops(w: World, cfg: Config, l: Loop, r: ChatReply)
    requires IsRoot(w.root) && cfg.threshold <= 1.0
    requires CachedHead(w, l) && |l.view.db.messages| < HARD_CAP && Repeats(w, l, r)
    ensures var t := TurnOf(w, cfg, l, true); t.Over? && StoppedWith(t.exit, l.prevText)
  {
    var p := ParseReply(r);
    var l1 := Answered(l, r);
    RepeatMeasured(w, Announce(l1, l.loops), p.thought);
    var c := Compare(w, Announce(l1, l.loops), p.thought, true);
    ToolTurnIs(w, cfg, l1, l.loops, r, p.thought, p.calls, true, c);
    RecordKeepsBudget(c.loop, r, p.thought, p.calls, c.similarity);
    RecordMessages(c.loop, r, p.thought, p.calls, c.similarity);
    CompareKeepsMessages(w, Announce(l1, l.loops), p.thought);
    var l2 := RecordTurn(c.loop, r, p.thought, p.calls, c.similarity);
    SimilarStops(w, cfg, l2, l.loops, p.thought, p.calls, 1.0, l.prevText.value);
  }

  lemma RepeatMeasured(w: World, l: Loop, thought: string)
    requires IsRoot(w.root) && CacheOk(w, l) && l.prevText.Some? && l.loops >= 2
    requires w.embed(l.prevText.value).Embedded? && w.embed(thought).Embedded?
    requires w.embed(l.prevText.value).vector == w.embed(thought).vector != []
    requires Dot(w.embed(thought).vector, w.embed(thought).vector) != 0.0
    ensures var c := Compare(w, l, thought, true); c.Measured? && c.similarity == Some(1.0) && c.loop.prevText == l.prevText
  {
    CosineSelf(w.root, w.embed(thought).vector);
    CompareIs(w, l, thought, true);
  }

  lemma CompareKeepsMessages(w: World, l: Loop, text: string)
    ensures Compare(w, l, text, true).loop.view == l.view
  {
  }

  lemma SimilarStops(w: World, cfg: Config, l: Loop, iteration: nat, thought: string, calls: seq<ToolCall>,
                     value: real, previous: string)
    requires value >= cfg.threshold && l.prevText == Some(previous) && |l.view.db.messages| < HARD_CAP
    ensures var t := ActOn(w, cfg, l, iteration, thought, calls, Some(value));
            t.Over? && t.exit.Left? && t.exit.view.db.run.status == Completed
            && t.exit.view.db.run.reason == Some(Reason.Similarity) && t.exit.view.db.run.answer == Some(previous)
  {
    CloseViewDb(Do(l.view, AddMessage(AssistantSpeaker, previous, [], None)),
                Closing(Completed, Some(Reason.Similarity), Some(previous), l.tally, l.loops));
  }

  /** One iteration leads from this head to the next. */
  predicate Leads(w: World, cfg: Config, l: Loop, m: Loop) {
    TurnOf(w, cfg, l, true) == Again(m)
  }

  /** The heads of a run so far, from the first one on. */
  predicate Heads(start: Db, w: World, cfg: Config, heads: seq<Loop>) {
    && heads != [] && heads[0] == FirstLoop(OpeningView(start, cfg.userText))
    && forall i :: 0 <= i < |heads| - 1 ==> Leads(w, cfg, heads[i], heads[i + 1])
  }

  lemma LeadsKeeps(start: Db, w: World, cfg: Config, l: Loop, m: Loop)
    requires CachedHead(w, l) && AtHead(start, cfg, l) && Leads(w, cfg, l, m)
    ensures CachedHead(w, m) && AtHead(start, cfg, m)
  {
    TurnAlike(w, cfg, l, l);
    TurnKeeps(start, w, cfg, l, true);
  }

  lemma LeadsOn(w: World, cfg: Config, l: Loop, m: Loop)
    requires Leads(w, cfg, l, m)
    ensures Iterate(w, cfg, l, true) == Iterate(w, cfg, m, true)
  {
    AgainMeansBudget(w, cfg, l, true);
  }

  /** The run goes through this head, with its cache and its books in order. */
  predicate HeadOf(start: Db, w: World, cfg: Config, l: Loop) {
    CachedHead(w, l) && AtHead(start, cfg, l) && RunResult(w, cfg, start, true) == Iterate(w, cfg, l, true)
  }

  lemma FirstHead(start: Db, w: World, cfg: Config)
    requires FreshStart(start) && cfg.maxLoops >= 1 && cfg.maxTokens >= 1 && |start.messages| < HARD_CAP
    ensures HeadOf(start, w, cfg, FirstLoop(OpeningView(start, cfg.userText)))
  {
    FirstAtHead(start, cfg);
  }

  lemma NextHead(start: Db, w: World, cfg: Config, l: Loop, m: Loop)
    requires HeadOf(start, w, cfg, l) && Leads(w, cfg, l, m)
    ensures HeadOf(start, w, cfg, m)
  {
    LeadsKeeps(start, w, cfg, l, m);
    LeadsOn(w, cfg, l, m);
  }

  lemma {:induction false} RunGoesThrough(start: Db, w: World, cfg: Config, heads: seq<Loop>, k: nat)
    requires FreshStart(start) && cfg.maxLoops >= 1 && cfg.maxTokens >= 1 && |start.messages| < HARD_CAP
    requires Heads(start, w, cfg, heads) && k < |heads|
    ensures HeadOf(start, w, cfg, heads[k])
  {
    if k == 0 {
      FirstHead(start, w, cfg);
    } else {
      RunGoesThrough(start, w, cfg, heads, k - 1);
      assert Leads(w, cfg, heads[k - 1], heads[k - 1 + 1]);
      NextHead(start, w, cfg, heads[k - 1], heads[k]);
    }
  }

  /** A run that comes to a head at which its model repeats the previous candidate ends there, completed by similarity. */
  lemma RepeatEndsTheRun(start: Db, w: World, cfg: Config, heads: seq<Loop>, r: ChatReply)
    requires FreshStart(start) && cfg.maxLoops >= 1 && cfg.maxTokens >= 1 && |start.messages| + 1 < HARD_CAP
    requires IsRoot(w.root) && cfg.threshold <= 1.0
    requires Heads(start, w, cfg, heads) && Repeats(w, heads[|heads| - 1], r)
    ensures StoppedWith(RunResult(w, cfg, start, true).0, heads[|heads| - 1].prevText)
  {
    RunGoesThrough(start, w, cfg, heads, |heads| - 1);
    RepeatStops(w, cfg, heads[|heads| - 1], r);
  }

  lemma RecordMessages(l: Loop, r: ChatReply, thought: string, calls: seq<ToolCall>, similarity: Option<real>)
    ensures RecordTurn(l, r, thought, calls, similarity).view.db.messages == l.view.db.messages
  {
  }
}
