/** What a ReAct run does. The loop is stated once with the embedding cache and once (`cached == false`) with
    both texts embedded anew at every comparison. */
module ReactSpec {
  import opened Basics
  import opened Trace
  import opened Protocol
  import opened Invariants
  import opened Tools
  import opened Similarity
  import opened Synthesis

  datatype Config = Config(maxLoops: nat, maxTokens: int, threshold: real, userText: string)

  datatype EmbedOutcome = Embedded(vector: seq<real>, tokensIn: int, cost: Option<real>) | EmbeddingError

  /** Everything outside the program, as arbitrary total functions: chat replies by iteration, tool attempts by
      iteration and call, embeddings by text, the cancel flag at the head of an iteration and before a call. */
  datatype World = World(
    chat: nat -> ChatOutcome,
    target: string -> Target,
    attempt: (nat, nat, nat) -> Attempt,
    embed: string -> EmbedOutcome,
    root: real -> real,
    synthesis: ChatOutcome,
    cancelHead: nat -> bool,
    cancelCall: (nat, nat) -> bool)

  // ----- reading a reply -------------------------------------------------------------------

  const FINAL_PREFIX := "Final Answer:"
  const THOUGHT_PREFIX := "Thought:"

  datatype Parsed = ToolTurn(thought: string, calls: seq<ToolCall>) | FinalTurn(text: string) | ParseError

  /** `parse_react_response`. */
  function ParseReply(r: ChatReply): Parsed {
    var content := Strip(r.content);
    if r.toolCalls != [] then
      ToolTurn(if StartsWith(content, THOUGHT_PREFIX) then Strip(content[|THOUGHT_PREFIX|..]) else content, r.toolCalls)
    else if content == "" then ParseError
    else if StartsWith(content, FINAL_PREFIX) then FinalTurn(Strip(content[|FINAL_PREFIX|..]))
    else ParseError
  }

  // ----- the loop's variables --------------------------------------------------------------

  /** `embedIn`, `embeds` and `candidates` are what has been charged for embeddings, the texts embedded and the
      texts of the tool turns so far. */
  datatype Loop = Loop(
    view: View, tally: Tally, runSeq: nat, loops: nat, scratchpad: seq<string>,
    prevText: Option<string>, prevVector: Option<seq<real>>,
    embedIn: int, embeds: seq<string>, candidates: seq<string>)

  function FailedAt(l: Loop, reason: Reason): Exit {
    Left(CloseView(l.view, Closing(Failed, Some(reason), None, l.tally, l.loops)))
  }

  function CancelledAt(l: Loop): Exit {
    Left(CloseView(l.view, Closing(Cancelled, Some(CancelRequested), None, l.tally, l.loops)))
  }

  /** Stores the assistant message, which may find the context full, and completes the run. */
  function CompletedAt(l: Loop, reason: Reason, answer: string): Exit {
    if |l.view.db.messages| >= HARD_CAP then Raised(l.view, l.tally, l.loops)
    else
      Left(CloseView(Do(l.view, AddMessage(AssistantSpeaker, answer, [], None)),
                     Closing(Completed, Some(reason), Some(answer), l.tally, l.loops)))
  }

  function WithRow(l: Loop, row: StepRow): Loop {
    l.(runSeq := l.runSeq + 1, view := Do(l.view, AddRow(row)))
  }

  /** The last row, then completion. */
  function ConcludedAt(l: Loop, row: StepRow, reason: Reason, answer: string): Exit {
    CompletedAt(WithRow(l, row), reason, answer)
  }

  function Reasoned(l: Loop, r: ChatReply): Loop {
    l.(view := WithReasoning(l.view, r))
  }

  // ----- the similarity check --------------------------------------------------------------

  datatype Comparison = Measured(loop: Loop, similarity: Option<real>) | Unavailable(loop: Loop)

  /** The books after one embedding call for `text`. */
  function ChargeEmbedding(l: Loop, text: string, tokensIn: int, cost: Option<real>): Loop {
    l.(tally := Charge(l.tally, Usage(tokensIn, 0), cost), embedIn := l.embedIn + tokensIn, embeds := l.embeds + [text])
  }

  /** Embeds the previous candidate, unless the cache holds its vector. */
  function PreviousVector(w: World, l: Loop, cached: bool): Comparison
    requires l.prevText.Some?
  {
    if cached && l.prevVector.Some? then Measured(l, None)
    else
      match w.embed(l.prevText.value)
      case EmbeddingError => Unavailable(l)
      case Embedded(vector, tokensIn, cost) =>
        Measured(ChargeEmbedding(l, l.prevText.value, tokensIn, cost).(prevVector := Some(vector)), None)
  }

  /** Embeds the candidate and measures it against the cached vector. */
  function MeasureNext(w: World, l: Loop, text: string): Comparison {
    match w.embed(text)
    case EmbeddingError => Unavailable(l)
    case Embedded(vector, tokensIn, cost) =>
      var previous := if l.prevVector.Some? then l.prevVector.value else [];
      Measured(ChargeEmbedding(l, text, tokensIn, cost).(prevVector := Some(vector)), Some(Cosine(w.root, vector, previous)))
  }

  /** Compares a candidate with the previous one; there is nothing to compare before the second iteration or
      before a first candidate. */
  function Compare(w: World, l: Loop, text: string, cached: bool): Comparison {
    if l.loops < 2 || l.prevText.None? then Measured(l, None)
    else
      match PreviousVector(w, l, cached)
      case Unavailable(l1) => Unavailable(l1)
      case Measured(l1, _) => MeasureNext(w, l1, text)
  }

  lemma CompareIs(w: World, l: Loop, text: string, cached: bool)
    requires l.loops >= 2 && l.prevText.Some?
    ensures var c := PreviousVector(w, l, cached);
            Compare(w, l, text, cached) == if c.Unavailable? then c else MeasureNext(w, c.loop, text)
  {
  }

  // ----- one turn --------------------------------------------------------------------------

  datatype Turn = Again(loop: Loop) | Over(exit: Exit, loop: Loop) | OutOfBudget(loop: Loop, reason: Reason)

  /** The guard at the end of an iteration. */
  function Guarded(cfg: Config, l: Loop): Turn {
    if l.loops >= cfg.maxLoops then OutOfBudget(l, MaxLoops)
    else if l.tally.usage.tokensOut >= cfg.maxTokens then OutOfBudget(l, MaxTokens)
    else Again(l)
  }

  function ErrorRecorded(l: Loop, r: ChatReply): Loop {
    var l1 := WithRow(l, TextRow(l.runSeq + 1, ErrorRole, "parse_error", r.usage));
    l1.(view := Do(l1.view, Commit))
  }

  function ParseErrorTurn(cfg: Config, l: Loop, r: ChatReply): Turn {
    Guarded(cfg, ErrorRecorded(l, r))
  }

  function FinalTurnEnd(l: Loop, r: ChatReply, text: string): Exit {
    Finished(Reasoned(l, r), r, text)
  }

  function Finished(l: Loop, r: ChatReply, text: string): Exit {
    if Blank(text) then FailedAt(l, if EmptyReason(r).Some? then EmptyReason(r).value else EmptyResponse)
    else ConcludedAt(l, TextRow(l.runSeq + 1, Thought, text, r.usage), FinalAnswer, text)
  }

  function ThoughtRow(l: Loop, r: ChatReply, thought: string): StepRow {
    TextRow(l.runSeq + 1, Thought, thought, r.usage)
  }

  /** A row added and patched at once. */
  function AddedAndPatched(l: Loop, row: StepRow, value: real): Loop {
    var l1 := WithRow(l, row);
    l1.(view := Do(l1.view, PatchRow(l1.runSeq, SetSimilarity(value))))
  }

  /** The thought row, patched with the similarity when one was measured. */
  function RecordThought(l: Loop, r: ChatReply, thought: string, similarity: Option<real>): Loop {
    match similarity
    case None => WithRow(l, ThoughtRow(l, r, thought))
    case Some(value) => AddedAndPatched(l, ThoughtRow(l, r, thought), value)
  }

  /** The thought row and the action row. */
  function RecordTurn(l: Loop, r: ChatReply, thought: string, calls: seq<ToolCall>, similarity: Option<real>): Loop {
    Acted(RecordThought(l, r, thought, similarity), thought, calls)
  }

  function Acted(l: Loop, thought: string, calls: seq<ToolCall>): Loop {
    WithRow(l, ActionRow(l.runSeq + 1, calls)).(
      scratchpad := l.scratchpad + ["Thought: " + thought], candidates := l.candidates + [thought])
  }

  function ActionRow(seqNo: nat, calls: seq<ToolCall>): StepRow {
    StepRow(seqNo, ActionRole, None, None, CallArgs(calls), None, None, None, None)
  }

  function ObservationRow(seqNo: nat, call: ToolCall, payload: ToolPayload): StepRow {
    StepRow(seqNo, Observation, Some(payload.content), Some(call.name), NoArgs, Some(payload), None, None, None)
  }

  function CallResult(w: World, iteration: nat, calls: seq<ToolCall>, i: nat): ToolPayload
    requires i < |calls|
  {
    InvokeResult(calls[i].name, w.target(calls[i].name), AttemptsOf(w, iteration, i))
  }

  function AttemptsOf(w: World, iteration: nat, i: nat): nat -> Attempt {
    (n: nat) => w.attempt(iteration, i, n)
  }

  function Observed(l: Loop, call: ToolCall, payload: ToolPayload): Loop {
    var l1 := WithRow(l.(view := Do(l.view, Invoke(call))), ObservationRow(l.runSeq + 1, call, payload));
    l1.(scratchpad := l.scratchpad + ["Action: " + call.name + "(" + call.arguments + ")", "Observation: " + payload.content])
  }

  /** The tool calls from the `i`-th on; false when a cancel stopped them. */
  function RunCalls(w: World, l: Loop, iteration: nat, calls: seq<ToolCall>, i: nat): (Loop, bool)
    decreases |calls| - i
  {
    if i >= |calls| then (l, true)
    else if w.cancelCall(iteration, i) then (l, false)
    else RunCalls(w, Observed(l, calls[i], CallResult(w, iteration, calls, i)), iteration, calls, i + 1)
  }

  /** One call, unfolded. */
  lemma CallsAre(w: World, l: Loop, iteration: nat, calls: seq<ToolCall>, i: nat)
    requires i < |calls|
    ensures RunCalls(w, l, iteration, calls, i) ==
              if w.cancelCall(iteration, i) then (l, false)
              else RunCalls(w, Observed(l, calls[i], CallResult(w, iteration, calls, i)), iteration, calls, i + 1)
  {
  }

  function AfterCalls(cfg: Config, l: Loop, iteration: nat, thought: string): Turn {
    var v := Do(Do(l.view, Emit(Working(Phase(iteration + 1, "observation")))), Commit);
    Guarded(cfg, l.(view := v, prevText := Some(thought)))
  }

  function Announce(l: Loop, iteration: nat): Loop {
    l.(view := Do(Do(l.view, Emit(Working(Phase(iteration + 1, "thought")))), Emit(Working(Phase(iteration + 1, "action")))))
  }

  /** The calls of a recorded turn are made, unless a cancel stops them. */
  function RunTurnCalls(w: World, cfg: Config, l: Loop, iteration: nat, thought: string, calls: seq<ToolCall>): Turn {
    var (l1, ran) := RunCalls(w, l, iteration, calls, 0);
    if ran then AfterCalls(cfg, l1, iteration, thought) else Over(CancelledAt(l1), l1)
  }

  /** A recorded turn that is similar enough to the one before answers with the previous candidate. */
  function ActOn(w: World, cfg: Config, l: Loop, iteration: nat, thought: string, calls: seq<ToolCall>,
                 similarity: Option<real>): Turn {
    if similarity.Some? && similarity.value >= cfg.threshold then
      Over(CompletedAt(l, Reason.Similarity, if l.prevText.Some? then l.prevText.value else ""), l)
    else RunTurnCalls(w, cfg, l, iteration, thought, calls)
  }

  function ToolTurnOf(w: World, cfg: Config, l: Loop, iteration: nat, r: ChatReply, thought: string,
                      calls: seq<ToolCall>, cached: bool): Turn {
    match Compare(w, Announce(l, iteration), thought, cached)
    case Unavailable(l1) => Over(FailedAt(l1, EmbeddingUnavailable), l1)
    case Measured(l1, similarity) =>
      ActOn(w, cfg, RecordTurn(l1, r, thought, calls, similarity), iteration, thought, calls, similarity)
  }

  /** A tool turn, unfolded. */
  lemma ToolTurnIs(w: World, cfg: Config, l: Loop, iteration: nat, r: ChatReply, thought: string,
                   calls: seq<ToolCall>, cached: bool, c: Comparison)
    requires c == Compare(w, Announce(l, iteration), thought, cached)
    ensures ToolTurnOf(w, cfg, l, iteration, r, thought, calls, cached) ==
              match c
              case Unavailable(l1) => Over(FailedAt(l1, EmbeddingUnavailable), l1)
              case Measured(l1, similarity) =>
                ActOn(w, cfg, RecordTurn(l1, r, thought, calls, similarity), iteration, thought, calls, similarity)
  {
  }

  /** Books of an iteration whose chat answered. */
  function Answered(l: Loop, r: ChatReply): Loop {
    l.(view := Do(l.view, Ask), tally := Charge(l.tally, r.usage, r.cost), loops := l.loops + 1)
  }

  /** What a reply leads to, its books already kept. */
  function OnReply(w: World, cfg: Config, l: Loop, iteration: nat, r: ChatReply, cached: bool): Turn {
    match ParseReply(r)
    case ParseError => ParseErrorTurn(cfg, l, r)
    case FinalTurn(text) => Over(FinalTurnEnd(l, r, text), l)
    case ToolTurn(thought, calls) => ToolTurnOf(w, cfg, l, iteration, r, thought, calls, cached)
  }

  function TurnOf(w: World, cfg: Config, l: Loop, cached: bool): Turn {
    if w.cancelHead(l.loops) then Over(CancelledAt(l), l)
    else
      match w.chat(l.loops)
      case ProviderError =>
        var l1 := l.(view := Do(l.view, Ask));
        Over(FailedAt(l1, LlmProviderError), l1)
      case Reply(r) => OnReply(w, cfg, Answered(l, r), l.loops, r, cached)
  }

  // ----- forced synthesis ------------------------------------------------------------------

  /** The books of a synthesis reply; no iteration is counted for it. */
  function Billed(l: Loop, r: ChatReply): Loop {
    Reasoned(l.(tally := Charge(l.tally, r.usage, r.cost)), r)
  }

  function Synthesized(l: Loop, r: ChatReply, reason: Reason): Exit {
    match EmptyReason(r)
    case Some(why) => FailedAt(l, why)
    case None => ConcludedAt(l, TextRow(l.runSeq + 1, Trace.Synthesis, r.content, r.usage), reason, r.content)
  }

  lemma SynthesizedIs(l: Loop, r: ChatReply, reason: Reason)
    ensures Synthesized(l, r, reason) ==
            if EmptyReason(r).Some? then FailedAt(l, EmptyReason(r).value)
            else ConcludedAt(l, TextRow(l.runSeq + 1, Trace.Synthesis, r.content, r.usage), reason, r.content)
  {
  }

  function Synthesize(w: World, cfg: Config, l: Loop, reason: Reason): Exit {
    if SkipSynthesis(l.tally.usage.tokensOut, cfg.maxTokens, |JoinLines(l.scratchpad)|) then
      FailedAt(l, GuardrailNoSynthesis)
    else
      var l1 := l.(view := Do(l.view, Ask));
      match w.synthesis
      case ProviderError => FailedAt(l1, LlmProviderError)
      case Reply(r) => Synthesized(Billed(l1, r), r, reason)
  }

  // ----- the run ---------------------------------------------------------------------------

  /** The loop from a given state on: how the run exits, and the loop's variables at that moment. */
  function Iterate(w: World, cfg: Config, l: Loop, cached: bool): (Exit, Loop)
    decreases if l.loops < cfg.maxLoops then cfg.maxLoops - l.loops else 0
  {
    match TurnOf(w, cfg, l, cached)
    case Over(e, l1) => (e, l1)
    case OutOfBudget(l1, reason) => (Synthesize(w, cfg, l1, reason), l1)
    case Again(l1) =>
      AgainMeansBudget(w, cfg, l, cached);
      Iterate(w, cfg, l1, cached)
  }

  function FirstLoop(v: View): Loop {
    Loop(v, ZERO_TALLY, 0, 0, [], None, None, 0, [], [])
  }

  function RunResult(w: World, cfg: Config, start: Db, cached: bool): (Exit, Loop) {
    if |start.messages| >= HARD_CAP then
      (Left(ContextFullView(View(start, start, []))), FirstLoop(View(start, start, [])))
    else Iterate(w, cfg, FirstLoop(OpeningView(start, cfg.userText)), cached)
  }

  // ----- progress --------------------------------------------------------------------------

  lemma {:induction false} RunCallsKeeps(w: World, l: Loop, iteration: nat, calls: seq<ToolCall>, i: nat)
    ensures var (l', _) := RunCalls(w, l, iteration, calls, i);
            l'.loops == l.loops && l'.tally == l.tally && l'.prevVector == l.prevVector && l'.prevText == l.prevText
            && l'.embedIn == l.embedIn && l'.embeds == l.embeds && l'.candidates == l.candidates
    decreases |calls| - i
  {
    if i < |calls| && !w.cancelCall(iteration, i) {
      RunCallsKeeps(w, Observed(l, calls[i], CallResult(w, iteration, calls, i)), iteration, calls, i + 1);
    }
  }

  /** What a comparison and the record of a turn leave alone. */
  predicate SameBudget(l: Loop, l': Loop) {
    l'.loops == l.loops && l'.prevText == l.prevText
  }

  lemma CompareKeeps(w: World, l: Loop, text: string, cached: bool)
    ensures SameBudget(l, Compare(w, l, text, cached).loop)
  {
  }

  lemma RecordKeepsBudget(l: Loop, r: ChatReply, thought: string, calls: seq<ToolCall>, similarity: Option<real>)
    ensures SameBudget(l, RecordTurn(l, r, thought, calls, similarity))
  {
  }

  /** An iteration that goes on has used one of the iterations, and there is budget for the next. */
  predicate WithinBudget(cfg: Config, t: Turn, loops: nat) {
    t.Again? ==> t.loop.loops == loops < cfg.maxLoops && t.loop.tally.usage.tokensOut < cfg.maxTokens
  }

  lemma ActOnWithin(w: World, cfg: Config, l: Loop, iteration: nat, thought: string, calls: seq<ToolCall>,
                    similarity: Option<real>)
    ensures WithinBudget(cfg, ActOn(w, cfg, l, iteration, thought, calls, similarity), l.loops)
  {
    RunCallsKeeps(w, l, iteration, calls, 0);
  }

  lemma ToolTurnWithin(w: World, cfg: Config, l: Loop, iteration: nat, r: ChatReply, thought: string,
                       calls: seq<ToolCall>, cached: bool)
    ensures WithinBudget(cfg, ToolTurnOf(w, cfg, l, iteration, r, thought, calls, cached), l.loops)
  {
    var c := Compare(w, Announce(l, iteration), thought, cached);
    ToolTurnIs(w, cfg, l, iteration, r, thought, calls, cached, c);
    CompareKeeps(w, Announce(l, iteration), thought, cached);
    if c.Measured? {
      RecordKeepsBudget(c.loop, r, thought, calls, c.similarity);
      ActOnWithin(w, cfg, RecordTurn(c.loop, r, thought, calls, c.similarity), iteration, thought, calls, c.similarity);
    }
  }

  lemma AgainMeansBudget(w: World, cfg: Config, l: Loop, cached: bool)
    ensures WithinBudget(cfg, TurnOf(w, cfg, l, cached), l.loops + 1)
  {
    if !w.cancelHead(l.loops) && w.chat(l.loops).Reply? {
      var r := w.chat(l.loops).reply;
      if ParseReply(r).ToolTurn? {
        ToolTurnWithin(w, cfg, Answered(l, r), l.loops, r, ParseReply(r).thought, ParseReply(r).calls, cached);
      }
    }
  }
}
