/** What the replies, the embeddings and the tools of a ReAct run say against what the run records and how it ends. */
module ReactReadings {
  import opened Basics
  import opened Sequences
  import opened Trace
  import opened Protocol
  import opened Invariants
  import opened Tools
  import opened Similarity
  import opened Synthesis
  import opened ReactSpec
  import opened ReactFacts
  import opened ReactTheorems

  // ----- what a reply says -----------------------------------------------------------------

  /** Without the white space at its ends, the text is this opening and `rest`. */
  ghost predicate Opens(text: string, opening: string, rest: string) {
    TrimmedTo(text, opening + rest)
  }

  /** The reply gives `answer` as its final answer. */
  ghost predicate SaysFinal(content: string, answer: string) {
    exists rest: string :: Opens(content, "Final Answer:", rest) && TrimmedTo(rest, answer)
  }

  ghost predicate SaysNoFinal(content: string) {
    forall rest: string :: !Opens(content, "Final Answer:", rest)
  }

  /** The reply gives `thought` as its thought: what follows the label, or everything when there is none. */
  ghost predicate SaysThought(content: string, thought: string) {
    || (exists rest: string :: Opens(content, "Thought:", rest) && TrimmedTo(rest, thought))
    || ((forall rest: string :: !Opens(content, "Thought:", rest)) && TrimmedTo(content, thought))
  }

  lemma TrimUnique(s: string, t: string)
    requires TrimmedTo(s, t)
    ensures t == Strip(s)
  {
    var a: string, b: string :| AllSpace(a) && AllSpace(b) && s == a + t + b;
    TrimIsStrip(a, t, b);
  }

  lemma OpensRead(text: string, opening: string)
    ensures StartsWith(Strip(text), opening) ==> Opens(text, opening, Strip(text)[|opening|..])
    ensures forall rest: string :: Opens(text, opening, rest) ==> StartsWith(Strip(text), opening)
  {
    StripTrims(text);
    if StartsWith(Strip(text), opening) {
      assert opening + Strip(text)[|opening|..] == Strip(text);
    }
    forall rest: string | Opens(text, opening, rest) ensures StartsWith(Strip(text), opening) {
      TrimUnique(text, opening + rest);
    }
  }

  lemma ThoughtRead(content: string)
    ensures var t := Strip(content);
            SaysThought(content, if StartsWith(t, THOUGHT_PREFIX) then Strip(t[|THOUGHT_PREFIX|..]) else t)
  {
    OpensRead(content, THOUGHT_PREFIX);
    if StartsWith(Strip(content), THOUGHT_PREFIX) {
      StripTrims(Strip(content)[|THOUGHT_PREFIX|..]);
    } else {
      StripTrims(content);
    }
  }

  lemma FinalRead(content: string)
    ensures var t := Strip(content);
            if StartsWith(t, FINAL_PREFIX) then SaysFinal(content, Strip(t[|FINAL_PREFIX|..])) else SaysNoFinal(content)
  {
    OpensRead(content, FINAL_PREFIX);
    if StartsWith(Strip(content), FINAL_PREFIX) {
      StripTrims(Strip(content)[|FINAL_PREFIX|..]);
    }
  }

  /** A reply with tool calls is a turn with those calls and its thought; one without is a final answer exactly when it
      opens as one, and an error otherwise. */
  lemma ReplyRead(r: ChatReply)
    ensures match ParseReply(r)
            case ToolTurn(thought, calls) => r.toolCalls != [] && calls == r.toolCalls && SaysThought(r.content, thought)
            case FinalTurn(text) => r.toolCalls == [] && SaysFinal(r.content, text)
            case ParseError => r.toolCalls == [] && SaysNoFinal(r.content)
  {
    if r.toolCalls != [] {
      ThoughtRead(r.content);
    } else {
      FinalRead(r.content);
    }
  }

  // ----- reading the rows ------------------------------------------------------------------

  /** The replies recorded in the rows. */
  function Turns(rows: seq<StepRow>): nat {
    if rows == [] then 0
    else Turns(rows[..|rows| - 1]) + if rows[|rows| - 1].role.Thought? || rows[|rows| - 1].role.ErrorRole? then 1 else 0
  }

  /** The last thought in the rows. */
  function LastThought(rows: seq<StepRow>): Option<string> {
    if rows == [] then None
    else if rows[|rows| - 1].role.Thought? then rows[|rows| - 1].content
    else LastThought(rows[..|rows| - 1])
  }

  /** The calls of the last action in the rows. */
  function CallsOf(rows: seq<StepRow>): seq<ToolCall> {
    if rows == [] then []
    else if rows[|rows| - 1].role.ActionRole? then
      (if rows[|rows| - 1].args.CallArgs? then rows[|rows| - 1].args.calls else [])
    else CallsOf(rows[..|rows| - 1])
  }

  /** The observations at the end of the rows. */
  function Seen(rows: seq<StepRow>): nat {
    if rows == [] || !rows[|rows| - 1].role.Observation? then 0 else Seen(rows[..|rows| - 1]) + 1
  }

  /** The lines of the scratchpad the rows amount to. */
  function Notes(rows: seq<StepRow>): seq<string> {
    if rows == [] then []
    else Notes(rows[..|rows| - 1]) + Lines(rows[..|rows| - 1], rows[|rows| - 1])
  }

  function Lines(before: seq<StepRow>, row: StepRow): seq<string> {
    if row.content.None? then []
    else if row.role.Thought? then ["Thought: " + row.content.value]
    else if row.role.Observation? && Seen(before) < |CallsOf(before)| then
      var call := CallsOf(before)[Seen(before)];
      ["Action: " + call.name + "(" + call.arguments + ")", "Observation: " + row.content.value]
    else []
  }

  lemma ReadSnoc(rows: seq<StepRow>, row: StepRow)
    ensures Turns(rows + [row]) == Turns(rows) + if row.role.Thought? || row.role.ErrorRole? then 1 else 0
    ensures LastThought(rows + [row]) == if row.role.Thought? then row.content else LastThought(rows)
    ensures CallsOf(rows + [row]) ==
            if row.role.ActionRole? then (if row.args.CallArgs? then row.args.calls else []) else CallsOf(rows)
    ensures Seen(rows + [row]) == if row.role.Observation? then Seen(rows) + 1 else 0
    ensures Notes(rows + [row]) == Notes(rows) + Lines(rows, row)
  {
    Snoc(rows, row);
  }

  // ----- what a row must say ---------------------------------------------------------------

  /** `v` is the dot product of two vectors over the product of their norms; 0 when they do not compare. */
  predicate CosineIs(root: real -> real, a: seq<real>, b: seq<real>, v: real) {
    if a == [] || |a| != |b| || Dot(a, a) == 0.0 || Dot(b, b) == 0.0 || root(Dot(a, a)) * root(Dot(b, b)) == 0.0 then v == 0.0
    else v == Dot(a, b) / (root(Dot(a, a)) * root(Dot(b, b)))
  }

  /** The similarity stored with a candidate: none without a candidate before it, else that of the two embeddings. */
  predicate MeasureTold(w: World, previous: Option<string>, text: string, similarity: Option<real>) {
    match previous
    case None => similarity == None
    case Some(before) =>
      && w.embed(before).Embedded? && w.embed(text).Embedded? && similarity.Some?
      && CosineIs(w.root, w.embed(text).vector, w.embed(before).vector, similarity.value)
  }

  /** A thought row: the thought of a reply with tool calls, measured against the thought before, or a final answer. */
  ghost predicate ThoughtTold(w: World, previous: Option<string>, c: ChatOutcome, row: StepRow) {
    && c.Reply? && row.content.Some? && row.usage == Some(c.reply.usage)
    && if c.reply.toolCalls != [] then
         SaysThought(c.reply.content, row.content.value) && MeasureTold(w, previous, row.content.value, row.similarity)
       else SaysFinal(c.reply.content, row.content.value) && row.similarity == None
  }

  ghost predicate ErrorTold(c: ChatOutcome, row: StepRow) {
    && c.Reply? && c.reply.toolCalls == [] && SaysNoFinal(c.reply.content)
    && row.content == Some("parse_error") && row.usage == Some(c.reply.usage) && row.similarity == None
  }

  predicate ActionTold(c: ChatOutcome, row: StepRow) {
    c.Reply? && row.args == CallArgs(c.reply.toolCalls) && row.content == None && row.usage == None && row.similarity == None
  }

  /** An observation row: the name of the `i`-th call of turn `k` and what the call must yield; no cancel stopped it. */
  ghost predicate ObservationTold(w: World, k: nat, i: nat, call: ToolCall, row: StepRow) {
    && !w.cancelCall(k, i)
    && row.toolName == Some(call.name) && row.usage == None && row.similarity == None
    && row.result.Some? && row.content == Some(row.result.value.content)
    && (forall n: nat :: AttemptsOf(w, k, i)(n) == w.attempt(k, i, n))
    && Yields(call.name, w.target(call.name), AttemptsOf(w, k, i), row.result.value)
  }

  predicate SynthesisTold(c: ChatOutcome, row: StepRow) {
    c.Reply? && row.content == Some(c.reply.content) && row.usage == Some(c.reply.usage) && row.similarity == None
  }

  /** What a row says, given the rows before it. */
  ghost predicate RowTold(w: World, before: seq<StepRow>, row: StepRow) {
    match row.role
    case Thought => ThoughtTold(w, LastThought(before), w.chat(Turns(before)), row)
    case ErrorRole => ErrorTold(w.chat(Turns(before)), row)
    case ActionRole => Turns(before) > 0 && ActionTold(w.chat(Turns(before) - 1), row)
    case Observation =>
      && Turns(before) > 0 && Seen(before) < |CallsOf(before)|
      && ObservationTold(w, Turns(before) - 1, Seen(before), CallsOf(before)[Seen(before)], row)
    case Synthesis => SynthesisTold(w.synthesis, row)
    case _ => false
  }

  ghost predicate Told(w: World, rows: seq<StepRow>) {
    forall i :: 0 <= i < |rows| ==> RowTold(w, rows[..i], rows[i])
  }

  lemma ToldSnoc(w: World, rows: seq<StepRow>, row: StepRow)
    requires Told(w, rows) && RowTold(w, rows, row)
    ensures Told(w, rows + [row])
  {
    forall i | 0 <= i < |rows + [row]| ensures RowTold(w, (rows + [row])[..i], (rows + [row])[i]) {
      if i < |rows| {
        assert (rows + [row])[..i] == rows[..i];
      } else {
        assert (rows + [row])[..i] == rows;
      }
    }
  }

  /** Every measured similarity is below the threshold. */
  predicate Below(cfg: Config, rows: seq<StepRow>) {
    forall i :: 0 <= i < |rows| && rows[i].similarity.Some? ==> rows[i].similarity.value < cfg.threshold
  }

  /** The last candidate, and it alone, is at least as similar to the one before as the threshold asks. */
  predicate Reached(cfg: Config, rows: seq<StepRow>) {
    && |rows| >= 2 && Below(cfg, rows[..|rows| - 2]) && rows[|rows| - 1].role.ActionRole?
    && rows[|rows| - 2].role.Thought?
    && rows[|rows| - 2].similarity.Some? && rows[|rows| - 2].similarity.value >= cfg.threshold
  }

  // ----- one step --------------------------------------------------------------------------

  /** The heads passed so far: the flag read clear at each, and each got a reply. */
  ghost predicate HeadsRead(w: World, n: nat) {
    forall k: nat :: k < n ==> !w.cancelHead(k) && w.chat(k).Reply?
  }

  /** The rows in hand: all told, with `n` replies in them, numbered, and noted in the scratchpad; the messages are `ms`. */
  ghost predicate Kept(w: World, ms: seq<Message>, l: Loop, n: nat) {
    && Told(w, l.view.db.rows) && Turns(l.view.db.rows) == n && HeadsRead(w, l.loops)
    && Numbered(l.view.db.rows) && |l.view.db.rows| == l.runSeq
    && Notes(l.view.db.rows) == l.scratchpad && l.view.db.messages == ms
  }

  /** At the head of an iteration. */
  ghost predicate AtHeadTold(w: World, ms: seq<Message>, cfg: Config, l: Loop) {
    && Kept(w, ms, l, l.loops) && Below(cfg, l.view.db.rows)
    && LastThought(l.view.db.rows) == l.prevText && CachedHead(w, l) && BudgetLeft(cfg, l)
  }

  /** A reply is in hand, and no row for it yet. */
  ghost predicate InHand(w: World, ms: seq<Message>, cfg: Config, l: Loop, r: ChatReply) {
    && l.loops > 0 && w.chat(l.loops - 1) == Reply(r) && Kept(w, ms, l, l.loops - 1) && Below(cfg, l.view.db.rows)
    && LastThought(l.view.db.rows) == l.prevText && CacheOk(w, l) && (l.prevText.Some? ==> l.loops >= 2)
  }

  /** The rows with one more, not yet noted. */
  lemma AddTold(w: World, ms: seq<Message>, l: Loop, n: nat, row: StepRow)
    requires Kept(w, ms, l, n) && RowTold(w, l.view.db.rows, row) && row.seqNo == l.runSeq + 1
    ensures var rows := l.view.db.rows + [row];
            && Told(w, rows) && Numbered(rows) && |rows| == l.runSeq + 1
            && Turns(rows) == n + (if row.role.Thought? || row.role.ErrorRole? then 1 else 0)
            && Notes(rows) == l.scratchpad + Lines(l.view.db.rows, row)
  {
    ToldSnoc(w, l.view.db.rows, row);
    ReadSnoc(l.view.db.rows, row);
    NumberedSnoc(l.view.db.rows, row);
  }

  lemma BelowSnoc(cfg: Config, rows: seq<StepRow>, row: StepRow)
    requires Below(cfg, rows) && (row.similarity.Some? ==> row.similarity.value < cfg.threshold)
    ensures Below(cfg, rows + [row])
  {
  }

  /** Only the rows, the counters and the scratchpad are looked at. */
  lemma KeptSame(w: World, ms: seq<Message>, l: Loop, l': Loop, n: nat)
    requires Kept(w, ms, l, n) && l'.view.db.rows == l.view.db.rows && l'.runSeq == l.runSeq && l'.scratchpad == l.scratchpad
    requires l'.loops == l.loops && l'.view.db.messages == l.view.db.messages
    ensures Kept(w, ms, l', n)
  {
  }

  // ----- the comparison --------------------------------------------------------------------

  lemma CosineTold(root: real -> real, a: seq<real>, b: seq<real>)
    ensures CosineIs(root, a, b, Cosine(root, a, b))
  {
  }

  /** What a comparison measures, and what it leaves. */
  ghost predicate ComparisonTold(w: World, l: Loop, text: string, c: Comparison) {
    && c.loop.view == l.view && c.loop.runSeq == l.runSeq && c.loop.scratchpad == l.scratchpad
    && c.loop.loops == l.loops && c.loop.prevText == l.prevText
    && match c
       case Unavailable(_) => NotEmbedded(w, l.prevText, text)
       case Measured(l1, similarity) =>
         MeasureTold(w, l.prevText, text, similarity)
         && (l1.prevVector.Some? ==> w.embed(text).Embedded? && l1.prevVector == Some(w.embed(text).vector))
  }

  /** One of the two candidates could not be embedded. */
  predicate NotEmbedded(w: World, previous: Option<string>, text: string) {
    previous.Some? && (w.embed(previous.value).EmbeddingError? || w.embed(text).EmbeddingError?)
  }

  lemma CompareTold(w: World, l: Loop, text: string, cached: bool)
    requires CacheOk(w, l) && (l.prevText.Some? ==> l.loops >= 2)
    ensures ComparisonTold(w, l, text, Compare(w, l, text, cached))
  {
    if l.prevText.Some? {
      CompareIs(w, l, text, cached);
      var c := PreviousVector(w, l, cached);
      if c.Measured? && w.embed(text).Embedded? {
        CosineTold(w.root, w.embed(text).vector, w.embed(l.prevText.value).vector);
      }
    }
  }

  // ----- a tool turn -----------------------------------------------------------------------

  /** A turn is on record and its calls, up to the `i`-th, observed. */
  ghost predicate Acting(w: World, ms: seq<Message>, l: Loop, thought: string, calls: seq<ToolCall>, i: nat) {
    && l.loops > 0 && Kept(w, ms, l, l.loops)
    && LastThought(l.view.db.rows) == Some(thought) && CallsOf(l.view.db.rows) == calls && Seen(l.view.db.rows) == i
  }

  /** The thought row as it ends up. */
  function MeasuredRow(l: Loop, r: ChatReply, thought: string, similarity: Option<real>): StepRow {
    ThoughtRow(l, r, thought).(similarity := similarity)
  }

  lemma ThoughtRecorded(l: Loop, r: ChatReply, thought: string, similarity: Option<real>)
    requires Numbered(l.view.db.rows) && |l.view.db.rows| == l.runSeq
    ensures RecordThought(l, r, thought, similarity).view.db.rows == l.view.db.rows + [MeasuredRow(l, r, thought, similarity)]
    ensures RecordThought(l, r, thought, similarity) ==
            l.(view := RecordThought(l, r, thought, similarity).view, runSeq := l.runSeq + 1)
    ensures RecordThought(l, r, thought, similarity).view.db.messages == l.view.db.messages
  {
    if similarity.Some? {
      PatchedRows(l, ThoughtRow(l, r, thought), similarity.value);
    }
  }

  /** The candidate is as similar as asked to the one before. */
  predicate SimilarEnough(cfg: Config, similarity: Option<real>) {
    similarity.Some? && similarity.value >= cfg.threshold
  }

  lemma ReachedNow(cfg: Config, rows: seq<StepRow>, thought: StepRow, action: StepRow)
    requires Below(cfg, rows) && thought.role.Thought? && action.role.ActionRole? && SimilarEnough(cfg, thought.similarity)
    ensures Reached(cfg, rows + [thought] + [action]) && (rows + [thought] + [action])[..|rows|] == rows
  {
  }

  /** What the record of a turn leaves: the candidate's measure decides what the rows say. */
  ghost predicate Recorded(w: World, ms: seq<Message>, cfg: Config, l: Loop, l': Loop, thought: string, calls: seq<ToolCall>,
                           similarity: Option<real>) {
    && Acting(w, ms, l', thought, calls, 0) && l'.prevText == l.prevText && l'.loops == l.loops && l'.prevVector == l.prevVector
    && if SimilarEnough(cfg, similarity) then
         Reached(cfg, l'.view.db.rows) && LastThought(l'.view.db.rows[..|l'.view.db.rows| - 2]) == l.prevText
       else Below(cfg, l'.view.db.rows)
  }

  /** The candidate is on record, its calls are not. */
  ghost predicate HalfRecorded(w: World, ms: seq<Message>, l: Loop, rows: seq<StepRow>, thought: string) {
    && Told(w, rows) && Numbered(rows) && |rows| == l.runSeq && Turns(rows) == l.loops && HeadsRead(w, l.loops)
    && Notes(rows) == l.scratchpad + ["Thought: " + thought] && LastThought(rows) == Some(thought)
    && l.view.db.rows == rows && l.view.db.messages == ms
  }

  lemma ThoughtReads(w: World, l: Loop, r: ChatReply, thought: string, similarity: Option<real>)
    requires w.chat(Turns(l.view.db.rows)) == Reply(r) && LastThought(l.view.db.rows) == l.prevText
    requires r.toolCalls != [] && SaysThought(r.content, thought) && MeasureTold(w, l.prevText, thought, similarity)
    ensures RowTold(w, l.view.db.rows, MeasuredRow(l, r, thought, similarity))
  {
  }

  lemma HalfKept(w: World, ms: seq<Message>, l: Loop, l1: Loop, row: StepRow, thought: string)
    requires l.loops > 0 && Kept(w, ms, l, l.loops - 1) && RowTold(w, l.view.db.rows, row)
    requires row.seqNo == l.runSeq + 1 && row.role.Thought? && row.content == Some(thought)
    requires l1.view.db.rows == l.view.db.rows + [row] && l1.view.db.messages == l.view.db.messages
    requires l1 == l.(view := l1.view, runSeq := l.runSeq + 1)
    ensures HalfRecorded(w, ms, l1, l.view.db.rows + [row], thought)
  {
    AddTold(w, ms, l, l.loops - 1, row);
    ReadSnoc(l.view.db.rows, row);
  }

  lemma ThoughtKept(w: World, ms: seq<Message>, l: Loop, r: ChatReply, thought: string, similarity: Option<real>)
    requires l.loops > 0 && w.chat(l.loops - 1) == Reply(r) && Kept(w, ms, l, l.loops - 1)
    requires LastThought(l.view.db.rows) == l.prevText && r.toolCalls != [] && SaysThought(r.content, thought)
    requires MeasureTold(w, l.prevText, thought, similarity)
    ensures var l1 := RecordThought(l, r, thought, similarity);
            && HalfRecorded(w, ms, l1, l.view.db.rows + [MeasuredRow(l, r, thought, similarity)], thought)
            && l1.prevText == l.prevText && l1.loops == l.loops && l1.prevVector == l.prevVector
  {
    var row := MeasuredRow(l, r, thought, similarity);
    ThoughtRecorded(l, r, thought, similarity);
    ThoughtReads(w, l, r, thought, similarity);
    HalfKept(w, ms, l, RecordThought(l, r, thought, similarity), row, thought);
  }

  lemma TurnRecorded(w: World, ms: seq<Message>, cfg: Config, l: Loop, r: ChatReply, thought: string, similarity: Option<real>)
    requires l.loops > 0 && w.chat(l.loops - 1) == Reply(r) && Kept(w, ms, l, l.loops - 1) && Below(cfg, l.view.db.rows)
    requires LastThought(l.view.db.rows) == l.prevText && r.toolCalls != [] && SaysThought(r.content, thought)
    requires MeasureTold(w, l.prevText, thought, similarity)
    ensures Recorded(w, ms, cfg, l, RecordTurn(l, r, thought, r.toolCalls, similarity), thought, r.toolCalls, similarity)
  {
    var l1 := RecordThought(l, r, thought, similarity);
    var row := MeasuredRow(l, r, thought, similarity);
    ThoughtKept(w, ms, l, r, thought, similarity);
    ActionKept(w, ms, l1, l.view.db.rows + [row], thought, r, ActionRow(l1.runSeq + 1, r.toolCalls));
    RowsDecide(cfg, l.view.db.rows, row, ActionRow(l1.runSeq + 1, r.toolCalls));
  }

  lemma RowsDecide(cfg: Config, rows: seq<StepRow>, thought: StepRow, action: StepRow)
    requires Below(cfg, rows) && thought.role.Thought? && action.role.ActionRole? && action.similarity.None?
    ensures SimilarEnough(cfg, thought.similarity) ==>
              Reached(cfg, rows + [thought] + [action]) && (rows + [thought] + [action])[..|rows|] == rows
    ensures !SimilarEnough(cfg, thought.similarity) ==> Below(cfg, rows + [thought] + [action])
  {
    if SimilarEnough(cfg, thought.similarity) {
      ReachedNow(cfg, rows, thought, action);
    } else {
      BelowSnoc(cfg, rows, thought);
      BelowSnoc(cfg, rows + [thought], action);
    }
  }

  lemma ActionKept(w: World, ms: seq<Message>, l: Loop, rows: seq<StepRow>, thought: string, r: ChatReply, action: StepRow)
    requires HalfRecorded(w, ms, l, rows, thought) && l.loops > 0 && w.chat(l.loops - 1) == Reply(r)
    requires action == ActionRow(l.runSeq + 1, r.toolCalls)
    ensures var l' := Acted(l, thought, r.toolCalls);
            && l'.view.db.rows == rows + [action] && Acting(w, ms, l', thought, r.toolCalls, 0)
            && l'.prevText == l.prevText && l'.loops == l.loops && l'.prevVector == l.prevVector
  {
    var l0 := l.(scratchpad := l.scratchpad + ["Thought: " + thought]);
    AddTold(w, ms, l0, l.loops, action);
    ReadSnoc(rows, action);
  }

  lemma ObservationReads(w: World, k: nat, calls: seq<ToolCall>, i: nat, seqNo: nat)
    requires i < |calls| && !w.cancelCall(k, i)
    ensures ObservationTold(w, k, i, calls[i], ObservationRow(seqNo, calls[i], CallResult(w, k, calls, i)))
  {
    InvokeYields(calls[i].name, w.target(calls[i].name), AttemptsOf(w, k, i));
  }

  lemma ObservationAdded(w: World, ms: seq<Message>, l: Loop, thought: string, calls: seq<ToolCall>, i: nat, row: StepRow)
    requires Acting(w, ms, l, thought, calls, i) && i < |calls| && row.role.Observation? && row.seqNo == l.runSeq + 1
    requires ObservationTold(w, l.loops - 1, i, calls[i], row)
    ensures var rows := l.view.db.rows + [row];
            && Told(w, rows) && Numbered(rows) && Turns(rows) == l.loops && LastThought(rows) == Some(thought)
            && CallsOf(rows) == calls && Seen(rows) == i + 1
            && Notes(rows) == l.scratchpad + ["Action: " + calls[i].name + "(" + calls[i].arguments + ")",
                                              "Observation: " + row.content.value]
  {
    AddTold(w, ms, l, l.loops, row);
    ReadSnoc(l.view.db.rows, row);
  }

  lemma ObservedLeaves(l: Loop, call: ToolCall, payload: ToolPayload)
    ensures var l1 := Observed(l, call, payload);
            && l1.view.db.rows == l.view.db.rows + [ObservationRow(l.runSeq + 1, call, payload)]
            && l1.view.db.messages == l.view.db.messages && l1.runSeq == l.runSeq + 1
            && l1.loops == l.loops && l1.prevVector == l.prevVector
            && l1.scratchpad == l.scratchpad + ["Action: " + call.name + "(" + call.arguments + ")", "Observation: " + payload.content]
  {
  }

  lemma ObservationKept(w: World, ms: seq<Message>, cfg: Config, k: nat, l: Loop, thought: string, calls: seq<ToolCall>, i: nat)
    requires Acting(w, ms, l, thought, calls, i) && i < |calls| && !w.cancelCall(k, i) && l.loops == k + 1 && Below(cfg, l.view.db.rows)
    ensures var l1 := Observed(l, calls[i], CallResult(w, k, calls, i));
            && Acting(w, ms, l1, thought, calls, i + 1) && Below(cfg, l1.view.db.rows)
            && l1.loops == l.loops && l1.prevVector == l.prevVector
  {
    var payload := CallResult(w, k, calls, i);
    var row := ObservationRow(l.runSeq + 1, calls[i], payload);
    ObservationReads(w, k, calls, i, l.runSeq + 1);
    BelowSnoc(cfg, l.view.db.rows, row);
    ObservedLeaves(l, calls[i], payload);
    ObservedActing(w, ms, l, Observed(l, calls[i], payload), thought, calls, i, row);
  }

  lemma ObservedActing(w: World, ms: seq<Message>, l: Loop, l1: Loop, thought: string, calls: seq<ToolCall>, i: nat, row: StepRow)
    requires Acting(w, ms, l, thought, calls, i) && i < |calls| && row.role.Observation? && row.seqNo == l.runSeq + 1
    requires ObservationTold(w, l.loops - 1, i, calls[i], row)
    requires l1.view.db.rows == l.view.db.rows + [row] && l1.view.db.messages == l.view.db.messages
    requires l1.runSeq == l.runSeq + 1 && l1.loops == l.loops
    requires l1.scratchpad == l.scratchpad + ["Action: " + calls[i].name + "(" + calls[i].arguments + ")",
                                              "Observation: " + row.content.value]
    ensures Acting(w, ms, l1, thought, calls, i + 1)
  {
    ObservationAdded(w, ms, l, thought, calls, i, row);
  }

  /** Where the calls of a turn leave the rows: all observed, or stopped by a cancel at the next one. */
  ghost predicate CallsTold(w: World, ms: seq<Message>, cfg: Config, k: nat, vector: Option<seq<real>>, thought: string, calls: seq<ToolCall>,
                            r: (Loop, bool)) {
    && Below(cfg, r.0.view.db.rows) && Seen(r.0.view.db.rows) <= |calls|
    && Acting(w, ms, r.0, thought, calls, Seen(r.0.view.db.rows))
    && r.0.loops == k + 1 && r.0.prevVector == vector
    && if r.1 then Seen(r.0.view.db.rows) == |calls|
       else Seen(r.0.view.db.rows) < |calls| && w.cancelCall(k, Seen(r.0.view.db.rows))
  }

  lemma CallsStop(w: World, ms: seq<Message>, cfg: Config, k: nat, l: Loop, thought: string, calls: seq<ToolCall>, i: nat, ran: bool)
    requires Acting(w, ms, l, thought, calls, i) && i <= |calls| && Below(cfg, l.view.db.rows) && l.loops == k + 1
    requires if ran then i == |calls| else i < |calls| && w.cancelCall(k, i)
    ensures CallsTold(w, ms, cfg, k, l.prevVector, thought, calls, (l, ran))
  {
  }

  lemma {:induction false} RunCallsTold(w: World, ms: seq<Message>, cfg: Config, k: nat, l: Loop, thought: string, calls: seq<ToolCall>, i: nat)
    requires Acting(w, ms, l, thought, calls, i) && i <= |calls| && Below(cfg, l.view.db.rows) && l.loops == k + 1
    ensures CallsTold(w, ms, cfg, k, l.prevVector, thought, calls, RunCalls(w, l, k, calls, i))
    decreases |calls| - i
  {
    if i == |calls| {
      CallsStop(w, ms, cfg, k, l, thought, calls, i, true);
    } else {
      CallsAre(w, l, k, calls, i);
      if w.cancelCall(k, i) {
        CallsStop(w, ms, cfg, k, l, thought, calls, i, false);
      } else {
        var l1 := Observed(l, calls[i], CallResult(w, k, calls, i));
        ObservationKept(w, ms, cfg, k, l, thought, calls, i);
        RunCallsTold(w, ms, cfg, k, l1, thought, calls, i + 1);
      }
    }
  }

  // ----- the endings -----------------------------------------------------------------------

  /** The synthesis reply is an answer: not all of it is white space. */
  predicate SynthesisAnswers(w: World) {
    w.synthesis.Reply? && !AllSpace(w.synthesis.reply.content)
  }

  predicate SynthesisBlank(w: World) {
    w.synthesis.Reply? && AllSpace(w.synthesis.reply.content)
  }

  /** The last reply calls no tools and gives this final answer. */
  ghost predicate LastSays(w: World, l: Loop, answer: string) {
    && l.loops > 0 && w.chat(l.loops - 1).Reply? && w.chat(l.loops - 1).reply.toolCalls == []
    && SaysFinal(w.chat(l.loops - 1).reply.content, answer)
  }

  /** The last reply calls tools, and its candidate could not be compared with the one before. */
  ghost predicate LastNotEmbedded(w: World, l: Loop, previous: Option<string>) {
    && l.loops > 0 && w.chat(l.loops - 1).Reply? && w.chat(l.loops - 1).reply.toolCalls != []
    && exists thought: string :: SaysThought(w.chat(l.loops - 1).reply.content, thought) && NotEmbedded(w, previous, thought)
  }

  /** The answer of a completed run. */
  ghost predicate AnswerTold(w: World, cfg: Config, run: RunRow, rows: seq<StepRow>, l: Loop) {
    && run.answer.Some? && rows != []
    && match run.reason
       case Some(FinalAnswer) =>
         Below(cfg, rows) && rows[|rows| - 1].role.Thought? && rows[|rows| - 1].content == run.answer
         && !AllSpace(run.answer.value) && LastSays(w, l, run.answer.value)
       case Some(Similarity) => Reached(cfg, rows) && run.answer == LastThought(rows[..|rows| - 2])
       case _ =>
         Below(cfg, rows) && !BudgetLeft(cfg, l) && SynthesisAnswers(w) && rows[|rows| - 1].role.Synthesis?
         && rows[|rows| - 1].content == run.answer && run.answer.value == w.synthesis.reply.content
  }

  /** The cause of a failure. */
  ghost predicate FailureTold(w: World, cfg: Config, reason: Option<Reason>, rows: seq<StepRow>, l: Loop) {
    match reason
    case Some(LlmProviderError) =>
      if BudgetLeft(cfg, l) then !w.cancelHead(l.loops) && w.chat(l.loops).ProviderError? else w.synthesis.ProviderError?
    case Some(EmbeddingUnavailable) => LastNotEmbedded(w, l, LastThought(rows))
    case Some(GuardrailNoSynthesis) =>
      !BudgetLeft(cfg, l) && 2 * (l.tally.usage.tokensOut + |JoinLines(Notes(rows))| / 4) > 3 * cfg.maxTokens
    case Some(MaxTokens) => !BudgetLeft(cfg, l) && SynthesisBlank(w) && w.synthesis.reply.finish == Length
    case Some(ContentFilter) => !BudgetLeft(cfg, l) && SynthesisBlank(w) && w.synthesis.reply.finish == Filtered
    case Some(EmptyResponse) =>
      || LastSays(w, l, "")
      || (!BudgetLeft(cfg, l) && SynthesisBlank(w) && w.synthesis.reply.finish !in {Length, Filtered})
    case _ => false
  }

  /** The flag was read set: at the head, or before the next call of the last action. */
  predicate CancelTold(w: World, rows: seq<StepRow>, l: Loop) {
    || w.cancelHead(l.loops)
    || (l.loops > 0 && Seen(rows) < |CallsOf(rows)| && w.cancelCall(l.loops - 1, Seen(rows)))
  }

  /** Why a run ended as it did. */
  ghost predicate EndingTold(w: World, cfg: Config, run: RunRow, rows: seq<StepRow>, l: Loop) {
    match run.status
    case Completed => AnswerTold(w, cfg, run, rows, l)
    case Failed => Below(cfg, rows) && FailureTold(w, cfg, run.reason, rows, l)
    case Cancelled => Below(cfg, rows) && run.reason == Some(CancelRequested) && CancelTold(w, rows, l)
    case _ => false
  }

  /** The messages of a run: what there was, and the answer of a completed run. */
  predicate AnswerSaid(ms: seq<Message>, db: Db) {
    db.messages == if db.run.status == Completed && db.run.answer.Some?
                   then ms + [Message(AssistantSpeaker, db.run.answer.value, [], None, |ms|)] else ms
  }

  /** What the rows, the messages and the ending of a run say. */
  ghost predicate ExitTold(w: World, cfg: Config, ms: seq<Message>, e: Exit, l: Loop) {
    && Told(w, e.view.db.rows) && HeadsRead(w, l.loops)
    && match e
       case Left(v) => EndingTold(w, cfg, v.db.run, v.db.rows, l) && AnswerSaid(ms, v.db)
       case Raised(v, _, _) =>
         |ms| >= HARD_CAP && v.db.messages == ms && (Below(cfg, v.db.rows) || Reached(cfg, v.db.rows))
  }

  ghost predicate TurnTold(w: World, cfg: Config, ms: seq<Message>, t: ReactSpec.Turn) {
    match t
    case Again(l) => AtHeadTold(w, ms, cfg, l)
    case Over(e, l) => ExitTold(w, cfg, ms, e, l)
    case OutOfBudget(l, _) => Kept(w, ms, l, l.loops) && Below(cfg, l.view.db.rows) && !BudgetLeft(cfg, l)
  }

  lemma FailedTold(w: World, cfg: Config, ms: seq<Message>, l: Loop, l': Loop, reason: Reason)
    requires Told(w, l.view.db.rows) && HeadsRead(w, l'.loops) && l.view.db.messages == ms
    requires Below(cfg, l.view.db.rows) && FailureTold(w, cfg, Some(reason), l.view.db.rows, l')
    ensures ExitTold(w, cfg, ms, FailedAt(l, reason), l')
  {
    CloseViewDb(l.view, Closing(Failed, Some(reason), None, l.tally, l.loops));
  }

  lemma CancelledTold(w: World, cfg: Config, ms: seq<Message>, l: Loop)
    requires Told(w, l.view.db.rows) && HeadsRead(w, l.loops) && l.view.db.messages == ms
    requires Below(cfg, l.view.db.rows) && CancelTold(w, l.view.db.rows, l)
    ensures ExitTold(w, cfg, ms, CancelledAt(l), l)
  {
    CloseViewDb(l.view, Closing(Cancelled, Some(CancelRequested), None, l.tally, l.loops));
  }

  lemma CompletedTold(w: World, cfg: Config, ms: seq<Message>, l: Loop, l': Loop, reason: Reason, answer: string, run: RunRow)
    requires Told(w, l.view.db.rows) && HeadsRead(w, l'.loops) && l.view.db.messages == ms
    requires run.reason == Some(reason) && run.answer == Some(answer) && AnswerTold(w, cfg, run, l.view.db.rows, l')
    ensures ExitTold(w, cfg, ms, CompletedAt(l, reason, answer), l')
  {
    if |l.view.db.messages| < HARD_CAP {
      var v := Do(l.view, AddMessage(AssistantSpeaker, answer, [], None));
      var c := Closing(Completed, Some(reason), Some(answer), l.tally, l.loops);
      CloseViewDb(v, c);
      AnsweredTold(w, cfg, ms, l, l', run, CloseView(v, c));
    }
  }

  lemma AnsweredTold(w: World, cfg: Config, ms: seq<Message>, l: Loop, l': Loop, run: RunRow, v: View)
    requires Told(w, l.view.db.rows) && HeadsRead(w, l'.loops)
    requires run.answer.Some? && AnswerTold(w, cfg, run, l.view.db.rows, l')
    requires v.db.run.reason == run.reason && v.db.run.answer == run.answer && v.db.run.status == Completed
    requires v.db.rows == l.view.db.rows
    requires v.db.messages == ms + [Message(AssistantSpeaker, run.answer.value, [], None, |ms|)]
    ensures ExitTold(w, cfg, ms, Left(v), l')
  {
  }

  // ----- one turn --------------------------------------------------------------------------

  lemma GuardedTold(w: World, cfg: Config, ms: seq<Message>, l: Loop)
    requires Kept(w, ms, l, l.loops) && Below(cfg, l.view.db.rows)
    requires LastThought(l.view.db.rows) == l.prevText && CachedHead(w, l)
    ensures TurnTold(w, cfg, ms, Guarded(cfg, l))
  {
  }

  lemma AfterCallsTold(w: World, cfg: Config, ms: seq<Message>, l: Loop, k: nat, thought: string, calls: seq<ToolCall>, i: nat)
    requires Acting(w, ms, l, thought, calls, i) && Below(cfg, l.view.db.rows)
    requires l.prevVector.Some? ==> w.embed(thought).Embedded? && l.prevVector == Some(w.embed(thought).vector)
    ensures TurnTold(w, cfg, ms, AfterCalls(cfg, l, k, thought))
  {
    var v := Do(Do(l.view, Emit(Working(Phase(k + 1, "observation")))), Commit);
    var l' := l.(view := v, prevText := Some(thought));
    KeptSame(w, ms, l, l', l.loops);
    GuardedTold(w, cfg, ms, l');
  }

  lemma TurnCallsTold(w: World, cfg: Config, ms: seq<Message>, l: Loop, k: nat, thought: string, calls: seq<ToolCall>)
    requires Acting(w, ms, l, thought, calls, 0) && Below(cfg, l.view.db.rows) && l.loops == k + 1
    requires l.prevVector.Some? ==> w.embed(thought).Embedded? && l.prevVector == Some(w.embed(thought).vector)
    ensures TurnTold(w, cfg, ms, RunTurnCalls(w, cfg, l, k, thought, calls))
  {
    RunCallsTold(w, ms, cfg, k, l, thought, calls, 0);
    var (l1, ran) := RunCalls(w, l, k, calls, 0);
    if ran {
      AfterCallsTold(w, cfg, ms, l1, k, thought, calls, |calls|);
    } else {
      StoppedShort(w, ms, cfg, k, l.prevVector, thought, calls, l1);
      CancelledTold(w, cfg, ms, l1);
    }
  }

  /** A cancel stops the calls before the last was made. */
  lemma StoppedShort(w: World, ms: seq<Message>, cfg: Config, k: nat, vector: Option<seq<real>>, thought: string,
                     calls: seq<ToolCall>, l: Loop)
    requires CallsTold(w, ms, cfg, k, vector, thought, calls, (l, false))
    ensures CancelTold(w, l.view.db.rows, l)
  {
  }

  lemma SimilarTold(w: World, cfg: Config, ms: seq<Message>, l: Loop, answer: string)
    requires Told(w, l.view.db.rows) && HeadsRead(w, l.loops) && l.view.db.messages == ms
    requires Reached(cfg, l.view.db.rows) && LastThought(l.view.db.rows[..|l.view.db.rows| - 2]) == Some(answer)
    ensures ExitTold(w, cfg, ms, CompletedAt(l, Reason.Similarity, answer), l)
  {
    CompletedTold(w, cfg, ms, l, l, Reason.Similarity, answer, FRESH_RUN.(reason := Some(Reason.Similarity), answer := Some(answer)));
  }

  lemma ActOnTold(w: World, cfg: Config, ms: seq<Message>, l: Loop, l': Loop, k: nat, thought: string, calls: seq<ToolCall>,
                  similarity: Option<real>)
    requires Recorded(w, ms, cfg, l, l', thought, calls, similarity) && l'.loops == k + 1
    requires similarity.Some? ==> l.prevText.Some?
    requires l.prevVector.Some? ==> w.embed(thought).Embedded? && l.prevVector == Some(w.embed(thought).vector)
    ensures TurnTold(w, cfg, ms, ActOn(w, cfg, l', k, thought, calls, similarity))
  {
    if SimilarEnough(cfg, similarity) {
      SimilarTold(w, cfg, ms, l', l'.prevText.value);
    } else {
      TurnCallsTold(w, cfg, ms, l', k, thought, calls);
    }
  }

  lemma EmbeddingTold(w: World, cfg: Config, ms: seq<Message>, l: Loop, r: ChatReply, thought: string)
    requires l.loops > 0 && w.chat(l.loops - 1) == Reply(r) && Kept(w, ms, l, l.loops - 1) && Below(cfg, l.view.db.rows)
    requires r.toolCalls != [] && SaysThought(r.content, thought) && NotEmbedded(w, LastThought(l.view.db.rows), thought)
    ensures TurnTold(w, cfg, ms, Over(FailedAt(l, EmbeddingUnavailable), l))
  {
    FailedTold(w, cfg, ms, l, l, EmbeddingUnavailable);
  }

  lemma AnnouncedInHand(w: World, cfg: Config, ms: seq<Message>, l: Loop, k: nat, r: ChatReply)
    requires InHand(w, ms, cfg, l, r)
    ensures InHand(w, ms, cfg, Announce(l, k), r) && Announce(l, k).loops == l.loops
  {
    KeptSame(w, ms, l, Announce(l, k), l.loops - 1);
  }

  /** The candidate of the reply in hand was compared with the one before it. */
  ghost predicate Compared(w: World, ms: seq<Message>, cfg: Config, r: ChatReply, thought: string, c: Comparison) {
    var l := c.loop;
    && l.loops > 0 && w.chat(l.loops - 1) == Reply(r) && Kept(w, ms, l, l.loops - 1) && Below(cfg, l.view.db.rows)
    && LastThought(l.view.db.rows) == l.prevText
    && match c
       case Unavailable(_) => NotEmbedded(w, l.prevText, thought)
       case Measured(_, similarity) =>
         MeasureTold(w, l.prevText, thought, similarity)
         && (l.prevVector.Some? ==> w.embed(thought).Embedded? && l.prevVector == Some(w.embed(thought).vector))
  }

  lemma ComparedTold(w: World, cfg: Config, ms: seq<Message>, l: Loop, r: ChatReply, thought: string, cached: bool)
    returns (c: Comparison)
    requires InHand(w, ms, cfg, l, r)
    ensures c == Compare(w, l, thought, cached)
    ensures Compared(w, ms, cfg, r, thought, c) && c.loop.loops == l.loops
  {
    CompareTold(w, l, thought, cached);
    c := Compare(w, l, thought, cached);
    KeptSame(w, ms, l, c.loop, l.loops - 1);
  }

  lemma MeasuredTurnTold(w: World, cfg: Config, ms: seq<Message>, l: Loop, k: nat, r: ChatReply, thought: string,
                         similarity: Option<real>)
    requires l.loops == k + 1 && w.chat(k) == Reply(r) && Kept(w, ms, l, k) && Below(cfg, l.view.db.rows)
    requires LastThought(l.view.db.rows) == l.prevText && r.toolCalls != [] && SaysThought(r.content, thought)
    requires MeasureTold(w, l.prevText, thought, similarity)
    requires l.prevVector.Some? ==> w.embed(thought).Embedded? && l.prevVector == Some(w.embed(thought).vector)
    ensures TurnTold(w, cfg, ms, ActOn(w, cfg, RecordTurn(l, r, thought, r.toolCalls, similarity), k, thought, r.toolCalls, similarity))
  {
    TurnRecorded(w, ms, cfg, l, r, thought, similarity);
    ActOnTold(w, cfg, ms, l, RecordTurn(l, r, thought, r.toolCalls, similarity), k, thought, r.toolCalls, similarity);
  }

  /** What a comparison leads to. */
  function TurnAfter(w: World, cfg: Config, c: Comparison, k: nat, r: ChatReply, thought: string): ReactSpec.Turn {
    match c
    case Unavailable(l1) => Over(FailedAt(l1, EmbeddingUnavailable), l1)
    case Measured(l1, similarity) =>
      ActOn(w, cfg, RecordTurn(l1, r, thought, r.toolCalls, similarity), k, thought, r.toolCalls, similarity)
  }

  lemma ComparedTurn(w: World, cfg: Config, ms: seq<Message>, c: Comparison, k: nat, r: ChatReply, thought: string)
    requires Compared(w, ms, cfg, r, thought, c) && c.loop.loops == k + 1 && r.toolCalls != [] && SaysThought(r.content, thought)
    ensures TurnTold(w, cfg, ms, TurnAfter(w, cfg, c, k, r, thought))
  {
    if c.Unavailable? {
      EmbeddingTold(w, cfg, ms, c.loop, r, thought);
    } else {
      MeasuredTurnTold(w, cfg, ms, c.loop, k, r, thought, c.similarity);
    }
  }

  lemma TurnAfterIs(w: World, cfg: Config, l: Loop, k: nat, r: ChatReply, thought: string, cached: bool, c: Comparison)
    requires c == Compare(w, Announce(l, k), thought, cached)
    ensures ToolTurnOf(w, cfg, l, k, r, thought, r.toolCalls, cached) == TurnAfter(w, cfg, c, k, r, thought)
  {
    ToolTurnIs(w, cfg, l, k, r, thought, r.toolCalls, cached, c);
  }

  lemma ToolTurnTold(w: World, cfg: Config, ms: seq<Message>, l: Loop, k: nat, r: ChatReply, thought: string, cached: bool)
    requires InHand(w, ms, cfg, l, r) && l.loops == k + 1 && r.toolCalls != [] && SaysThought(r.content, thought)
    ensures TurnTold(w, cfg, ms, ToolTurnOf(w, cfg, l, k, r, thought, r.toolCalls, cached))
  {
    AnnouncedInHand(w, cfg, ms, l, k, r);
    var c := ComparedTold(w, cfg, ms, Announce(l, k), r, thought, cached);
    TurnAfterIs(w, cfg, l, k, r, thought, cached, c);
    ComparedTurn(w, cfg, ms, c, k, r, thought);
  }

  /** A blank final answer is empty, and the reply it stands in is not blank. */
  lemma BlankFinal(content: string, text: string)
    requires SaysFinal(content, text) && Blank(text)
    ensures text == "" && !Blank(content)
  {
    assert "" + text + "" == text;
    TrimIsStrip("", text, "");
    var rest: string :| Opens(content, "Final Answer:", rest) && TrimmedTo(rest, text);
    TrimUnique(content, "Final Answer:" + rest);
  }

  lemma FinishedTold(w: World, cfg: Config, ms: seq<Message>, l: Loop, l': Loop, r: ChatReply, text: string)
    requires InHand(w, ms, cfg, l, r) && r.toolCalls == [] && SaysFinal(r.content, text) && l'.loops == l.loops
    requires l'.tally == l.tally
    ensures ExitTold(w, cfg, ms, Finished(l, r, text), l')
  {
    if Blank(text) {
      BlankFinal(r.content, text);
      FailedTold(w, cfg, ms, l, l', EmptyResponse);
    } else {
      FinalTold(w, cfg, ms, l, l', r, text);
    }
  }

  lemma FinalAnswerTold(w: World, cfg: Config, ms: seq<Message>, l: Loop, l': Loop, r: ChatReply, text: string, row: StepRow,
                        run: RunRow)
    requires InHand(w, ms, cfg, l, r) && r.toolCalls == [] && SaysFinal(r.content, text) && l'.loops == l.loops && !Blank(text)
    requires row == TextRow(l.runSeq + 1, Thought, text, r.usage)
    requires run.reason == Some(FinalAnswer) && run.answer == Some(text)
    ensures Told(w, l.view.db.rows + [row]) && AnswerTold(w, cfg, run, l.view.db.rows + [row], l')
  {
    AddTold(w, ms, l, l.loops - 1, row);
    BelowSnoc(cfg, l.view.db.rows, row);
    BlankMeansAllSpace(text);
  }

  lemma FinalTold(w: World, cfg: Config, ms: seq<Message>, l: Loop, l': Loop, r: ChatReply, text: string)
    requires InHand(w, ms, cfg, l, r) && r.toolCalls == [] && SaysFinal(r.content, text) && l'.loops == l.loops && !Blank(text)
    ensures ExitTold(w, cfg, ms, ConcludedAt(l, TextRow(l.runSeq + 1, Thought, text, r.usage), FinalAnswer, text), l')
  {
    var row := TextRow(l.runSeq + 1, Thought, text, r.usage);
    var run := FRESH_RUN.(reason := Some(FinalAnswer), answer := Some(text));
    FinalAnswerTold(w, cfg, ms, l, l', r, text, row, run);
    CompletedTold(w, cfg, ms, WithRow(l, row), l', FinalAnswer, text, run);
  }

  lemma FinalTurnTold(w: World, cfg: Config, ms: seq<Message>, l: Loop, r: ChatReply, text: string)
    requires InHand(w, ms, cfg, l, r) && r.toolCalls == [] && SaysFinal(r.content, text)
    ensures ExitTold(w, cfg, ms, FinalTurnEnd(l, r, text), l)
  {
    KeptSame(w, ms, l, Reasoned(l, r), l.loops - 1);
    FinishedTold(w, cfg, ms, Reasoned(l, r), l, r, text);
  }

  lemma ErrorRows(l: Loop, r: ChatReply, row: StepRow)
    requires row == TextRow(l.runSeq + 1, ErrorRole, "parse_error", r.usage)
    ensures var l' := ErrorRecorded(l, r);
            && l'.view.db.rows == l.view.db.rows + [row] && l'.view.db.messages == l.view.db.messages
            && l' == l.(view := l'.view, runSeq := l.runSeq + 1)
  {
  }

  lemma ErrorKept(w: World, cfg: Config, ms: seq<Message>, l: Loop, r: ChatReply, row: StepRow)
    requires InHand(w, ms, cfg, l, r) && r.toolCalls == [] && SaysNoFinal(r.content)
    requires row == TextRow(l.runSeq + 1, ErrorRole, "parse_error", r.usage)
    ensures var l' := ErrorRecorded(l, r);
            && Kept(w, ms, l', l'.loops) && Below(cfg, l'.view.db.rows)
            && LastThought(l'.view.db.rows) == l'.prevText && CachedHead(w, l')
  {
    ErrorRows(l, r, row);
    AddTold(w, ms, l, l.loops - 1, row);
    ReadSnoc(l.view.db.rows, row);
    BelowSnoc(cfg, l.view.db.rows, row);
  }

  lemma ParseErrorTold(w: World, cfg: Config, ms: seq<Message>, l: Loop, r: ChatReply)
    requires InHand(w, ms, cfg, l, r) && r.toolCalls == [] && SaysNoFinal(r.content)
    ensures TurnTold(w, cfg, ms, ParseErrorTurn(cfg, l, r))
  {
    ErrorKept(w, cfg, ms, l, r, TextRow(l.runSeq + 1, ErrorRole, "parse_error", r.usage));
    GuardedTold(w, cfg, ms, ErrorRecorded(l, r));
  }

  lemma OnReplyTold(w: World, cfg: Config, ms: seq<Message>, l: Loop, k: nat, r: ChatReply, cached: bool)
    requires InHand(w, ms, cfg, l, r) && l.loops == k + 1
    ensures TurnTold(w, cfg, ms, OnReply(w, cfg, l, k, r, cached))
  {
    ReplyRead(r);
    match ParseReply(r) {
      case ParseError => ParseErrorTold(w, cfg, ms, l, r);
      case FinalTurn(text) => FinalTurnTold(w, cfg, ms, l, r, text);
      case ToolTurn(thought, _) => ToolTurnTold(w, cfg, ms, l, k, r, thought, cached);
    }
  }

  lemma AnsweredInHand(w: World, cfg: Config, ms: seq<Message>, l: Loop, r: ChatReply)
    requires AtHeadTold(w, ms, cfg, l) && !w.cancelHead(l.loops) && w.chat(l.loops) == Reply(r)
    ensures InHand(w, ms, cfg, Answered(l, r), r)
  {
  }

  lemma TurnIsTold(w: World, cfg: Config, ms: seq<Message>, l: Loop, cached: bool)
    requires AtHeadTold(w, ms, cfg, l)
    ensures TurnTold(w, cfg, ms, TurnOf(w, cfg, l, cached))
  {
    if w.cancelHead(l.loops) {
      CancelledTold(w, cfg, ms, l);
    } else {
      match w.chat(l.loops) {
        case ProviderError =>
          var l1 := l.(view := Do(l.view, Ask));
          FailedTold(w, cfg, ms, l1, l1, LlmProviderError);
        case Reply(r) =>
          AnsweredInHand(w, cfg, ms, l, r);
          OnReplyTold(w, cfg, ms, Answered(l, r), l.loops, r, cached);
      }
    }
  }

  // ----- the run ---------------------------------------------------------------------------

  lemma SynthesizedTold(w: World, cfg: Config, ms: seq<Message>, l: Loop, l': Loop, r: ChatReply, reason: Reason)
    requires Kept(w, ms, l, l.loops) && Below(cfg, l.view.db.rows) && !BudgetLeft(cfg, l') && l'.loops == l.loops
    requires w.synthesis == Reply(r) && (reason.MaxLoops? || reason.MaxTokens?)
    ensures ExitTold(w, cfg, ms, Synthesized(l, r, reason), l')
  {
    EmptyReasonSays(r);
    BlankMeansAllSpace(r.content);
    match EmptyReason(r) {
      case Some(why) => FailedTold(w, cfg, ms, l, l', why);
      case None =>
        var row := TextRow(l.runSeq + 1, Trace.Synthesis, r.content, r.usage);
        AddTold(w, ms, l, l.loops, row);
        BelowSnoc(cfg, l.view.db.rows, row);
        CompletedTold(w, cfg, ms, WithRow(l, row), l', reason, r.content,
                      FRESH_RUN.(reason := Some(reason), answer := Some(r.content)));
    }
  }

  lemma SynthesisIsTold(w: World, cfg: Config, ms: seq<Message>, l: Loop, reason: Reason)
    requires Kept(w, ms, l, l.loops) && Below(cfg, l.view.db.rows) && !BudgetLeft(cfg, l)
    requires (reason.MaxLoops? || reason.MaxTokens?) && cfg.maxTokens >= 1
    ensures ExitTold(w, cfg, ms, Synthesize(w, cfg, l, reason), l)
  {
    if SkipSynthesis(l.tally.usage.tokensOut, cfg.maxTokens, |JoinLines(l.scratchpad)|) {
      SkipMeansOverBudget(l.tally.usage.tokensOut, cfg.maxTokens, |JoinLines(l.scratchpad)|);
      FailedTold(w, cfg, ms, l, l, GuardrailNoSynthesis);
    } else {
      var l1 := l.(view := Do(l.view, Ask));
      match w.synthesis {
        case ProviderError => FailedTold(w, cfg, ms, l1, l, LlmProviderError);
        case Reply(r) =>
          KeptSame(w, ms, l, Billed(l1, r), l.loops);
          SynthesizedTold(w, cfg, ms, Billed(l1, r), l, r, reason);
      }
    }
  }

  lemma {:induction false} IterateTold(w: World, cfg: Config, ms: seq<Message>, l: Loop, cached: bool)
    requires AtHeadTold(w, ms, cfg, l) && cfg.maxTokens >= 1
    ensures var (e, l') := Iterate(w, cfg, l, cached); ExitTold(w, cfg, ms, e, l')
    decreases cfg.maxLoops - l.loops
  {
    TurnIsTold(w, cfg, ms, l, cached);
    OutOfBudgetReason(w, cfg, l, cached);
    match TurnOf(w, cfg, l, cached) {
      case Over(_, _) =>
      case OutOfBudget(l1, reason) => SynthesisIsTold(w, cfg, ms, l1, reason);
      case Again(l1) =>
        AgainMeansBudget(w, cfg, l, cached);
        IterateTold(w, cfg, ms, l1, cached);
    }
  }

  /** What every run records is what its replies, embeddings and tools said, row by row; a similarity stop is one at or above
      the threshold, answered with the candidate before, and no other candidate came near it; and the answer, the failure or
      the cancel has the cause its reason names. */
  lemma RunTold(start: Db, w: World, cfg: Config, cached: bool)
    requires FreshStart(start) && cfg.maxLoops >= 1 && cfg.maxTokens >= 1 && |start.messages| < 1000
    ensures var (e, l) := RunResult(w, cfg, start, cached);
            ExitTold(w, cfg, start.messages + [Message(User, cfg.userText, [], None, |start.messages|)], e, l)
  {
    var ms := start.messages + [Message(User, cfg.userText, [], None, |start.messages|)];
    IterateTold(w, cfg, ms, FirstLoop(OpeningView(start, cfg.userText)), cached);
  }

  /** A conversation of a thousand messages takes no run. */
  lemma FullConversation(start: Db, w: World, cfg: Config, cached: bool)
    requires |start.messages| >= 1000
    ensures RunResult(w, cfg, start, cached).0.Left? && TurnedAway(start, RunResult(w, cfg, start, cached).0.view)
  {
    TurnedAwayWhenFull(start);
  }
}
