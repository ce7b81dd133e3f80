/** What every step of a Simple execution keeps, and what its exits leave. */
module SimpleFacts {
  import opened Basics
  import opened Sequences
  import opened Trace
  import opened Protocol
  import opened Invariants
  import opened Tools
  import opened Messages
  import opened SimpleSpec

  // ----- invariants ------------------------------------------------------------------------

  /** Positions are 0..n-1, and n is within the hard cap. */
  predicate Positioned(ms: seq<Message>) {
    |ms| <= HARD_CAP && forall i :: 0 <= i < |ms| ==> ms[i].position == i
  }

  /** The calls this run has on record when an execution begins: those of the pause, or none. */
  function OwedFirst(start: Db): seq<ToolCall> {
    if start.run.status == Paused then SavedBy(start).calls else []
  }

  /** The calls this run has still to answer, reading only the messages added since `start`; none once their order is
      broken. What the conversation held before is not looked at: an earlier cancel or another run's pause may have left
      calls in it that nobody will answer. */
  function Owes(start: Db, ms: seq<Message>): Option<seq<ToolCall>> {
    if |ms| < |start.messages| then None else WaitingFrom(Some(OwedFirst(start)), ms[|start.messages|..])
  }

  /** At every provider call of the log this run has answered every call it has on record. */
  predicate PairedAtAsks(start: Db, log: seq<Action>) {
    log == [] ||
    (&& PairedAtAsks(start, log[..|log| - 1])
     && (log[|log| - 1].Ask? ==> Owes(start, Replay(start, log[..|log| - 1]).db.messages) == Some([])))
  }

  /** Rows are numbered 1..n with n the counter, and the totals are their sums plus `owed`: what the reply in
      hand cost before its row is written. */
  predicate Books(v: View, usage: Usage, runSeq: nat, owed: Usage) {
    Numbered(v.db.rows) && |v.db.rows| == runSeq && usage == Plus(SumUsage(v.db.rows), owed)
  }

  /** The run owes answers to `calls`; whenever the provider was asked it owed none. */
  predicate Talk(start: Db, v: View, calls: seq<ToolCall>) {
    Owes(start, v.db.messages) == Some(calls) && Positioned(v.db.messages) && PairedAtAsks(start, v.log)
  }

  /** Stored data that can be read: rows numbered, messages in place. */
  predicate Sound(db: Db) {
    Numbered(db.rows) && Positioned(db.messages)
  }

  /** And this run has added no result without its call. */
  predicate Readable(start: Db, db: Db) {
    Sound(db) && Owes(start, db.messages).Some?
  }

  predicate Open(start: Db, s: State, owed: Usage, calls: seq<ToolCall>) {
    && Announced(start, s.view)
    && Books(s.view, s.tally.usage, s.runSeq, owed)
    && Talk(start, s.view, calls)
    && Readable(start, s.view.committed)
  }

  // ----- single steps ----------------------------------------------------------------------

  lemma PairedSnoc(start: Db, v: View, a: Action)
    requires Genuine(start, v) && PairedAtAsks(start, v.log)
    requires a.Ask? ==> Owes(start, v.db.messages) == Some([])
    ensures PairedAtAsks(start, v.log + [a])
  {
    Snoc(v.log, a);
  }

  /** An action that adds neither a row nor a message. */
  lemma StepOpen(start: Db, s: State, owed: Usage, calls: seq<ToolCall>, a: Action)
    requires Open(start, s, owed, calls) && Quiet(a)
    requires !a.AddRow? && !a.PatchRow? && !a.AddMessage? && (a.Ask? ==> calls == [])
    ensures Open(start, s.(view := Do(s.view, a)), owed, calls)
  {
    AnnouncedDo(start, s.view, a);
    PairedSnoc(start, s.view, a);
  }

  lemma BooksRow(v: View, usage: Usage, runSeq: nat, owed: Usage, row: StepRow)
    requires Books(v, usage, runSeq, owed) && row.seqNo == runSeq + 1
    ensures row.usage == Some(owed) ==> Books(Do(v, AddRow(row)), usage, runSeq + 1, NO_USAGE)
    ensures row.usage == None ==> Books(Do(v, AddRow(row)), usage, runSeq + 1, owed)
  {
    NumberedSnoc(v.db.rows, row);
    SumSnoc(v.db.rows, row);
    PlusNothing(SumUsage(v.db.rows));
    PlusNothing(SumUsage(v.db.rows + [row]));
  }

  lemma RowOpen(start: Db, s: State, owed: Usage, calls: seq<ToolCall>, row: StepRow)
    requires Open(start, s, owed, calls) && row.seqNo == s.runSeq + 1
    ensures row.usage == Some(owed) ==> Open(start, WithRow(s, row), NO_USAGE, calls)
    ensures row.usage == None ==> Open(start, WithRow(s, row), owed, calls)
  {
    AnnouncedDo(start, s.view, AddRow(row));
    PairedSnoc(start, s.view, AddRow(row));
    BooksRow(s.view, s.tally.usage, s.runSeq, owed, row);
  }

  lemma PositionedSnoc(ms: seq<Message>, m: Message)
    requires Positioned(ms) && |ms| < HARD_CAP && m.position == |ms|
    ensures Positioned(ms + [m])
  {
  }

  lemma OwesSnoc(start: Db, ms: seq<Message>, m: Message)
    requires Owes(start, ms).Some?
    ensures Owes(start, ms + [m]) == Next(Owes(start, ms), m)
  {
    var added := ms[|start.messages|..];
    assert (ms + [m])[|start.messages|..] == added + [m];
    Snoc(added, m);
  }

  /** A message that fits: what is owed then is what `Next` says. */
  lemma MessageTalk(start: Db, v: View, calls: seq<ToolCall>, after: seq<ToolCall>,
                    role: Speaker, content: string, asked: seq<ToolCall>, callId: Option<string>)
    requires Genuine(start, v) && Talk(start, v, calls) && |v.db.messages| < HARD_CAP
    requires Next(Some(calls), Message(role, content, asked, callId, |v.db.messages|)) == Some(after)
    ensures Talk(start, Do(v, AddMessage(role, content, asked, callId)), after)
  {
    var m := Message(role, content, asked, callId, |v.db.messages|);
    PairedSnoc(start, v, AddMessage(role, content, asked, callId));
    OwesSnoc(start, v.db.messages, m);
    PositionedSnoc(v.db.messages, m);
  }

  lemma BooksKept(v: View, u: View, usage: Usage, runSeq: nat, owed: Usage)
    requires Books(v, usage, runSeq, owed) && u.db.rows == v.db.rows
    ensures Books(u, usage, runSeq, owed)
  {
  }

  lemma MessageOpen(start: Db, s: State, owed: Usage, calls: seq<ToolCall>, after: seq<ToolCall>,
                    role: Speaker, content: string, asked: seq<ToolCall>, callId: Option<string>)
    requires Open(start, s, owed, calls) && !Full(s)
    requires Next(Some(calls), Message(role, content, asked, callId, |s.view.db.messages|)) == Some(after)
    ensures Open(start, WithMessage(s, role, content, asked, callId), owed, after)
  {
    var a := AddMessage(role, content, asked, callId);
    AnnouncedDo(start, s.view, a);
    MessageTalk(start, s.view, calls, after, role, content, asked, callId);
    BooksKept(s.view, Do(s.view, a), s.tally.usage, s.runSeq, owed);
  }

  // ----- a batch ---------------------------------------------------------------------------

  /** One call made or denied, recorded and answered. */
  lemma CalledOpen(start: Db, s: State, calls: seq<ToolCall>, call: ToolCall, payload: ToolPayload, approved: bool)
    requires Open(start, s, NO_USAGE, calls)
    ensures Open(start, Called(s, call, payload, approved), NO_USAGE, calls)
  {
    var s1 := if approved then s.(view := Do(s.view, Invoke(call))) else s;
    if approved {
      StepOpen(start, s, NO_USAGE, calls, Invoke(call));
    }
    RowOpen(start, s1, NO_USAGE, calls, ToolResultRow(s.runSeq + 1, call, payload));
  }

  lemma AnswerOpen(start: Db, s: State, calls: seq<ToolCall>, payload: ToolPayload)
    requires Open(start, s, NO_USAGE, calls) && calls != [] && !Full(s)
    ensures Open(start, WithResult(s, calls[0], payload), NO_USAGE, calls[1..])
  {
    MessageOpen(start, s, NO_USAGE, calls, calls[1..], ToolSpeaker, payload.content, [], Some(calls[0].id));
  }

  lemma OneCallOpen(start: Db, s: State, calls: seq<ToolCall>, i: nat, payload: ToolPayload, approved: bool)
    requires i < |calls| && Open(start, s, NO_USAGE, calls[i..])
    ensures var s1 := Called(s, calls[i], payload, approved);
            && Open(start, s1, NO_USAGE, calls[i..])
            && (!Full(s1) ==> Open(start, WithResult(s1, calls[i], payload), NO_USAGE, calls[i + 1..]))
  {
    var s1 := Called(s, calls[i], payload, approved);
    CalledOpen(start, s, calls[i..], calls[i], payload, approved);
    if !Full(s1) {
      AnswerOpen(start, s1, calls[i..], payload);
      assert calls[i..][1..] == calls[i + 1..];
    }
  }

  /** The calls a state still owes an answer. */
  function Rest(start: Db, s: State): seq<ToolCall> {
    if Owes(start, s.view.db.messages).Some? then Owes(start, s.view.db.messages).value else []
  }

  /** A batch that ran has answered every call; one that was stopped owes some. */
  predicate BatchLeft(start: Db, b: Batch) {
    Open(start, b.state, NO_USAGE, Rest(start, b.state)) && (b.Ran? ==> Rest(start, b.state) == [])
    && (b.Stopped? ==> Rest(start, b.state) != [])
  }

  lemma BatchEnds(start: Db, b: Batch, calls: seq<ToolCall>, i: nat)
    requires i <= |calls| && Open(start, b.state, NO_USAGE, calls[i..]) && (b.Ran? ==> i == |calls|)
    requires b.Stopped? ==> i < |calls|
    ensures BatchLeft(start, b)
  {
  }

  lemma {:induction false} BatchOpen(start: Db, w: World, s: State, batch: nat, calls: seq<ToolCall>, i: nat, approved: bool)
    requires i <= |calls| && Open(start, s, NO_USAGE, calls[i..])
    ensures BatchLeft(start, RunBatch(w, s, batch, calls, i, approved))
    decreases |calls| - i
  {
    if i == |calls| {
      BatchEnds(start, Ran(s), calls, i);
      return;
    }
    BatchIs(w, s, batch, calls, i, approved);
    if Flag(w, s.checks) {
      BatchEnds(start, Stopped(Read(s)), calls, i);
    } else {
      var payload := Result(w, batch, calls, i, approved);
      var s0 := Read(s);
      var s1 := Called(s0, calls[i], payload, approved);
      OneCallOpen(start, s0, calls, i, payload, approved);
      if Full(s1) {
        BatchEnds(start, Overflowed(s1), calls, i);
      } else {
        BatchOpen(start, w, WithResult(s1, calls[i], payload), batch, calls, i + 1, approved);
      }
    }
  }

  /** A batch is broken off by a read of the flag that finds it set, and the flag stays set. */
  lemma {:induction false} StoppedMeansFlag(w: World, s: State, batch: nat, calls: seq<ToolCall>, i: nat, approved: bool)
    ensures var b := RunBatch(w, s, batch, calls, i, approved);
            b.Stopped? ==> Flag(w, b.state.checks) && b.state.iteration == s.iteration
    decreases |calls| - i
  {
    if i < |calls| && !Flag(w, s.checks) {
      var payload := Result(w, batch, calls, i, approved);
      var s1 := Called(Read(s), calls[i], payload, approved);
      if !Full(s1) {
        StoppedMeansFlag(w, WithResult(s1, calls[i], payload), batch, calls, i + 1, approved);
      }
    }
  }

  lemma WholeLeft(start: Db, w: World, s: State, calls: seq<ToolCall>)
    requires Open(start, s, NO_USAGE, calls)
    ensures BatchLeft(start, WholeBatch(w, s, calls))
  {
    assert calls[0..] == calls;
    BatchOpen(start, w, s, s.iteration + 1, calls, 0, true);
  }

  lemma WholeStopped(w: World, s: State, calls: seq<ToolCall>)
    ensures WholeBatch(w, s, calls).Stopped? ==> Flag(w, WholeBatch(w, s, calls).state.checks)
  {
    StoppedMeansFlag(w, s, s.iteration + 1, calls, 0, true);
  }

  // ----- exits -----------------------------------------------------------------------------

  /** No reply reports a negative count. */
  ghost predicate HonestCounts(w: World) {
    forall i: nat :: w.chat(i).Reply? ==> NonNegative(w.chat(i).reply.usage)
  }

  /** A run that waits for the user: the snapshot holds the books and the calls it waits with. */
  predicate PausedOk(db: Db) {
    && db.run.status == Paused && !db.run.closed && db.run.pending.Some?
    && Books(View(db, db, []), db.run.pending.value.usage, db.run.pending.value.runSeq, NO_USAGE)
    && db.run.pending.value.calls != []
    && Positioned(db.messages)
  }

  /** A closed run: numbered rows, and every call answered unless the token budget closed it; exact totals and the answer
      as the last message when it completed, and totals no smaller than the rows' otherwise. */
  ghost predicate ClosedOk(start: Db, w: World, db: Db) {
    && db.run.closed && Terminal(db.run.status)
    && Readable(start, db) && (db.run.reason != Some(MaxTokens) ==> Owes(start, db.messages) == Some([]))
    && (db.run.status == Completed ==>
          && Owes(start, db.messages) == Some([])
          && db.run.tally.usage == SumUsage(db.rows)
          && db.run.answer.Some? && !Blank(db.run.answer.value)
          && db.messages != [] && db.messages[|db.messages| - 1].content == db.run.answer.value
          && db.messages[|db.messages| - 1].role == AssistantSpeaker)
    && (HonestCounts(w) ==> AtLeast(db.run.tally.usage, SumUsage(db.rows)))
  }

  /** The stream of an execution that paused: `working` updates, then one request for input, the only event
      with the state of the stored row; nothing is final. */
  predicate PausedStream(events: seq<Event>, run: RunRow) {
    && |events| >= 2 && events[0] == Working(Plain)
    && (forall i :: 0 <= i < |events| - 1 ==> events[i].Working?)
    && events[|events| - 1].InputRequiredEvent?
    && EventState(events[|events| - 1]) == TaskStateOf(run.status)
    && run.pending.Some? && events[|events| - 1].call in run.pending.value.calls
  }

  /** Paused on calls that are exactly those the run has on record and not answered. */
  predicate PausedOn(start: Db, db: Db) {
    PausedOk(db) && Owes(start, db.messages) == Some(db.run.pending.value.calls)
  }

  /** Settled inline at one place of the log, with the database committed and the stream to match. */
  ghost predicate SettledOk(start: Db, w: World, v: View) {
    && Genuine(start, v) && v.committed == v.db && PairedAtAsks(start, v.log)
    && (exists k: nat :: k < |v.log| && SettlesAt(v.log, k))
    && if v.db.run.status == Paused then PausedOn(start, v.db) && PausedStream(EventsOf(v.log), v.db.run)
       else ClosedOk(start, w, v.db) && StreamAgrees(EventsOf(v.log), v.db.run)
  }

  /** Left to the `finally` block: nothing settled, data that can be read, and totals in hand that are the sums over the
      rows written. */
  predicate LeftOpen(start: Db, v: View, tally: Tally) {
    && Announced(start, v) && PairedAtAsks(start, v.log)
    && Readable(start, v.committed) && Readable(start, v.db)
    && tally.usage == SumUsage(v.db.rows)
  }

  ghost predicate OutcomeOk(start: Db, w: World, o: Outcome) {
    match o
    case Settled(v) => SettledOk(start, w, v)
    case Unsettled(v, tally, _, _) => LeftOpen(start, v, tally)
    case Thrown(v) => Announced(start, v) && PairedAtAsks(start, v.log) && v.committed == start
  }

  lemma BooksExact(v: View, usage: Usage, runSeq: nat)
    requires Books(v, usage, runSeq, NO_USAGE)
    ensures usage == SumUsage(v.db.rows)
  {
    PlusNothing(SumUsage(v.db.rows));
  }

  lemma UnsettledOk(start: Db, w: World, s: State, calls: seq<ToolCall>)
    requires Open(start, s, NO_USAGE, calls)
    ensures OutcomeOk(start, w, CancelledAt(s)) && OutcomeOk(start, w, RaisedAt(s))
  {
    BooksExact(s.view, s.tally.usage, s.runSeq);
  }

  /** One event more, and nothing asked. */
  lemma PairedEmits(start: Db, v: View, e: Event)
    requires Genuine(start, v) && PairedAtAsks(start, v.log)
    ensures Genuine(start, Do(v, Emit(e))) && PairedAtAsks(start, Do(v, Emit(e)).log)
  {
    PairedSnoc(start, v, Emit(e));
    GenuineDo(start, v, Emit(e));
  }

  /** Closing actions ask nothing. */
  lemma ClosePaired(start: Db, v: View, c: Closing)
    requires Genuine(start, v) && PairedAtAsks(start, v.log)
    ensures PairedAtAsks(start, CloseView(v, c).log)
  {
    PairedSnoc(start, v, Finalize(c));
    GenuineDo(start, v, Finalize(c));
    var w := Do(v, Finalize(c));
    match c.status {
      case Completed =>
        var e := Artifact(if c.answer.Some? then c.answer.value else "");
        PairedEmits(start, w, e);
        PairedEmits(start, Do(w, Emit(e)), CompletedEvent);
      case Failed => PairedEmits(start, w, FailedEvent(if c.reason.Some? then c.reason.value else InternalError));
      case _ => PairedEmits(start, w, CanceledEvent);
    }
  }

  lemma CloseOk(start: Db, w: World, v: View, c: Closing)
    requires Announced(start, v) && PairedAtAsks(start, v.log) && WellFormed(c)
    requires ClosedOk(start, w, v.db.(run := Finalized(v.db.run, c)))
    ensures OutcomeOk(start, w, Settled(CloseView(v, c)))
  {
    ClosePaired(start, v, c);
    CloseViewDb(v, c);
    GenuineClose(start, v, c);
    ClosedStreamAgrees(v, c);
    assert SettlesAt(CloseView(v, c).log, |v.log|);
  }

  /** The reply in hand never counts negative, if no reply does. */
  ghost predicate Honest(w: World, owed: Usage) {
    HonestCounts(w) ==> NonNegative(owed)
  }

  lemma FailedOk(start: Db, w: World, s: State, owed: Usage, calls: seq<ToolCall>, reason: Reason)
    requires Open(start, s, owed, calls) && Honest(w, owed) && (calls == [] || reason == MaxTokens)
    ensures OutcomeOk(start, w, FailedAt(s, reason))
  {
    CloseOk(start, w, s.view, Closing(Failed, Some(reason), None, s.tally, s.loops));
  }

  lemma CompletedData(start: Db, w: World, s: State, answer: string, db: Db)
    requires Books(s.view, s.tally.usage, s.runSeq, NO_USAGE) && !Blank(answer)
    requires db.rows == s.view.db.rows && Owes(start, db.messages) == Some([]) && Positioned(db.messages)
    requires db.messages != [] && db.messages[|db.messages| - 1].content == answer
    requires db.messages[|db.messages| - 1].role == AssistantSpeaker
    ensures ClosedOk(start, w, db.(run := Finalized(db.run, Closing(Completed, None, Some(answer), s.tally, s.loops + 1))))
  {
  }

  lemma AnswerStored(start: Db, s: State, answer: string)
    requires Open(start, s, NO_USAGE, []) && !Full(s)
    ensures var v := Do(s.view, AddMessage(AssistantSpeaker, answer, [], None));
            && Announced(start, v) && PairedAtAsks(start, v.log)
            && Owes(start, v.db.messages) == Some([]) && Positioned(v.db.messages)
            && v.db.rows == s.view.db.rows && v.db.messages != []
            && v.db.messages[|v.db.messages| - 1] == Message(AssistantSpeaker, answer, [], None, |s.view.db.messages|)
  {
    MessageOpen(start, s, NO_USAGE, [], [], AssistantSpeaker, answer, [], None);
  }

  lemma AnswerClosed(start: Db, w: World, s: State, answer: string)
    requires Open(start, s, NO_USAGE, []) && !Full(s) && !Blank(answer)
    ensures OutcomeOk(start, w, Settled(AnsweredView(s, answer)))
  {
    AnswerStored(start, s, answer);
    var v := Do(s.view, AddMessage(AssistantSpeaker, answer, [], None));
    CompletedData(start, w, s, answer, v.db);
    var c := Closing(Completed, None, Some(answer), s.tally, s.loops + 1);
    AnsweredIs(s, answer);
    CloseOk(start, w, v, c);
  }

  lemma AnsweredIs(s: State, answer: string)
    ensures AnsweredView(s, answer) == CloseView(Do(s.view, AddMessage(AssistantSpeaker, answer, [], None)),
                                                Closing(Completed, None, Some(answer), s.tally, s.loops + 1))
  {
  }

  lemma CompletedOk(start: Db, w: World, s: State, answer: string)
    requires Open(start, s, NO_USAGE, []) && !Blank(answer)
    ensures OutcomeOk(start, w, CompletedAt(s, answer))
  {
    if Full(s) {
      UnsettledOk(start, w, s, []);
    } else {
      AnswerClosed(start, w, s, answer);
    }
  }

  function PausedView(v: View, p: Trace.Pending, call: ToolCall): View {
    Do(Do(v, Pause(p)), Emit(InputRequiredEvent(call)))
  }

  lemma PausedPaired(start: Db, v: View, p: Trace.Pending, call: ToolCall)
    requires Genuine(start, v) && PairedAtAsks(start, v.log)
    ensures Genuine(start, PausedView(v, p, call)) && PairedAtAsks(start, PausedView(v, p, call).log)
  {
    GenuineDo(start, v, Pause(p));
    PairedSnoc(start, v, Pause(p));
    PairedEmits(start, Do(v, Pause(p)), InputRequiredEvent(call));
  }

  lemma PausedSettles(v: View, p: Trace.Pending, call: ToolCall)
    requires AllQuiet(v.log)
    ensures SettlesAt(PausedView(v, p, call).log, |v.log|)
  {
  }

  lemma PausedSays(v: View, p: Trace.Pending, call: ToolCall)
    requires AllQuiet(v.log) && EventsOf(v.log) != [] && EventsOf(v.log)[0] == Working(Plain) && call in p.calls
    ensures PausedStream(EventsOf(PausedView(v, p, call).log), PausedView(v, p, call).db.run)
  {
    EventsSnoc(v.log, Pause(p));
    QuietEvents(v.log);
    EventsSnoc(Do(v, Pause(p)).log, Emit(InputRequiredEvent(call)));
  }

  lemma PausedLog(start: Db, v: View, p: Trace.Pending, call: ToolCall)
    requires Announced(start, v) && PairedAtAsks(start, v.log) && call in p.calls
    ensures var u := PausedView(v, p, call);
            && Genuine(start, u) && PairedAtAsks(start, u.log) && SettlesAt(u.log, |v.log|)
            && u.committed == u.db && u.db == v.db.(run := PausedRow(v.db.run, p))
            && PausedStream(EventsOf(u.log), u.db.run)
  {
    PausedPaired(start, v, p, call);
    PausedSettles(v, p, call);
    PausedSays(v, p, call);
  }

  lemma StaysOpen(start: Db, v: View)
    requires Announced(start, v) && !start.run.closed && !Terminal(start.run.status)
    ensures !v.db.run.closed
  {
    QuietStaysOpen(start, v.log);
  }

  lemma PauseOk(start: Db, w: World, s: State, calls: seq<ToolCall>, call: ToolCall)
    requires Open(start, s, NO_USAGE, calls) && call in calls
    requires !start.run.closed && !Terminal(start.run.status)
    ensures OutcomeOk(start, w, PausedAt(s, calls, call))
  {
    PausedLog(start, s.view, SnapshotOf(s, calls), call);
    StaysOpen(start, s.view);
  }

  // ----- one iteration ---------------------------------------------------------------------

  /** The head of an iteration: nothing waits for an answer, or the flag is set and will be read at once. */
  predicate HeadOk(start: Db, w: World, s: State) {
    Open(start, s, NO_USAGE, Rest(start, s)) && (Rest(start, s) == [] || Flag(w, s.checks))
  }

  ghost predicate TurnOk(start: Db, w: World, t: Turn) {
    match t
    case Again(s) => HeadOk(start, w, s)
    case Over(o) => OutcomeOk(start, w, o)
  }

  lemma ReasoningOpen(start: Db, s: State, owed: Usage, r: ChatReply)
    requires Open(start, s, owed, [])
    ensures Open(start, Reasoned(s, r), owed, [])
  {
    if !Blank(r.reasoning) {
      StepOpen(start, s, owed, [], Emit(Working(Reasoning(Strip(r.reasoning)))));
    }
  }

  lemma ConcludedOk(start: Db, w: World, s: State, r: ChatReply)
    requires Open(start, s, r.usage, []) && Honest(w, r.usage)
    ensures OutcomeOk(start, w, Concluded(s, r))
  {
    match EmptyReason(r) {
      case Some(why) => FailedOk(start, w, s, r.usage, [], why);
      case None =>
        var row := TextRow(s.runSeq + 1, Assistant, r.content, r.usage);
        RowOpen(start, s, r.usage, [], row);
        CompletedOk(start, w, WithRow(s, row), r.content);
    }
  }

  lemma FinalReplyOk(start: Db, w: World, s: State, r: ChatReply)
    requires Open(start, s, r.usage, []) && Honest(w, r.usage)
    ensures OutcomeOk(start, w, FinalReply(s, r))
  {
    ReasoningOpen(start, s, r.usage, r);
    ConcludedOk(start, w, Reasoned(s, r), r);
  }

  lemma CommittedOpen(start: Db, s: State, calls: seq<ToolCall>)
    requires Open(start, s, NO_USAGE, calls)
    ensures Open(start, Committed(s), NO_USAGE, calls) && Rest(start, Committed(s)) == calls
  {
    StepOpen(start, s, NO_USAGE, calls, Commit);
  }

  lemma BatchEndOk(start: Db, w: World, maxTokens: int, s: State)
    requires Open(start, s, NO_USAGE, Rest(start, s)) && (Rest(start, s) == [] || Flag(w, s.checks))
    ensures TurnOk(start, w, BatchEnd(maxTokens, s))
  {
    CommittedOpen(start, s, Rest(start, s));
    if s.tally.usage.tokensOut >= maxTokens {
      FailedOk(start, w, Committed(s), NO_USAGE, Rest(start, s), MaxTokens);
    }
  }

  lemma AfterBatchOk(start: Db, w: World, maxTokens: int, b: Batch)
    requires BatchLeft(start, b) && (b.Stopped? ==> Flag(w, b.state.checks))
    ensures TurnOk(start, w, AfterBatch(maxTokens, b))
  {
    if b.Overflowed? {
      UnsettledOk(start, w, b.state, Rest(start, b.state));
    } else {
      BatchEndOk(start, w, maxTokens, b.state);
    }
  }

  predicate Startable(run: RunRow) {
    !run.closed && !Terminal(run.status)
  }

  lemma ActOnOk(start: Db, w: World, maxTokens: int, s: State, calls: seq<ToolCall>)
    requires Open(start, s, NO_USAGE, calls) && Startable(start.run)
    ensures TurnOk(start, w, ActOn(w, maxTokens, s, calls))
  {
    ActOnIs(w, maxTokens, s, calls);
    match FirstDestructive(w, calls) {
      case Some(call) =>
        FirstDestructiveFound(w, calls);
        PauseOk(start, w, s, calls, call);
      case None =>
        WholeLeft(start, w, s, calls);
        WholeStopped(w, s, calls);
        AfterBatchOk(start, w, maxTokens, WholeBatch(w, s, calls));
    }
  }

  lemma ToolReplyOk(start: Db, w: World, maxTokens: int, s: State, r: ChatReply)
    requires Open(start, s, r.usage, []) && r.toolCalls != [] && Startable(start.run)
    ensures TurnOk(start, w, ToolReply(w, maxTokens, s, r))
  {
    var s1 := WithRow(s, CallsRow(s.runSeq + 1, r));
    RowOpen(start, s, r.usage, [], CallsRow(s.runSeq + 1, r));
    if Full(s1) {
      UnsettledOk(start, w, s1, []);
    } else {
      MessageOpen(start, s1, NO_USAGE, [], r.toolCalls, AssistantSpeaker, r.content, r.toolCalls, None);
      ActOnOk(start, w, maxTokens, Asked(s1, r), r.toolCalls);
    }
  }

  lemma CheckedOpen(start: Db, s: State, owed: Usage, calls: seq<ToolCall>)
    requires Open(start, s, owed, calls)
    ensures Open(start, Read(s), owed, calls)
  {
  }

  lemma CancelOk(start: Db, w: World, s: State, calls: seq<ToolCall>)
    requires Open(start, s, NO_USAGE, calls)
    ensures OutcomeOk(start, w, CancelledAt(Read(s)))
  {
    CheckedOpen(start, s, NO_USAGE, calls);
    UnsettledOk(start, w, Read(s), calls);
  }

  lemma ChargedOpen(start: Db, s: State, r: ChatReply)
    requires Open(start, s, NO_USAGE, [])
    ensures Open(start, Charged(Read(s), r), r.usage, [])
  {
  }

  lemma DecideOk(start: Db, w: World, maxTokens: int, s: State, r: ChatReply)
    requires Open(start, s, r.usage, []) && Startable(start.run) && Honest(w, r.usage)
    ensures TurnOk(start, w, Decide(w, maxTokens, s, r))
  {
    if r.toolCalls == [] {
      FinalReplyOk(start, w, s, r);
    } else {
      ToolReplyOk(start, w, maxTokens, s, r);
    }
  }

  lemma ChargedDecideOk(start: Db, w: World, maxTokens: int, s: State, r: ChatReply)
    requires Open(start, s, NO_USAGE, []) && Startable(start.run) && Honest(w, r.usage)
    ensures TurnOk(start, w, Decide(w, maxTokens, Charged(Read(s), r), r))
  {
    ChargedOpen(start, s, r);
    DecideOk(start, w, maxTokens, Charged(Read(s), r), r);
  }

  lemma OnReplyOk(start: Db, w: World, maxTokens: int, s: State, r: ChatReply)
    requires Open(start, s, NO_USAGE, []) && Startable(start.run) && Honest(w, r.usage)
    ensures TurnOk(start, w, OnReply(w, maxTokens, s, r))
  {
    if Flag(w, s.checks) {
      CancelOk(start, w, s, []);
    } else {
      ChargedDecideOk(start, w, maxTokens, s, r);
    }
  }

  lemma OnOutcomeOk(start: Db, w: World, maxTokens: int, s: State)
    requires Open(start, s, NO_USAGE, []) && Startable(start.run)
    ensures TurnOk(start, w, OnOutcome(w, maxTokens, Chatted(s)))
  {
    StepOpen(start, s, NO_USAGE, [], Ask);
    match w.chat(s.iteration) {
      case ProviderError => FailedOk(start, w, Chatted(s), NO_USAGE, [], LlmProviderError);
      case Reply(r) => OnReplyOk(start, w, maxTokens, Chatted(s), r);
    }
  }

  lemma TurnKeeps(start: Db, w: World, maxTokens: int, s: State)
    requires HeadOk(start, w, s) && Startable(start.run)
    ensures TurnOk(start, w, TurnOf(w, maxTokens, s))
  {
    if Flag(w, s.checks) {
      CancelOk(start, w, s, Rest(start, s));
    } else if s.iteration >= MAX_ITERATIONS {
      FailedOk(start, w, Read(s), NO_USAGE, [], GuardrailExceeded);
    } else {
      CheckedOpen(start, s, NO_USAGE, []);
      OnOutcomeOk(start, w, maxTokens, Read(s));
    }
  }

  lemma {:induction false} IterateKeeps(start: Db, w: World, maxTokens: int, s: State)
    requires HeadOk(start, w, s) && Startable(start.run)
    ensures OutcomeOk(start, w, Iterate(w, maxTokens, s))
    decreases if s.iteration < MAX_ITERATIONS then MAX_ITERATIONS - s.iteration else 0
  {
    TurnKeeps(start, w, maxTokens, s);
    AgainAdvances(w, maxTokens, s);
    var t := TurnOf(w, maxTokens, s);
    if t.Again? {
      IterateKeeps(start, w, maxTokens, t.state);
    }
  }
}
