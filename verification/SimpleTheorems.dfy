/** Every execution of Simple mode ends well, from a fresh start or from a pause, and what it then leaves stored. */
module SimpleTheorems {
  import opened Basics
  import opened Trace
  import opened Protocol
  import opened Invariants
  import opened Tools
  import opened Messages
  import opened SimpleSpec
  import opened SimpleFacts

  // ----- every execution ends well ---------------------------------------------------------

  /** A run as `create_run` leaves it, in any conversation. */
  predicate FreshStart(start: Db) {
    start.run == FRESH_RUN && start.rows == [] && Positioned(start.messages)
  }

  lemma OpeningAsks(start: Db, text: string)
    ensures PairedAtAsks(start, OpeningView(start, text).log)
  {
    var v0 := View(start, start, []);
    var a1, a2, a3 := AddMessage(User, text, [], None), Commit, Emit(Working(Plain));
    GenuineDo(start, v0, a1);
    GenuineDo(start, Do(v0, a1), a2);
    PairedSnoc(start, v0, a1);
    PairedSnoc(start, Do(v0, a1), a2);
    PairedSnoc(start, Do(Do(v0, a1), a2), a3);
  }

  lemma OpeningTalk(start: Db, text: string)
    requires FreshStart(start) && |start.messages| < HARD_CAP
    ensures Talk(start, OpeningView(start, text), []) && Readable(start, OpeningView(start, text).committed)
  {
    OpeningAsks(start, text);
    var m := Message(User, text, [], None, |start.messages|);
    assert start.messages[|start.messages|..] == [];
    OwesSnoc(start, start.messages, m);
    PositionedSnoc(start.messages, m);
  }

  lemma OpeningAnnounced(start: Db, text: string)
    ensures Announced(start, OpeningView(start, text))
  {
    OpeningLog(start, text);
    OpeningGenuine(start, text);
  }

  lemma OpeningOpen(start: Db, text: string)
    requires FreshStart(start) && |start.messages| < HARD_CAP
    ensures Open(start, FirstState(OpeningView(start, text)), NO_USAGE, [])
  {
    OpeningAnnounced(start, text);
    OpeningTalk(start, text);
    OpenFirst(start, OpeningView(start, text));
  }

  lemma NoRows(v: View)
    requires v.db.rows == []
    ensures Numbered(v.db.rows) && SumUsage(v.db.rows) == NO_USAGE
  {
  }

  lemma EmptyBooks(v: View, runSeq: nat, owed: Usage)
    requires v.db.rows == [] && runSeq == 0
    ensures Books(v, owed, runSeq, owed)
  {
    NoRows(v);
  }

  lemma OpenFrom(start: Db, s: State)
    requires Announced(start, s.view) && Talk(start, s.view, []) && Readable(start, s.view.committed)
    requires Books(s.view, s.tally.usage, s.runSeq, NO_USAGE)
    ensures Open(start, s, NO_USAGE, [])
  {
  }

  lemma OpenFirst(start: Db, v: View)
    requires Announced(start, v) && Talk(start, v, []) && Readable(start, v.committed) && v.db.rows == []
    ensures Open(start, FirstState(v), NO_USAGE, [])
  {
    EmptyBooks(v, FirstState(v).runSeq, NO_USAGE);
    OpenFrom(start, FirstState(v));
  }

  lemma ContextFullAsks(start: Db)
    ensures PairedAtAsks(start, ContextFullView(View(start, start, [])).log)
    ensures Genuine(start, ContextFullView(View(start, start, [])))
  {
    var v0 := View(start, start, []);
    var v1 := Do(v0, Finalize(ContextFullClosing()));
    var v2 := Do(v1, Emit(Working(Plain)));
    GenuineDo(start, v0, Finalize(ContextFullClosing()));
    GenuineDo(start, v1, Emit(Working(Plain)));
    GenuineDo(start, v2, Emit(FailedEvent(ContextFull)));
    PairedSnoc(start, v0, Finalize(ContextFullClosing()));
    PairedSnoc(start, v1, Emit(Working(Plain)));
    PairedSnoc(start, v2, Emit(FailedEvent(ContextFull)));
  }

  lemma ContextFullOk(start: Db, w: World)
    requires FreshStart(start)
    ensures OutcomeOk(start, w, Settled(ContextFullView(View(start, start, []))))
  {
    ContextFullAsks(start);
    ContextFullStreamAgrees(start);
    var v := ContextFullView(View(start, start, []));
    assert ClosedOk(start, w, v.db);
    assert SettlesAt(v.log, 0);
  }

  lemma RestoredOpen(start: Db)
    requires PausedOk(start)
    ensures Open(start, Restored(start), NO_USAGE, SavedBy(start).calls)
  {
    var v := View(start, start, []);
    var a := Emit(Working(Plain));
    GenuineDo(start, v, a);
    EventsSnoc(v.log, a);
    PairedSnoc(start, v, a);
  }

  /** A batch commits nothing and leaves the run row alone. */
  lemma {:induction false} BatchCommitsNothing(w: World, s: State, batch: nat, calls: seq<ToolCall>, i: nat, approved: bool)
    ensures var v := RunBatch(w, s, batch, calls, i, approved).state.view;
            v.committed == s.view.committed && v.db.run == s.view.db.run
    decreases |calls| - i
  {
    if i < |calls| && !Flag(w, s.checks) {
      var payload := Result(w, batch, calls, i, approved);
      var s1 := Called(Read(s), calls[i], payload, approved);
      if !Full(s1) {
        BatchCommitsNothing(w, WithResult(s1, calls[i], payload), batch, calls, i + 1, approved);
      }
    }
  }

  lemma SavedLeft(start: Db, w: World, text: string)
    requires PausedOk(start)
    ensures BatchLeft(start, SavedBatch(w, start, text))
  {
    var calls := SavedBy(start).calls;
    RestoredOpen(start);
    assert calls[0..] == calls;
    BatchOpen(start, w, Restored(start), 0, calls, 0, IsApproval(text));
  }

  lemma ResumedOpen(start: Db, s: State, calls: seq<ToolCall>)
    requires Open(start, s, NO_USAGE, calls)
    ensures Open(start, ResumedAt(s), NO_USAGE, calls)
  {
    StepOpen(start, s, NO_USAGE, calls, Resume);
    StepOpen(start, s.(view := Do(s.view, Resume)), NO_USAGE, calls, Commit);
  }

  /** The loop of a resume starts at a proper head, or reads the flag set at once. */
  lemma ResumedHead(start: Db, w: World, text: string)
    requires PausedOk(start) && !SavedBatch(w, start, text).Overflowed?
    ensures HeadOk(start, w, ResumedAt(SavedBatch(w, start, text).state))
  {
    var s := SavedBatch(w, start, text).state;
    SavedLeft(start, w, text);
    StoppedMeansFlag(w, Restored(start), 0, SavedBy(start).calls, 0, IsApproval(text));
    ResumedOpen(start, s, Rest(start, s));
  }

  lemma OverflowOk(start: Db, w: World, text: string)
    requires PausedOk(start) && SavedBatch(w, start, text).Overflowed?
    ensures OutcomeOk(start, w, Thrown(SavedBatch(w, start, text).state.view))
  {
    SavedLeft(start, w, text);
    BatchCommitsNothing(w, Restored(start), 0, SavedBy(start).calls, 0, IsApproval(text));
  }

  lemma ResumeEndsWell(start: Db, w: World, maxTokens: int, text: string)
    requires PausedOk(start)
    ensures OutcomeOk(start, w, ResumeRun(w, maxTokens, start, text))
  {
    if SavedBatch(w, start, text).Overflowed? {
      OverflowOk(start, w, text);
    } else {
      ResumedHead(start, w, text);
      IterateKeeps(start, w, maxTokens, ResumedAt(SavedBatch(w, start, text).state));
    }
  }

  lemma FreshEndsWell(start: Db, w: World, maxTokens: int, text: string)
    requires FreshStart(start)
    ensures OutcomeOk(start, w, FreshRun(w, maxTokens, start, text))
  {
    if |start.messages| >= HARD_CAP {
      ContextFullOk(start, w);
    } else {
      FreshIterates(start, w, maxTokens, text);
    }
  }

  lemma FreshIterates(start: Db, w: World, maxTokens: int, text: string)
    requires FreshStart(start) && |start.messages| < HARD_CAP
    ensures OutcomeOk(start, w, Iterate(w, maxTokens, FirstState(OpeningView(start, text))))
  {
    OpeningOpen(start, text);
    var s := FirstState(OpeningView(start, text));
    FirstIterates(start, w, maxTokens, s);
  }

  lemma FirstIterates(start: Db, w: World, maxTokens: int, s: State)
    requires FreshStart(start) && Open(start, s, NO_USAGE, [])
    ensures OutcomeOk(start, w, Iterate(w, maxTokens, s))
  {
    IterateKeeps(start, w, maxTokens, s);
  }

  /** Whatever the model, the tools, the user's answer and the cancel flag do: at every provider call the
      run has answered every call it has on record; rows are numbered on across the pause; an execution that settles leaves
      exact books, a stream that agrees with the row, or a pause whose snapshot a resume can pick up. What the conversation
      held before does not matter. */
  lemma ExecutionEndsWell(start: Db, w: World, maxTokens: int, text: string)
    requires FreshStart(start) || PausedOk(start)
    ensures OutcomeOk(start, w, Execute(w, maxTokens, start, text))
  {
    if start.run.status == Paused {
      ResumeEndsWell(start, w, maxTokens, text);
    } else {
      FreshEndsWell(start, w, maxTokens, text);
    }
  }

  // ----- pairing, in what a run adds and in the whole conversation -------------------------

  /** The assistant message that asked for the saved calls, when there are any. */
  function Asking(start: Db): seq<Message> {
    if start.run.status == Paused then [Message(AssistantSpeaker, "", SavedBy(start).calls, None, 0)] else []
  }

  function Added(start: Db, ms: seq<Message>): seq<Message>
    requires start.messages <= ms
  {
    ms[|start.messages|..]
  }

  /** An execution finds the conversation waiting for what its run waits for. */
  predicate PairedStart(start: Db) {
    Waiting(start.messages) == Some(OwedFirst(start))
  }

  lemma {:induction false} MessagesKept(start: Db, log: seq<Action>)
    ensures start.messages <= Replay(start, log).db.messages && start.messages <= Replay(start, log).committed.messages
  {
    if log != [] {
      MessagesKept(start, log[..|log| - 1]);
    }
  }

  lemma AskedWaits(calls: seq<ToolCall>)
    ensures Waiting([Message(AssistantSpeaker, "", calls, None, 0)]) == Some(calls)
  {
    var m := Message(AssistantSpeaker, "", calls, None, 0);
    var none: seq<Message> := [];
    WaitingSnoc(none, m);
    assert none + [m] == [m];
  }

  lemma AskingWaits(start: Db)
    ensures Waiting(Asking(start)) == Some(OwedFirst(start))
  {
    AskedWaits(SavedBy(start).calls);
  }

  /** From a paired start the whole conversation waits for what the run owes. */
  lemma OwesIsWaiting(start: Db, ms: seq<Message>)
    requires PairedStart(start) && start.messages <= ms
    ensures Waiting(ms) == Owes(start, ms)
  {
    assert ms == start.messages + ms[|start.messages|..];
    WaitingConcat(Some([]), start.messages, ms[|start.messages|..]);
  }

  /** What a run adds, after the message it was asked with, is paired whatever came before; from a paired start the whole
      conversation is. */
  lemma OwesNothing(start: Db, ms: seq<Message>)
    requires start.messages <= ms && Owes(start, ms) == Some([])
    ensures Paired(Asking(start) + Added(start, ms))
    ensures PairedStart(start) ==> Paired(ms)
  {
    AskingWaits(start);
    WaitingConcat(Some([]), Asking(start), Added(start, ms));
    WellPairedMeansPaired(Asking(start) + Added(start, ms));
    if PairedStart(start) {
      OwesIsWaiting(start, ms);
      WellPairedMeansPaired(ms);
    }
  }

  lemma {:induction false} OwesNothingAtAsk(start: Db, log: seq<Action>, k: nat)
    requires PairedAtAsks(start, log) && k < |log| && log[k].Ask?
    ensures Owes(start, Replay(start, log[..k]).db.messages) == Some([])
    decreases |log|
  {
    if k < |log| - 1 {
      assert log[..|log| - 1][..k] == log[..k];
      OwesNothingAtAsk(start, log[..|log| - 1], k);
    }
  }

  /** At every provider call of an execution, what its run has added is paired, whatever the conversation held before; if
      that was paired too, or waits for the saved calls of a resume, the whole conversation is. */
  lemma PairedAtEveryAsk(start: Db, w: World, maxTokens: int, text: string, k: nat)
    requires FreshStart(start) || PausedOk(start)
    requires k < |Execute(w, maxTokens, start, text).view.log| && Execute(w, maxTokens, start, text).view.log[k].Ask?
    ensures var ms := Replay(start, Execute(w, maxTokens, start, text).view.log[..k]).db.messages;
            start.messages <= ms && Paired(Asking(start) + Added(start, ms)) && (PairedStart(start) ==> Paired(ms))
  {
    var log := Execute(w, maxTokens, start, text).view.log;
    ExecutionEndsWell(start, w, maxTokens, text);
    OutcomePaired(start, w, Execute(w, maxTokens, start, text));
    OwesNothingAtAsk(start, log, k);
    MessagesKept(start, log[..k]);
    OwesNothing(start, Replay(start, log[..k]).db.messages);
  }

  lemma OutcomePaired(start: Db, w: World, o: Outcome)
    requires OutcomeOk(start, w, o)
    ensures PairedAtAsks(start, o.view.log) && Genuine(start, o.view)
  {
  }

  // ----- what an execution leaves stored ---------------------------------------------------

  /** What the database holds once an execution, its `finally` block included, is over. */
  function StoredAfter(o: Outcome, flagSet: bool, why: Interruption): Db {
    match o
    case Settled(v) => v.committed
    case Unsettled(v, tally, loops, cancelled) => AfterFinally(v, cancelled || flagSet, why, tally, loops).0
    case Thrown(v) => v.committed
  }

  /** A run that is over, however it got there. */
  predicate Ended(db: Db) {
    && db.run.closed && Terminal(db.run.status) && Sound(db)
    && (db.run.status == Completed ==>
          && db.run.tally.usage == SumUsage(db.rows)
          && db.run.answer.Some? && db.messages != []
          && db.messages[|db.messages| - 1].content == db.run.answer.value)
  }

  /** Of the calls this run has on record a pause waits for exactly those that are not answered, and a completed run has
      answered all. */
  predicate PairsWith(start: Db, db: Db) {
    && Readable(start, db)
    && (db.run.status == Paused ==>
          db.run.pending.Some? && Owes(start, db.messages) == Some(db.run.pending.value.calls))
    && (db.run.status == Completed ==> Owes(start, db.messages) == Some([]))
  }

  lemma PairsWithItself(start: Db)
    requires PausedOk(start)
    ensures PairsWith(start, start)
  {
  }

  lemma StoredAfterOk(start: Db, w: World, o: Outcome, flagSet: bool, why: Interruption)
    requires OutcomeOk(start, w, o) && (o.Thrown? ==> PausedOk(start))
    ensures var db := StoredAfter(o, flagSet, why); PausedOk(db) || Ended(db)
    ensures PairsWith(start, StoredAfter(o, flagSet, why))
  {
    if o.Unsettled? {
      NotSettled(o.view.log);
    }
  }

  lemma ThrownMeansPaused(start: Db, w: World, maxTokens: int, text: string)
    requires FreshStart(start) || PausedOk(start)
    ensures Execute(w, maxTokens, start, text).Thrown? ==> PausedOk(start)
  {
    if start.run.status != Paused && |start.messages| < HARD_CAP {
      NeverThrown(w, maxTokens, FirstState(OpeningView(start, text)));
    }
  }

  lemma {:induction false} NeverThrown(w: World, maxTokens: int, s: State)
    ensures !Iterate(w, maxTokens, s).Thrown?
    decreases if s.iteration < MAX_ITERATIONS then MAX_ITERATIONS - s.iteration else 0
  {
    AgainAdvances(w, maxTokens, s);
    var t := TurnOf(w, maxTokens, s);
    if t.Again? {
      NeverThrown(w, maxTokens, t.state);
    }
  }
}
