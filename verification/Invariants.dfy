/** What every executor keeps between its first event and its exit. */
module Invariants {
  import opened Basics
  import opened Trace
  import opened Protocol
  import opened Tools

  /** An action that neither settles the run, nor touches the conversation, nor resumes anything. */
  predicate CalmAction(a: Action) {
    Quiet(a) && !a.AddMessage? && !a.Resume?
  }

  /** The run is announced, unsettled, and the view is what its log replays to; the user's message is the only
      one added, and of the run row only the plan may have changed. */
  predicate Calm(start: Db, v: View) {
    && Genuine(start, v)
    && AllQuiet(v.log)
    && EventsOf(v.log) != [] && EventsOf(v.log)[0] == Working(Plain)
    && |v.db.messages| == |start.messages| + 1
    && v.db.run == start.run.(plan := v.db.run.plan)
  }

  /** Rows are numbered 1..n, the executor's counter is n, and its token totals are the sum over the rows, plus
      `extraIn` prompt tokens charged without a row of their own. */
  predicate Balanced(v: View, usage: Usage, runSeq: nat, extraIn: int) {
    && Numbered(v.db.rows)
    && |v.db.rows| == runSeq
    && usage.tokensIn == SumUsage(v.db.rows).tokensIn + extraIn
    && usage.tokensOut == SumUsage(v.db.rows).tokensOut
  }

  lemma CalmDo(start: Db, v: View, a: Action)
    requires Calm(start, v) && CalmAction(a) && MayFollow(v.log, a)
    ensures Calm(start, Do(v, a))
  {
    GenuineDo(start, v, a);
    EventsSnoc(v.log, a);
  }

  /** One calm action: the view stays calm, and only an `Ask` counts as a call. */
  lemma CalmStep(start: Db, v: View, a: Action)
    requires Calm(start, v) && CalmAction(a) && MayFollow(v.log, a)
    ensures Calm(start, Do(v, a)) && Asks(Do(v, a).log) == Asks(v.log) + if a.Ask? then 1 else 0
  {
    CalmDo(start, v, a);
    AsksSnoc(v.log, a);
  }

  lemma CalmReasoning(start: Db, v: View, r: ChatReply)
    requires Calm(start, v)
    ensures Calm(start, WithReasoning(v, r))
    ensures WithReasoning(v, r).db == v.db
    ensures Asks(WithReasoning(v, r).log) == Asks(v.log)
  {
    if !Blank(r.reasoning) {
      var a := Emit(Working(Reasoning(Strip(r.reasoning))));
      CalmDo(start, v, a);
      AsksSnoc(v.log, a);
    }
  }

  lemma NumberedSnoc(rows: seq<StepRow>, row: StepRow)
    requires Numbered(rows) && row.seqNo == |rows| + 1
    ensures Numbered(rows + [row])
  {
  }

  /** Adding the row the counter announces keeps the books balanced. */
  lemma BalancedRow(v: View, usage: Usage, runSeq: nat, extraIn: int, row: StepRow)
    requires Balanced(v, usage, runSeq, extraIn) && row.seqNo == runSeq + 1
    ensures Balanced(Do(v, AddRow(row)), Plus(usage, UsageOf(row)), runSeq + 1, extraIn)
  {
    NumberedSnoc(v.db.rows, row);
    SumSnoc(v.db.rows, row);
  }

  function OpeningView(start: Db, text: string): View {
    Do(Do(Do(View(start, start, []), AddMessage(User, text, [], None)), Commit), Emit(Working(Plain)))
  }

  lemma OpeningLog(start: Db, text: string)
    ensures var log := OpeningView(start, text).log;
            AllQuiet(log) && EventsOf(log) == [Working(Plain)] && Asks(log) == 0
  {
    var log: seq<Action> := [];
    var a1, a2, a3 := AddMessage(User, text, [], None), Commit, Emit(Working(Plain));
    EventsSnoc(log, a1);
    EventsSnoc(log + [a1], a2);
    EventsSnoc(log + [a1] + [a2], a3);
    AsksSnoc(log, a1);
    AsksSnoc(log + [a1], a2);
    AsksSnoc(log + [a1] + [a2], a3);
  }

  lemma OpeningGenuine(start: Db, text: string)
    ensures Genuine(start, OpeningView(start, text))
  {
    var v0 := View(start, start, []);
    var a1, a2, a3 := AddMessage(User, text, [], None), Commit, Emit(Working(Plain));
    GenuineDo(start, v0, a1);
    GenuineDo(start, Do(v0, a1), a2);
    GenuineDo(start, Do(Do(v0, a1), a2), a3);
  }

  lemma OpeningDb(start: Db, text: string)
    ensures var v := OpeningView(start, text);
            && v.db.rows == start.rows && v.db.run == start.run
            && |v.db.messages| == |start.messages| + 1
  {
  }

  lemma CalmFrom(start: Db, v: View)
    requires Genuine(start, v) && AllQuiet(v.log) && EventsOf(v.log) == [Working(Plain)]
    requires |v.db.messages| == |start.messages| + 1 && v.db.run == start.run
    ensures Calm(start, v)
  {
  }

  lemma BalancedEmpty(v: View)
    requires v.db.rows == []
    ensures Balanced(v, NO_USAGE, 0, 0)
  {
  }

  /** The first actions of ReAct and Plan & Execute leave a calm view with empty books. */
  lemma OpeningIsCalm(start: Db, text: string)
    requires start.rows == []
    ensures Calm(start, OpeningView(start, text))
    ensures Balanced(OpeningView(start, text), NO_USAGE, 0, 0)
    ensures Asks(OpeningView(start, text).log) == 0
  {
    var v := OpeningView(start, text);
    OpeningLog(start, text);
    OpeningGenuine(start, text);
    OpeningDb(start, text);
    CalmFrom(start, v);
    BalancedEmpty(v);
  }

  // ----- exits -----------------------------------------------------------------------------

  /** How `run` is left: by a return, or by an exception its `finally` block sees. */
  datatype Exit = Left(view: View) | Raised(view: View, tally: Tally, loops: nat)

  /** The totals an exit stores, or hands to the `finally` block. */
  function ExitTally(e: Exit): Tally {
    match e
    case Left(v) => v.db.run.tally
    case Raised(_, tally, _) => tally
  }

  /** The run settles at most once, and never by pausing. */
  ghost predicate SettlesSomewhere(log: seq<Action>) {
    exists k: nat :: SettlesAt(log, k) && (k < |log| ==> log[k].Finalize?)
  }

  /** A return leaves a settled run whose stream agrees with the committed row; an escaping exception leaves
      an unsettled one. */
  ghost predicate ExitOk(start: Db, e: Exit) {
    && Genuine(start, e.view)
    && SettlesSomewhere(e.view.log)
    && match e
       case Left(v) => v.committed == v.db && StreamAgrees(EventsOf(v.log), v.committed.run)
       case Raised(v, _, _) => AllQuiet(v.log)
  }

  lemma GenuineEmits(start: Db, v: View, e: Event)
    requires Genuine(start, v)
    ensures Genuine(start, Do(v, Emit(e)))
  {
    GenuineDo(start, v, Emit(e));
  }

  lemma GenuineClose(start: Db, v: View, c: Closing)
    requires Genuine(start, v)
    ensures Genuine(start, CloseView(v, c))
  {
    var w := Do(v, Finalize(c));
    GenuineDo(start, v, Finalize(c));
    match c.status {
      case Completed =>
        var e := Artifact(if c.answer.Some? then c.answer.value else "");
        GenuineEmits(start, w, e);
        GenuineEmits(start, Do(w, Emit(e)), CompletedEvent);
      case Failed => GenuineEmits(start, w, FailedEvent(if c.reason.Some? then c.reason.value else InternalError));
      case _ => GenuineEmits(start, w, CanceledEvent);
    }
  }

  lemma CloseViewDb(v: View, c: Closing)
    requires WellFormed(c)
    ensures CloseView(v, c).db == v.db.(run := Finalized(v.db.run, c))
    ensures CloseView(v, c).committed == CloseView(v, c).db
    ensures Asks(CloseView(v, c).log) == Asks(v.log)
  {
    var w := Do(v, Finalize(c));
    AsksSnoc(v.log, Finalize(c));
    match c.status {
      case Completed =>
        var a := Emit(Artifact(if c.answer.Some? then c.answer.value else ""));
        AsksSnoc(w.log, a);
        AsksSnoc(Do(w, a).log, Emit(CompletedEvent));
      case Failed => AsksSnoc(w.log, Emit(FailedEvent(if c.reason.Some? then c.reason.value else InternalError)));
      case _ => AsksSnoc(w.log, Emit(CanceledEvent));
    }
  }

  /** What the exits need of a view: announced, unsettled, genuine. */
  predicate Announced(start: Db, v: View) {
    Genuine(start, v) && AllQuiet(v.log) && EventsOf(v.log) != [] && EventsOf(v.log)[0] == Working(Plain)
  }

  lemma AnnouncedDo(start: Db, v: View, a: Action)
    requires Announced(start, v) && Quiet(a) && MayFollow(v.log, a)
    ensures Announced(start, Do(v, a))
  {
    GenuineDo(start, v, a);
    EventsSnoc(v.log, a);
  }

  lemma ClosedExit(start: Db, v: View, c: Closing)
    requires Announced(start, v) && WellFormed(c)
    ensures ExitOk(start, Left(CloseView(v, c)))
  {
    GenuineClose(start, v, c);
    ClosedStreamAgrees(v, c);
    assert SettlesAt(CloseView(v, c).log, |v.log|) && CloseView(v, c).log[|v.log|] == Finalize(c);
  }

  lemma RaisedExit(start: Db, v: View, tally: Tally, loops: nat)
    requires Announced(start, v)
    ensures ExitOk(start, Raised(v, tally, loops))
  {
    assert SettlesAt(v.log, |v.log|);
  }

  lemma ContextFullExit(start: Db)
    ensures ExitOk(start, Left(ContextFullView(View(start, start, []))))
  {
    var v := View(start, start, []);
    var c := ContextFullClosing();
    GenuineDo(start, v, Finalize(c));
    GenuineDo(start, Do(v, Finalize(c)), Emit(Working(Plain)));
    GenuineDo(start, Do(Do(v, Finalize(c)), Emit(Working(Plain))), Emit(FailedEvent(ContextFull)));
    ContextFullStreamAgrees(start);
    assert SettlesAt(ContextFullView(v).log, 0) && ContextFullView(v).log[0] == Finalize(c);
  }

  /** An execution cut after `log`, and the `finally` block after it, make exactly one terminal write, and the
      committed row ends closed and terminal, by the orphan write as that must leave it. */
  predicate ClosesOnce(start: Db, log: seq<Action>, flagSet: bool, why: Interruption, tally: Tally, loops: nat) {
    var (db, orphan) := AfterFinally(Replay(start, log), flagSet, why, tally, loops);
    && Settles(log) + orphan == 1 && db.run.closed && Terminal(db.run.status)
    && (orphan == 1 ==> LeftOrphaned(db.run, flagSet, why, tally, loops))
  }

  /** Disconnect or crash after any number of effects of an execution that starts on an open run: with the
      `finally` block there is exactly one terminal write, and the committed row ends closed and terminal. */
  lemma CutAnywhere(start: Db, e: Exit, n: nat, flagSet: bool, why: Interruption, tally: Tally, loops: nat)
    requires ExitOk(start, e) && n <= |e.view.log|
    requires !start.run.closed && !Terminal(start.run.status)
    ensures ClosesOnce(start, e.view.log[..n], flagSet, why, tally, loops)
  {
    var k: nat :| SettlesAt(e.view.log, k) && (k < |e.view.log| ==> e.view.log[k].Finalize?);
    ExactlyOneTerminalWrite(start, e.view.log, k, n, flagSet, why, tally, loops);
  }

  lemma ExitClosesOnce(start: Db, e: Exit, n: nat, flagSet: bool, why: Interruption, tally: Tally, loops: nat)
    requires start.run == FRESH_RUN && ExitOk(start, e) && n <= |e.view.log|
    ensures ClosesOnce(start, e.view.log[..n], flagSet, why, tally, loops)
  {
    CutAnywhere(start, e, n, flagSet, why, tally, loops);
  }

  lemma {:induction false} NotSettled(log: seq<Action>)
    requires AllQuiet(log)
    ensures Settles(log) == 0
  {
    if log != [] {
      assert Quiet(log[|log| - 1]);
      NotSettled(log[..|log| - 1]);
    }
  }

  /** An execution that returned settled its run once, closed; one that raised left that to the `finally`. */
  lemma ExitSettles(start: Db, e: Exit)
    requires ExitOk(start, e) && !start.run.closed && !Terminal(start.run.status)
    ensures Settles(e.view.log) == if e.Left? then 1 else 0
    ensures e.Left? ==> e.view.committed.run.closed && Terminal(e.view.committed.run.status)
  {
    var log := e.view.log;
    if e.Raised? {
      NotSettled(log);
    } else {
      var k: nat :| SettlesAt(log, k) && (k < |log| ==> log[k].Finalize?);
      assert IsFinal(EventsOf(log)[|EventsOf(log)| - 1]);
      if k == |log| {
        NoFinalEvent(log);
      }
      SettlesCount(log, k, |log|);
      assert log[..|log|] == log;
      SettledRowStays(start, log, k, |log|);
    }
  }

  lemma NoFinalEvent(log: seq<Action>)
    requires AllQuiet(log)
    ensures forall i :: 0 <= i < |EventsOf(log)| ==> !IsFinal(EventsOf(log)[i])
  {
    QuietEvents(log);
  }
}
