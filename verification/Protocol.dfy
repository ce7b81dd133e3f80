/** How a run ends: the closing actions of the inline exits, the `finally` block that covers every other
    exit, and what both leave in the database and on the event stream. */
module Protocol {
  import opened Basics
  import opened Sequences
  import opened Trace

  // ----- the inline exits ------------------------------------------------------------------

  /** What every inline exit writes: a terminal status with the answer or reason that goes with it. */
  predicate WellFormed(c: Closing) {
    match c.status
    case Completed => c.answer.Some?
    case Failed => c.reason.Some? && c.answer.None?
    case Cancelled => c.reason == Some(CancelRequested) && c.answer.None?
    case _ => false
  }

  /** Events an inline exit yields after its terminal row is committed. */
  function ClosingEvents(c: Closing): seq<Event> {
    match c.status
    case Completed => [Artifact(if c.answer.Some? then c.answer.value else ""), CompletedEvent]
    case Failed => [FailedEvent(if c.reason.Some? then c.reason.value else InternalError)]
    case _ => [CanceledEvent]
  }

  function CloseView(v: View, c: Closing): View {
    var w := Do(v, Finalize(c));
    match c.status
    case Completed =>
      Do(Do(w, Emit(Artifact(if c.answer.Some? then c.answer.value else ""))), Emit(CompletedEvent))
    case Failed => Do(w, Emit(FailedEvent(if c.reason.Some? then c.reason.value else InternalError)))
    case _ => Do(w, Emit(CanceledEvent))
  }

  /** The exit taken when the user's message no longer fits: the row is closed before `working` goes out. */
  function ContextFullView(v: View): View {
    var c := ContextFullClosing();
    Do(Do(Do(v, Finalize(c)), Emit(Working(Plain))), Emit(FailedEvent(ContextFull)))
  }

  function ContextFullClosing(): Closing {
    Closing(Failed, Some(ContextFull), None, ZERO_TALLY, 0)
  }

  /** A run of a full conversation: failed as such at once, with nothing asked and nothing added. */
  predicate TurnedAway(start: Db, v: View) {
    && v.db.rows == start.rows && v.db.messages == start.messages && v.committed == v.db && Asks(v.log) == 0
    && v.db.run.status == Failed && v.db.run.reason == Some(ContextFull) && v.db.run.answer == None && v.db.run.closed
    && v.db.run.tally == Tally(Usage(0, 0), None) && v.db.run.loops == 0
  }

  lemma TurnedAwayWhenFull(start: Db)
    ensures TurnedAway(start, ContextFullView(View(start, start, [])))
  {
    var log: seq<Action> := [];
    var a1, a2, a3 := Finalize(ContextFullClosing()), Emit(Working(Plain)), Emit(FailedEvent(ContextFull));
    AsksSnoc(log, a1);
    AsksSnoc(log + [a1], a2);
    AsksSnoc(log + [a1] + [a2], a3);
  }

  // ----- quiet logs ------------------------------------------------------------------------

  /** An action that neither settles the run nor ends the stream. */
  predicate Quiet(a: Action) {
    match a
    case Finalize(_) => false
    case Pause(_) => false
    case Emit(e) => e.Working?
    case _ => true
  }

  predicate AllQuiet(log: seq<Action>) {
    forall i :: 0 <= i < |log| ==> Quiet(log[i])
  }

  /** The run settles at most once, at position `k`; afterwards it only emits. */
  predicate SettlesAt(log: seq<Action>, k: nat) {
    && k <= |log|
    && (forall i :: 0 <= i < k ==> Quiet(log[i]))
    && (k < |log| ==> log[k].Finalize? || log[k].Pause?)
    && (k < |log| && log[k].Finalize? ==> Terminal(log[k].closing.status))
    && (forall i :: k < i < |log| ==> log[i].Emit?)
  }

  // ----- the outer finally -----------------------------------------------------------------

  /** Why an executor was left early: the client went away, or some other exception escaped. */
  datatype Interruption = Disconnected | Crashed

  /** The triage of `schedule_orphan_finalize`. */
  function OrphanClosing(flagSet: bool, why: Interruption, tally: Tally, loops: nat): Closing {
    if flagSet then Closing(Cancelled, Some(CancelRequested), None, tally, loops)
    else if why.Disconnected? then Closing(Cancelled, Some(ClientDisconnected), None, tally, loops)
    else Closing(Failed, Some(InternalError), None, tally, loops)
  }

  /** How the orphan write leaves a run: cancelled by request when the flag is set, cancelled by a lost client when that is why
      it ended, failed otherwise; with the totals and loops in hand, and no answer. */
  predicate LeftOrphaned(run: RunRow, flagSet: bool, why: Interruption, tally: Tally, loops: nat) {
    && run.closed && run.answer == None && run.tally == tally && run.loops == loops
    && (run.status == Cancelled <==> flagSet || why == Disconnected)
    && (run.status == Failed <==> !flagSet && why == Crashed)
    && (flagSet ==> run.reason == Some(CancelRequested))
    && (!flagSet && why == Disconnected ==> run.reason == Some(ClientDisconnected))
    && (!flagSet && why == Crashed ==> run.reason == Some(InternalError))
  }

  /** Terminal or pausing writes in a log. */
  function Settles(log: seq<Action>): nat {
    if log == [] then 0
    else Settles(log[..|log| - 1]) + (if log[|log| - 1].Finalize? || log[|log| - 1].Pause? then 1 else 0)
  }

  /** What the database holds after the `finally` block of an executor that stopped at view `v`: nothing to
      do when the run was settled inline, otherwise one orphan write on a fresh session, which sees
      committed data only. */
  function AfterFinally(v: View, flagSet: bool, why: Interruption, tally: Tally, loops: nat): (r: (Db, nat)) {
    if Settles(v.log) > 0 then (v.committed, 0)
    else (v.committed.(run := Finalized(v.committed.run, OrphanClosing(flagSet, why, tally, loops))), 1)
  }

  // ----- the stream and the database -------------------------------------------------------

  /** The whole event stream of one execution agrees with the run row it leaves. */
  predicate StreamAgrees(events: seq<Event>, run: RunRow) {
    && |events| >= 2
    && events[0] == Working(Plain)
    && (forall i :: 0 <= i < |events| ==> (IsFinal(events[i]) <==> i == |events| - 1))
    && EventState(events[|events| - 1]) == TaskStateOf(run.status)
    && (events[|events| - 1].FailedEvent? ==> run.reason == Some(events[|events| - 1].reason))
    && (forall i :: 0 <= i < |events| ==> (events[i].Artifact? <==> run.status == Completed && i == |events| - 2))
    && (run.status == Completed ==> events[|events| - 2].Artifact? && run.answer == Some(events[|events| - 2].text))
  }

  /** The events of a quiet log are `working` updates only. */
  lemma {:induction false} QuietEvents(log: seq<Action>)
    requires AllQuiet(log)
    ensures forall i :: 0 <= i < |EventsOf(log)| ==> EventsOf(log)[i].Working?
  {
    if log != [] {
      assert Quiet(log[|log| - 1]);
      QuietEvents(log[..|log| - 1]);
    }
  }

  lemma CloseViewEvents(v: View, c: Closing)
    requires WellFormed(c)
    ensures EventsOf(CloseView(v, c).log) == EventsOf(v.log) + ClosingEvents(c)
  {
    EventsSnoc(v.log, Finalize(c));
    var w := Do(v, Finalize(c));
    match c.status {
      case Completed =>
        EventsSnoc(w.log, Emit(Artifact(c.answer.value)));
        EventsSnoc(Do(w, Emit(Artifact(c.answer.value))).log, Emit(CompletedEvent));
        Assoc(EventsOf(v.log), [Artifact(c.answer.value)], [CompletedEvent]);
        assert [Artifact(c.answer.value)] + [CompletedEvent] == ClosingEvents(c);
      case Failed => EventsSnoc(w.log, Emit(FailedEvent(c.reason.value)));
      case Cancelled => EventsSnoc(w.log, Emit(CanceledEvent));
      case _ =>
    }
  }

  lemma WorkingThenClosing(events: seq<Event>, c: Closing, run: RunRow)
    requires WellFormed(c) && run.status == c.status && run.reason == c.reason && run.answer == c.answer
    requires events != [] && events[0] == Working(Plain)
    requires forall i :: 0 <= i < |events| ==> events[i].Working?
    ensures StreamAgrees(events + ClosingEvents(c), run)
  {
    var all := events + ClosingEvents(c);
    assert all[|events|..] == ClosingEvents(c);
    assert forall i :: 0 <= i < |events| ==> all[i] == events[i];
    assert all[|events|] == ClosingEvents(c)[0];
    if c.status == Completed {
      assert all[|events| + 1] == ClosingEvents(c)[1];
    }
  }

  lemma CloseViewSettles(v: View, c: Closing)
    requires AllQuiet(v.log) && WellFormed(c)
    ensures SettlesAt(CloseView(v, c).log, |v.log|)
  {
    var log := CloseView(v, c).log;
    assert forall i :: 0 <= i < |v.log| ==> log[i] == v.log[i];
  }

  /** A quiet run that has announced itself and then takes an inline exit: the stream carries exactly one
      final event, last, after the committed terminal row and with its status and reason; the artifact is
      there exactly when the run completed, directly before `completed`, and is the stored answer. */
  lemma ClosedStreamAgrees(v: View, c: Closing)
    requires AllQuiet(v.log) && WellFormed(c)
    requires EventsOf(v.log) != [] && EventsOf(v.log)[0] == Working(Plain)
    ensures StreamAgrees(EventsOf(CloseView(v, c).log), CloseView(v, c).committed.run)
    ensures CloseView(v, c).committed == CloseView(v, c).db
    ensures SettlesAt(CloseView(v, c).log, |v.log|)
  {
    CloseViewSettles(v, c);
    QuietEvents(v.log);
    CloseViewEvents(v, c);
    WorkingThenClosing(EventsOf(v.log), c, CloseView(v, c).committed.run);
  }

  lemma ContextFullStreamAgrees(start: Db)
    ensures var v := ContextFullView(View(start, start, []));
            && StreamAgrees(EventsOf(v.log), v.committed.run)
            && v.committed == v.db
            && SettlesAt(v.log, 0)
  {
    var c := ContextFullClosing();
    var log: seq<Action> := [];
    EventsSnoc(log, Finalize(c));
    EventsSnoc(log + [Finalize(c)], Emit(Working(Plain)));
    EventsSnoc(log + [Finalize(c)] + [Emit(Working(Plain))], Emit(FailedEvent(ContextFull)));
    var v := ContextFullView(View(start, start, []));
    assert v.log == log + [Finalize(c)] + [Emit(Working(Plain))] + [Emit(FailedEvent(ContextFull))];
    assert EventsOf(v.log) == [Working(Plain), FailedEvent(ContextFull)];
  }

  // ----- exactly one terminal write --------------------------------------------------------

  lemma {:induction false} SettlesCount(log: seq<Action>, k: nat, n: nat)
    requires SettlesAt(log, k) && n <= |log|
    ensures Settles(log[..n]) == if n <= k then 0 else 1
  {
    if n > 0 {
      SettlesCount(log, k, n - 1);
      assert log[..n][..n - 1] == log[..n - 1];
      assert log[..n][n - 1] == log[n - 1];
      assert n - 1 < k ==> Quiet(log[n - 1]);
    }
  }

  /** Before it settles a run that started open is never closed, in the session or in the committed data. */
  lemma {:induction false} QuietStaysOpen(start: Db, log: seq<Action>)
    requires AllQuiet(log) && !start.run.closed && !Terminal(start.run.status)
    ensures !Replay(start, log).db.run.closed && !Terminal(Replay(start, log).db.run.status)
    ensures !Replay(start, log).committed.run.closed && !Terminal(Replay(start, log).committed.run.status)
  {
    if log != [] {
      assert Quiet(log[|log| - 1]);
      QuietStaysOpen(start, log[..|log| - 1]);
    }
  }

  /** Once settled, the committed row keeps the status it settled with. */
  lemma {:induction false} SettledRowStays(start: Db, log: seq<Action>, k: nat, n: nat)
    requires SettlesAt(log, k) && k < n <= |log|
    requires !start.run.closed && !Terminal(start.run.status)
    ensures Replay(start, log[..n]).committed == Replay(start, log[..k + 1]).committed
    ensures var run := Replay(start, log[..n]).committed.run;
            if log[k].Finalize? then Terminal(run.status) && run.closed else run.status == Paused && !run.closed
  {
    if n == k + 1 {
      assert log[..n][..k] == log[..k];
      QuietStaysOpen(start, log[..k]);
    } else {
      SettledRowStays(start, log, k, n - 1);
      assert log[..n][..n - 1] == log[..n - 1];
      assert log[n - 1].Emit?;
    }
  }

  /** Cut the execution after any number of its effects, as a disconnect or an exception at an await would:
      together with the `finally` block there is exactly one terminal (or pausing) write, and the committed
      row ends terminal with completed_at set, or paused with it unset; an orphan write leaves the run as it
      must. */
  lemma ExactlyOneTerminalWrite(
    start: Db, log: seq<Action>, k: nat, n: nat, flagSet: bool, why: Interruption, tally: Tally, loops: nat)
    requires SettlesAt(log, k) && n <= |log|
    requires !start.run.closed && !Terminal(start.run.status)
    ensures var (db, orphan) := AfterFinally(Replay(start, log[..n]), flagSet, why, tally, loops);
            && Settles(log[..n]) + orphan == 1
            && (orphan == 1 <==> n <= k)
            && (db.run.closed <==> Terminal(db.run.status))
            && (db.run.status == Paused || Terminal(db.run.status))
            && (db.run.status == Paused <==> k < n && log[k].Pause?)
            && (orphan == 1 ==> LeftOrphaned(db.run, flagSet, why, tally, loops))
  {
    SettlesCount(log, k, n);
    ReplayLog(start, log[..n]);
    if n > k {
      SettledRowStays(start, log, k, n);
    }
  }

  lemma {:induction false} ReplayLog(start: Db, log: seq<Action>)
    ensures Replay(start, log).log == log
  {
    if log != [] {
      ReplayLog(start, log[..|log| - 1]);
      InitLast(log);
    }
  }
}
