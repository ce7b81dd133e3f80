/** The life of a run row: the operations of the run service, none of which looks at the status it overwrites, and
    the discipline under which a run is closed once and stays closed. */
module Runs {
  import opened Basics
  import opened Sequences
  import opened Trace

  /** What the reaper writes: the row is closed, its totals and its snapshot stay. */
  function ReapedRow(run: RunRow): RunRow {
    run.(status := Failed, reason := Some(Abandoned), closed := true)
  }

  predicate Reapable(run: RunRow) {
    run.status.Running? || run.status.Paused?
  }

  /** `completed_at` is set exactly on terminal rows. */
  predicate RowOk(run: RunRow) {
    run.closed <==> Terminal(run.status)
  }

  // ----- the table -------------------------------------------------------------------------

  function ReapAll(rows: map<nat, RunRow>, stale: set<nat>): map<nat, RunRow> {
    map id | id in rows :: if id in stale && Reapable(rows[id]) then ReapedRow(rows[id]) else rows[id]
  }

  /** The rows the reaper hits. */
  function Reaping(rows: map<nat, RunRow>, stale: set<nat>): set<nat> {
    set id | id in rows && id in stale && Reapable(rows[id])
  }

  /** The stored runs, by id. */
  class RunTable {
    var rows: map<nat, RunRow>
    var nextId: nat

    ghost predicate Valid()
      reads this
    {
      forall id :: id in rows ==> id < nextId
    }

    constructor ()
      ensures Valid() && rows == map[]
    {
      rows, nextId := map[], 0;
    }

    /** `create_run`. */
    method CreateRun() returns (id: nat)
      requires Valid()
      modifies this
      ensures Valid() && id !in old(rows) && rows == old(rows)[id := FRESH_RUN]
    {
      id := nextId;
      rows := rows[id := FRESH_RUN];
      nextId := nextId + 1;
    }

    /** `finalize_run`: no effect if the row is gone. */
    method FinalizeRun(id: nat, c: Closing)
      requires Valid()
      modifies this`rows
      ensures Valid()
      ensures rows == if id in old(rows) then old(rows)[id := Finalized(old(rows)[id], c)] else old(rows)
    {
      if id in rows {
        rows := rows[id := Finalized(rows[id], c)];
      }
    }

    /** `pause_run_for_input`. */
    method PauseRunForInput(id: nat, p: Pending)
      requires Valid()
      modifies this`rows
      ensures Valid()
      ensures rows == if id in old(rows) then old(rows)[id := PausedRow(old(rows)[id], p)] else old(rows)
    {
      if id in rows {
        rows := rows[id := PausedRow(rows[id], p)];
      }
    }

    /** `resume_run`. */
    method ResumeRun(id: nat)
      requires Valid()
      modifies this`rows
      ensures Valid()
      ensures rows == if id in old(rows) then old(rows)[id := ResumedRow(old(rows)[id])] else old(rows)
    {
      if id in rows {
        rows := rows[id := ResumedRow(rows[id])];
      }
    }

    /** `reap_abandoned_runs`; `stale` are the runs started before the cutoff. */
    method ReapAbandonedRuns(stale: set<nat>) returns (count: nat)
      requires Valid()
      modifies this`rows
      ensures Valid() && rows == ReapAll(old(rows), stale) && count == |Reaping(old(rows), stale)|
    {
      count := |Reaping(rows, stale)|;
      rows := ReapAll(rows, stale);
    }
  }

  /** The row is closed as failed and abandoned; answer, totals, loops, plan and snapshot stay. */
  predicate Abandons(run: RunRow, after: RunRow) {
    && after.status == Failed && after.reason == Some(Abandoned) && after.closed
    && after.answer == run.answer && after.tally == run.tally && after.loops == run.loops
    && after.plan == run.plan && after.pending == run.pending
  }

  /** Reaping closes what it hits, keeps every other row, and is done after one pass. */
  lemma ReapClosesExactlyTheStale(rows: map<nat, RunRow>, stale: set<nat>)
    requires forall id :: id in rows ==> RowOk(rows[id])
    ensures var after := ReapAll(rows, stale);
            && after.Keys == rows.Keys
            && (forall id :: id in rows ==> RowOk(after[id]))
            && (forall id :: id in rows && (id !in stale || Terminal(rows[id].status)) ==> after[id] == rows[id])
            && (forall id :: id in rows && id in stale && !Terminal(rows[id].status) ==> Abandons(rows[id], after[id]))
            && Reaping(after, stale) == {} && ReapAll(after, stale) == after
  {
  }

  // ----- operations without a discipline ---------------------------------------------------

  /** One write to a row. Finalizing callers only pass terminal statuses; the reaper skips terminal rows. */
  datatype Write = Close(closing: Closing) | Wait(pending: Pending) | GoOn | Reap

  function Written(run: RunRow, w: Write): RunRow {
    match w
    case Close(c) => Finalized(run, c)
    case Wait(p) => PausedRow(run, p)
    case GoOn => ResumedRow(run)
    case Reap => if Reapable(run) then ReapedRow(run) else run
  }

  function AllWritten(run: RunRow, writes: seq<Write>): RunRow {
    if writes == [] then run else Written(AllWritten(run, writes[..|writes| - 1]), writes[|writes| - 1])
  }

  predicate TerminalCloses(writes: seq<Write>) {
    forall i :: 0 <= i < |writes| && writes[i].Close? ==> Terminal(writes[i].closing.status)
  }

  /** No pause and no resume of the sequence finds its run already over. */
  predicate NeverReopens(run: RunRow, writes: seq<Write>) {
    forall i :: 0 <= i < |writes| && (writes[i].Wait? || writes[i].GoOn?) ==> !Terminal(AllWritten(run, writes[..i]).status)
  }

  /** The row is right after every write of the sequence. */
  predicate AlwaysOk(run: RunRow, writes: seq<Write>) {
    forall n :: 0 <= n <= |writes| ==> RowOk(AllWritten(run, writes[..n]))
  }

  lemma OneWrite(run: RunRow, w: Write)
    requires RowOk(run) && (w.Close? ==> Terminal(w.closing.status))
    ensures RowOk(Written(run, w)) <==> ((w.Wait? || w.GoOn?) ==> !Terminal(run.status))
  {
  }

  /** The operations check nothing: over any sequence of writes `completed_at` is set exactly on terminal rows
      if and only if no pause and no resume hits a run that is over. */
  lemma CompletedAtIffNeverReopened(run: RunRow, writes: seq<Write>)
    requires RowOk(run) && TerminalCloses(writes)
    ensures AlwaysOk(run, writes) <==> NeverReopens(run, writes)
  {
    if NeverReopens(run, writes) {
      forall n | 0 <= n <= |writes| ensures RowOk(AllWritten(run, writes[..n])) {
        RightSoFar(run, writes, n);
      }
    }
    if AlwaysOk(run, writes) {
      forall i | 0 <= i < |writes| && (writes[i].Wait? || writes[i].GoOn?)
        ensures !Terminal(AllWritten(run, writes[..i]).status)
      {
        PrefixWritten(run, writes, i);
        assert RowOk(AllWritten(run, writes[..i])) && RowOk(AllWritten(run, writes[..i + 1]));
        OneWrite(AllWritten(run, writes[..i]), writes[i]);
      }
    }
  }

  lemma PrefixWritten(run: RunRow, writes: seq<Write>, i: nat)
    requires i < |writes|
    ensures AllWritten(run, writes[..i + 1]) == Written(AllWritten(run, writes[..i]), writes[i])
  {
    assert writes[..i + 1][..i] == writes[..i];
  }

  lemma {:induction false} RightSoFar(run: RunRow, writes: seq<Write>, n: nat)
    requires RowOk(run) && TerminalCloses(writes) && NeverReopens(run, writes) && n <= |writes|
    ensures RowOk(AllWritten(run, writes[..n]))
  {
    if n > 0 {
      RightSoFar(run, writes, n - 1);
      PrefixWritten(run, writes, n - 1);
      OneWrite(AllWritten(run, writes[..n - 1]), writes[n - 1]);
    }
  }

  /** A paused run reaped by one process while another is resuming it runs on with `completed_at` set. */
  lemma ReapThenResume(p: Pending)
    ensures var run := AllWritten(FRESH_RUN, [Wait(p)] + [Reap] + [GoOn]);
            run.status == Running && run.closed
  {
    assert [Wait(p)][..0] == [];
    assert AllWritten(FRESH_RUN, [Wait(p)]) == PausedRow(FRESH_RUN, p);
    Snoc([Wait(p)], Reap);
    assert AllWritten(FRESH_RUN, [Wait(p)] + [Reap]) == ReapedRow(PausedRow(FRESH_RUN, p));
    Snoc([Wait(p)] + [Reap], GoOn);
  }

  // ----- one owner per run -----------------------------------------------------------------

  /** Who may write to a run: an executor inside its `try`, one that has claimed a paused run and not resumed it
      yet, or nobody. */
  datatype Owner = Nobody | Executing | Claiming

  datatype Life = Life(run: RunRow, owner: Owner, closings: nat)

  /** Steps of a life: a plan put on the row; a terminal write, inline or by the `finally` block; a pause; a request that
      finds the paused run; its resume; the loss of the owner with its process or by an exception before the `try`; the
      reaper. */
  datatype LifeStep =
    | Plans(payload: Json) | Ends(closing: Closing) | Pauses(pending: Pending) | Claimed | Resumes | Lost | Reaped

  predicate Enabled(l: Life, s: LifeStep) {
    match s
    case Plans(_) => l.owner.Executing?
    case Ends(c) => l.owner.Executing? && Terminal(c.status)
    case Pauses(_) => l.owner.Executing?
    case Claimed => l.owner.Nobody? && l.run.status.Paused?
    case Resumes => l.owner.Claiming?
    case Lost => !l.owner.Nobody?
    case Reaped => l.owner.Nobody? && Reapable(l.run)
  }

  function Taken(l: Life, s: LifeStep): Life {
    match s
    case Plans(payload) => l.(run := l.run.(plan := Some(payload)))
    case Ends(c) => Life(Written(l.run, Close(c)), Nobody, l.closings + 1)
    case Pauses(p) => Life(Written(l.run, Wait(p)), Nobody, l.closings)
    case Claimed => l.(owner := Claiming)
    case Resumes => Life(Written(l.run, GoOn), Owner.Executing, l.closings)
    case Lost => l.(owner := Nobody)
    case Reaped => Life(Written(l.run, Reap), Nobody, l.closings + 1)
  }

  const BORN := Life(FRESH_RUN, Owner.Executing, 0)

  /** A life after some more steps, and whether each of them could be taken. */
  function LivedFrom(l: Life, steps: seq<LifeStep>): Life {
    if steps == [] then l else Taken(LivedFrom(l, steps[..|steps| - 1]), steps[|steps| - 1])
  }

  predicate PossibleFrom(l: Life, steps: seq<LifeStep>) {
    steps == []
    || (PossibleFrom(l, steps[..|steps| - 1]) && Enabled(LivedFrom(l, steps[..|steps| - 1]), steps[|steps| - 1]))
  }

  function Lived(steps: seq<LifeStep>): Life {
    LivedFrom(BORN, steps)
  }

  predicate Possible(steps: seq<LifeStep>) {
    PossibleFrom(BORN, steps)
  }

  lemma {:induction false} LivedOn(l: Life, a: seq<LifeStep>, b: seq<LifeStep>)
    requires PossibleFrom(l, a) && PossibleFrom(LivedFrom(l, a), b)
    ensures PossibleFrom(l, a + b) && LivedFrom(l, a + b) == LivedFrom(LivedFrom(l, a), b)
    decreases |b|
  {
    if b == [] {
      assert a + b == a;
    } else {
      var init, last := b[..|b| - 1], b[|b| - 1];
      LivedOn(l, a, init);
      InitLast(b);
      Assoc(a, init, [last]);
      Snoc(a + init, last);
    }
  }

  /** What holds at every moment of a life. */
  predicate LifeOk(l: Life) {
    && RowOk(l.run)
    && (l.owner.Executing? ==> l.run.status.Running?)
    && (l.owner.Claiming? ==> l.run.status.Paused?)
    && (l.run.status.Paused? ==> l.run.pending.Some? && l.run.reason == Some(InputRequired))
    && (l.run.status.Running? ==> l.run.pending.None? && l.run.reason == None)
    && (l.run.pending.Some? ==> l.run.status.Paused? || l.run.reason == Some(Abandoned))
    && l.closings == (if Terminal(l.run.status) then 1 else 0)
  }

  /** With one owner at a time, in every reachable state: completed_at is set exactly on terminal rows, a paused run
      has its snapshot and says why it waits, a running one has neither snapshot nor stop reason, a closed one only if the reaper closed it, and a run is closed at
      most once. */
  lemma {:induction false} EveryLifeIsOk(steps: seq<LifeStep>)
    requires Possible(steps)
    ensures LifeOk(Lived(steps))
  {
    if steps != [] {
      EveryLifeIsOk(steps[..|steps| - 1]);
    }
  }

  lemma NothingAfter(l: Life, s: LifeStep)
    requires LifeOk(l) && Terminal(l.run.status)
    ensures !Enabled(l, s)
  {
  }

  /** Terminal states are never left: after a run is over no step of a possible life follows. */
  lemma {:induction false} TerminalIsFinal(steps: seq<LifeStep>, n: nat)
    requires Possible(steps) && n <= |steps| && Terminal(Lived(steps[..n]).run.status)
    ensures n == |steps|
    decreases |steps|
  {
    if n < |steps| {
      var init := steps[..|steps| - 1];
      assert init[..n] == steps[..n];
      TerminalIsFinal(init, n);
      assert init[..n] == init;
      EveryLifeIsOk(init);
      NothingAfter(Lived(init), steps[|steps| - 1]);
    }
  }

  /** The state a task reports after any life: working, waiting or one of the three ends, never a closed row that
      reads as working. */
  lemma ReportedState(steps: seq<LifeStep>)
    requires Possible(steps)
    ensures var run := Lived(steps).run;
            run.closed <==> TaskStateOf(run.status) in {StateCompleted, StateFailed, StateCanceled}
  {
    EveryLifeIsOk(steps);
  }
}
