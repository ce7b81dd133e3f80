/** A run of Simple mode over all its executions, each of which may be cut short anywhere. */
module SimpleHistory {
  import opened Basics
  import opened Trace
  import opened Protocol
  import opened Invariants
  import opened Cuts
  import opened Messages
  import opened SimpleSpec
  import opened SimpleFacts
  import opened SimpleTheorems
  import opened SimpleGate

  // ----- one execution, cut or not ---------------------------------------------------------

  /** Where an execution is cut, by a disconnect or by an exception the model does not raise itself: after so many of its
      effects, with these totals in hand. A cut right where the `try` begins may fall on either side. */
  datatype Cut = Cut(effects: nat, entered: bool, tally: Tally, loops: nat)

  /** One execution of a run: what other runs have written to the conversation before it, its world and text, what the
      `finally` block sees if it has to act, and a cut, if any. */
  datatype Input = Input(others: seq<Message>, world: World, text: string, flagSet: bool, why: Interruption, cut: Option<Cut>)

  predicate InTheTry(w: World, start: Db, text: string, c: Cut) {
    AtTheTry(w, start, text).Some? &&
    var first := |AtTheTry(w, start, text).value.log|; first < c.effects || (first == c.effects && c.entered)
  }

  /** A cut that comes after everything the execution did is none. */
  predicate CutShort(maxTokens: int, start: Db, i: Input) {
    i.cut.Some? && i.cut.value.effects <= |Execute(i.world, maxTokens, start, i.text).view.log|
  }

  /** What the database holds once an execution is over, cut or not. */
  function Stored(maxTokens: int, start: Db, i: Input): Db {
    if CutShort(maxTokens, start, i) then
      var c := i.cut.value;
      CutAt(i.world, maxTokens, start, i.text, c.effects, InTheTry(i.world, start, i.text, c), i.flagSet, i.why,
            c.tally, c.loops).0
    else StoredAfter(Execute(i.world, maxTokens, start, i.text), i.flagSet, i.why)
  }

  /** A run nobody is executing and nobody closed: only the reaper will. */
  predicate StillRunning(db: Db) {
    db.run.status == Running && !db.run.closed && db.run.pending == None && Sound(db)
  }

  /** Where a run may stand between executions. */
  predicate AtRest(db: Db) {
    PausedOk(db) || Ended(db) || StillRunning(db)
  }

  /** The cuts that leave a run running: of a first execution before its `try`, and of a resume between the commit of
      `resume_run` and the `try`. */
  predicate LeavesRunning(maxTokens: int, start: Db, i: Input) {
    && CutShort(maxTokens, start, i)
    && !InTheTry(i.world, start, i.text, i.cut.value)
    && if AtTheTry(i.world, start, i.text).None? then start.run.status != Paused && i.cut.value.effects == 0
       else start.run.status == Paused ==> i.cut.value.effects == |AtTheTry(i.world, start, i.text).value.log|
  }

  // ----- what a cut leaves can be read -----------------------------------------------------

  lemma SoundBefore(db: Db, later: Db)
    requires GrowsTo(db, later) && Sound(later)
    ensures Sound(db)
  {
    assert forall i :: 0 <= i < |db.rows| ==> db.rows[i] == later.rows[i];
    assert forall i :: 0 <= i < |db.messages| ==> db.messages[i] == later.messages[i];
  }

  /** What comes before data that can be read can be read. */
  lemma ReadableBefore(start: Db, db: Db, later: Db)
    requires GrowsTo(start, db) && GrowsTo(db, later) && Readable(start, later)
    ensures Readable(start, db)
  {
    SoundBefore(db, later);
    var n := |start.messages|;
    var rest := later.messages[|db.messages|..];
    assert later.messages[n..] == db.messages[n..] + rest;
    WaitingConcat(Some(OwedFirst(start)), db.messages[n..], rest);
    if Owes(start, db.messages).None? {
      BrokenStays(rest);
    }
  }

  lemma OutcomeReadable(start: Db, w: World, o: Outcome)
    requires OutcomeOk(start, w, o) && !o.Thrown?
    ensures Genuine(start, o.view) && Readable(start, o.view.db)
  {
  }

  lemma GenuineCut(start: Db, v: View, n: nat)
    requires Genuine(start, v) && Readable(start, v.db) && n <= |v.log|
    ensures var db := Replay(start, v.log[..n]).committed; Readable(start, db) && GrowsTo(start, db)
  {
    StoredAtACut(start, v.log, n);
    LaterStoresMore(start, v.log, 0, n);
    assert v.log[..0] == [];
    ReadableBefore(start, Replay(start, v.log[..n]).committed, v.db);
  }

  lemma StartReadable(start: Db)
    requires FreshStart(start) || PausedOk(start)
    ensures Readable(start, start)
  {
  }

  /** Cut anywhere, an execution leaves data that can be read, and what was stored before it is still there. */
  lemma CutSound(w: World, maxTokens: int, start: Db, text: string, n: nat)
    requires FreshStart(start) || PausedOk(start)
    requires n <= |Execute(w, maxTokens, start, text).view.log|
    ensures var db := Replay(start, Execute(w, maxTokens, start, text).view.log[..n]).committed;
            Readable(start, db) && GrowsTo(start, db)
  {
    var o := Execute(w, maxTokens, start, text);
    ExecutionEndsWell(start, w, maxTokens, text);
    if o.Thrown? {
      ThrownBeforeTheTry(w, maxTokens, start, text);
      CutWithoutTheTry(w, maxTokens, start, text, n);
      StartReadable(start);
    } else {
      OutcomeReadable(start, w, o);
      GenuineCut(start, o.view, n);
    }
  }

  lemma ThrownBeforeTheTry(w: World, maxTokens: int, start: Db, text: string)
    requires FreshStart(start) || PausedOk(start)
    ensures Execute(w, maxTokens, start, text).Thrown? ==> AtTheTry(w, start, text).None? && start.run.status == Paused
  {
    if LoopStart(w, start, text).Some? {
      NeverThrown(w, maxTokens, LoopStart(w, start, text).value);
    }
  }

  /** The run is over, and what it has on record is in order. */
  predicate Over(start: Db, db: Db) {
    Ended(db) && PairsWith(start, db)
  }

  // ----- cuts in the `try` -----------------------------------------------------------------

  lemma OrphanEnds(start: Db, db: Db, flagSet: bool, why: Interruption, tally: Tally, loops: nat)
    requires Readable(start, db)
    ensures Over(start, db.(run := Finalized(db.run, OrphanClosing(flagSet, why, tally, loops))))
  {
  }

  lemma SettledOver(start: Db, w: World, v: View)
    requires SettledOk(start, w, v)
    ensures PausedOk(v.committed) || Ended(v.committed)
    ensures PairsWith(start, v.committed)
  {
  }

  /** Once settled, an execution stores nothing more. */
  lemma SettledKeeps(start: Db, v: View, k: nat, n: nat)
    requires Genuine(start, v) && SettlesAt(v.log, k) && k < n <= |v.log| && Startable(start.run)
    ensures Replay(start, v.log[..n]).committed == v.committed
  {
    SettledRowStays(start, v.log, k, n);
    SettledRowStays(start, v.log, k, |v.log|);
    assert v.log[..|v.log|] == v.log;
  }

  lemma CutSettled(start: Db, w: World, v: View, n: nat, flagSet: bool, why: Interruption, tally: Tally, loops: nat)
    requires SettledOk(start, w, v) && n <= |v.log| && Startable(start.run)
    requires Readable(start, Replay(start, v.log[..n]).committed)
    ensures var db := AfterFinally(Replay(start, v.log[..n]), flagSet, why, tally, loops).0;
            (PausedOk(db) && db == v.committed && PairsWith(start, db)) || Over(start, db)
  {
    var k: nat :| k < |v.log| && SettlesAt(v.log, k);
    SettlesCount(v.log, k, n);
    ReplayLog(start, v.log[..n]);
    if k < n {
      SettledKeeps(start, v, k, n);
      SettledOver(start, w, v);
    } else {
      OrphanEnds(start, Replay(start, v.log[..n]).committed, flagSet, why, tally, loops);
    }
  }

  lemma CutUnsettled(start: Db, log: seq<Action>, n: nat, flagSet: bool, why: Interruption, tally: Tally, loops: nat)
    requires AllQuiet(log) && n <= |log| && Readable(start, Replay(start, log[..n]).committed)
    ensures Over(start, AfterFinally(Replay(start, log[..n]), flagSet, why, tally, loops).0)
  {
    QuietPrefix(log, n);
    ReplayLog(start, log[..n]);
    OrphanEnds(start, Replay(start, log[..n]).committed, flagSet, why, tally, loops);
  }

  /** The execution settled its run, and this is what it stored. */
  predicate StoresAll(o: Outcome, db: Db) {
    o.Settled? && db == o.view.committed
  }

  lemma CutOutcome(start: Db, w: World, o: Outcome, n: nat, flagSet: bool, why: Interruption, tally: Tally, loops: nat)
    requires OutcomeOk(start, w, o) && !o.Thrown? && n <= |o.view.log| && Startable(start.run)
    requires Readable(start, Replay(start, o.view.log[..n]).committed)
    ensures var db := AfterFinally(Replay(start, o.view.log[..n]), flagSet, why, tally, loops).0;
            (PausedOk(db) && StoresAll(o, db) && PairsWith(start, db)) || Over(start, db)
  {
    if o.Settled? {
      CutSettled(start, w, o.view, n, flagSet, why, tally, loops);
    } else {
      CutUnsettled(start, o.view.log, n, flagSet, why, tally, loops);
    }
  }

  /** Cut in its `try`, an execution leaves the run paused as it paused it, or over. */
  lemma CutInside(w: World, maxTokens: int, start: Db, text: string, n: nat, flagSet: bool, why: Interruption,
                  tally: Tally, loops: nat)
    requires FreshStart(start) || PausedOk(start)
    requires AtTheTry(w, start, text).Some? && n <= |Execute(w, maxTokens, start, text).view.log|
    ensures var log := Execute(w, maxTokens, start, text).view.log[..n];
            var db := AfterFinally(Replay(start, log), flagSet, why, tally, loops).0;
            (PausedOk(db) && StoresAll(Execute(w, maxTokens, start, text), db) && PairsWith(start, db)) || Over(start, db)
  {
    var o := Execute(w, maxTokens, start, text);
    ExecutionEndsWell(start, w, maxTokens, text);
    ThrownBeforeTheTry(w, maxTokens, start, text);
    CutSound(w, maxTokens, start, text, n);
    CutOutcome(start, w, o, n, flagSet, why, tally, loops);
  }

  // ----- cuts before the `try` -------------------------------------------------------------

  /** Cut before its `try`, an execution leaves the run as it found it, or running. */
  lemma CutOutside(w: World, maxTokens: int, start: Db, text: string, n: nat)
    requires FreshStart(start) || PausedOk(start)
    requires AtTheTry(w, start, text).Some? && n <= |AtTheTry(w, start, text).value.log|
    requires n <= |Execute(w, maxTokens, start, text).view.log|
    ensures var db := Replay(start, Execute(w, maxTokens, start, text).view.log[..n]).committed;
            && (if start.run.status == Paused && n < |AtTheTry(w, start, text).value.log| then db == start else StillRunning(db))
            && PairsWith(start, db)
  {
    CutSound(w, maxTokens, start, text, n);
    if n == |AtTheTry(w, start, text).value.log| {
      CutAtTheTry(w, maxTokens, start, text, n);
    } else if start.run.status == Paused {
      ExecuteContinues(w, maxTokens, start, text, n);
      CutResumeStaysPaused(w, start, text, n);
    } else {
      CutBeforeTheTry(w, maxTokens, start, text, n);
    }
  }

  /** Cut in an execution that never reaches its `try`. */
  lemma CutElsewhere(w: World, maxTokens: int, start: Db, text: string, n: nat)
    requires FreshStart(start) || PausedOk(start)
    requires AtTheTry(w, start, text).None? && n <= |Execute(w, maxTokens, start, text).view.log|
    ensures var db := Replay(start, Execute(w, maxTokens, start, text).view.log[..n]).committed;
            && (if start.run.status == Paused then db == start else if n == 0 then StillRunning(db) else Ended(db))
            && PairsWith(start, db)
  {
    CutSound(w, maxTokens, start, text, n);
    CutWithoutTheTry(w, maxTokens, start, text, n);
  }

  // ----- one execution ---------------------------------------------------------------------

  /** Where one execution leaves its run: nothing stored before it is changed or lost, and what the run has on record is
      answered or waited for. */
  predicate Leaves(start: Db, db: Db, running: bool) {
    GrowsTo(start, db) && AtRest(db) && PairsWith(start, db) && (db.run.status == Running <==> running)
  }

  lemma RestsAt(start: Db, db: Db)
    requires GrowsTo(start, db) && (PausedOk(db) || Ended(db)) && PairsWith(start, db)
    ensures Leaves(start, db, false)
  {
  }

  lemma OutsideLeaves(maxTokens: int, start: Db, i: Input)
    requires FreshStart(start) || PausedOk(start)
    requires CutShort(maxTokens, start, i) && !InTheTry(i.world, start, i.text, i.cut.value)
    ensures var log := Execute(i.world, maxTokens, start, i.text).view.log[..i.cut.value.effects];
            Leaves(start, Replay(start, log).committed, LeavesRunning(maxTokens, start, i))
  {
    CutSound(i.world, maxTokens, start, i.text, i.cut.value.effects);
    if AtTheTry(i.world, start, i.text).None? {
      CutElsewhere(i.world, maxTokens, start, i.text, i.cut.value.effects);
    } else {
      CutOutside(i.world, maxTokens, start, i.text, i.cut.value.effects);
    }
  }

  lemma InsideLeaves(w: World, maxTokens: int, start: Db, text: string, n: nat, flagSet: bool, why: Interruption,
                     tally: Tally, loops: nat)
    requires FreshStart(start) || PausedOk(start)
    requires AtTheTry(w, start, text).Some? && n <= |Execute(w, maxTokens, start, text).view.log|
    ensures var log := Execute(w, maxTokens, start, text).view.log[..n];
            Leaves(start, AfterFinally(Replay(start, log), flagSet, why, tally, loops).0, false)
  {
    var log := Execute(w, maxTokens, start, text).view.log[..n];
    CutSound(w, maxTokens, start, text, n);
    CutInside(w, maxTokens, start, text, n, flagSet, why, tally, loops);
    RestsAt(start, AfterFinally(Replay(start, log), flagSet, why, tally, loops).0);
  }

  lemma CutLeaves(maxTokens: int, start: Db, i: Input)
    requires FreshStart(start) || PausedOk(start)
    requires CutShort(maxTokens, start, i)
    ensures Leaves(start, Stored(maxTokens, start, i), LeavesRunning(maxTokens, start, i))
  {
    var w, text, c := i.world, i.text, i.cut.value;
    if InTheTry(w, start, text, c) {
      InsideLeaves(w, maxTokens, start, text, c.effects, i.flagSet, i.why, c.tally, c.loops);
    } else {
      OutsideLeaves(maxTokens, start, i);
    }
  }

  lemma WholeRests(maxTokens: int, start: Db, w: World, text: string, flagSet: bool, why: Interruption)
    requires FreshStart(start) || PausedOk(start)
    ensures var db := StoredAfter(Execute(w, maxTokens, start, text), flagSet, why);
            (PausedOk(db) || Ended(db)) && PairsWith(start, db)
  {
    ExecutionEndsWell(start, w, maxTokens, text);
    ThrownMeansPaused(start, w, maxTokens, text);
    StoredAfterOk(start, w, Execute(w, maxTokens, start, text), flagSet, why);
  }

  lemma StoredAfterGrows(start: Db, o: Outcome, flagSet: bool, why: Interruption)
    requires GrowsTo(start, o.view.committed)
    ensures GrowsTo(start, StoredAfter(o, flagSet, why))
  {
  }

  lemma OutcomeGenuine(start: Db, w: World, o: Outcome)
    requires OutcomeOk(start, w, o)
    ensures Genuine(start, o.view)
  {
  }

  lemma WholeGrows(maxTokens: int, start: Db, w: World, text: string, flagSet: bool, why: Interruption)
    requires FreshStart(start) || PausedOk(start)
    ensures GrowsTo(start, StoredAfter(Execute(w, maxTokens, start, text), flagSet, why))
  {
    var o := Execute(w, maxTokens, start, text);
    ExecutionEndsWell(start, w, maxTokens, text);
    OutcomeGenuine(start, w, o);
    CutSound(w, maxTokens, start, text, |o.view.log|);
    assert o.view.log[..|o.view.log|] == o.view.log;
    StoredAfterGrows(start, o, flagSet, why);
  }

  lemma WholeLeaves(maxTokens: int, start: Db, w: World, text: string, flagSet: bool, why: Interruption)
    requires FreshStart(start) || PausedOk(start)
    ensures Leaves(start, StoredAfter(Execute(w, maxTokens, start, text), flagSet, why), false)
  {
    WholeRests(maxTokens, start, w, text, flagSet, why);
    WholeGrows(maxTokens, start, w, text, flagSet, why);
    RestsAt(start, StoredAfter(Execute(w, maxTokens, start, text), flagSet, why));
  }

  /** One execution, cut anywhere or not at all. */
  lemma ExecutionLeaves(maxTokens: int, start: Db, i: Input)
    requires FreshStart(start) || PausedOk(start)
    ensures Leaves(start, Stored(maxTokens, start, i), LeavesRunning(maxTokens, start, i))
  {
    if CutShort(maxTokens, start, i) {
      CutLeaves(maxTokens, start, i);
    } else {
      WholeLeaves(maxTokens, start, i.world, i.text, i.flagSet, i.why);
    }
  }

  /** An execution that leaves its run to the `finally` block, by a cancel or an exception: the totals stored are the sums
      over the rows it wrote, so they cover the rows committed when no row counts negative. */
  lemma UnsettledTotals(maxTokens: int, start: Db, w: World, text: string, flagSet: bool, why: Interruption)
    requires FreshStart(start) || PausedOk(start)
    requires Execute(w, maxTokens, start, text).Unsettled?
    ensures var o := Execute(w, maxTokens, start, text);
            var db := StoredAfter(o, flagSet, why);
            && db.run.tally.usage == SumUsage(o.view.db.rows)
            && (HonestRows(o.view.db.rows) ==> AtLeast(db.run.tally.usage, SumUsage(db.rows)))
  {
    var o := Execute(w, maxTokens, start, text);
    ExecutionEndsWell(start, w, maxTokens, text);
    UnsettledCovers(start, o.view, o.cancelled || flagSet, why, o.tally, o.loops);
  }

  lemma UnsettledCovers(start: Db, v: View, flagSet: bool, why: Interruption, tally: Tally, loops: nat)
    requires LeftOpen(start, v, tally)
    ensures var db := AfterFinally(v, flagSet, why, tally, loops).0;
            && db.run.tally == tally
            && (HonestRows(v.db.rows) ==> AtLeast(tally.usage, SumUsage(db.rows)))
  {
    NotSettled(v.log);
    if HonestRows(v.db.rows) {
      OrphanCovers(start, v.log, flagSet, why, tally, loops);
    }
  }

  // ----- chains of executions --------------------------------------------------------------

  /** The conversation after other runs have written to it in the meantime, each message at the next position, as long as
      it is not full. */
  function WrittenTo(ms: seq<Message>, others: seq<Message>): seq<Message> {
    if others == [] then ms
    else
      var ms1 := WrittenTo(ms, others[..|others| - 1]);
      if |ms1| >= HARD_CAP then ms1 else ms1 + [others[|others| - 1].(position := |ms1|)]
  }

  function Meanwhile(db: Db, others: seq<Message>): Db {
    db.(messages := WrittenTo(db.messages, others))
  }

  lemma {:induction false} WrittenInPlace(ms: seq<Message>, others: seq<Message>)
    requires Positioned(ms)
    ensures Positioned(WrittenTo(ms, others)) && ms <= WrittenTo(ms, others)
  {
    if others != [] {
      WrittenInPlace(ms, others[..|others| - 1]);
    }
  }

  /** Other runs' messages change nothing for this run. */
  lemma MeanwhileReady(db: Db, others: seq<Message>)
    requires FreshStart(db) || PausedOk(db)
    ensures FreshStart(db) ==> FreshStart(Meanwhile(db, others))
    ensures PausedOk(db) ==> PausedOk(Meanwhile(db, others))
    ensures GrowsTo(db, Meanwhile(db, others))
  {
    WrittenInPlace(db.messages, others);
  }

  /** One more execution of a run, after what other runs have written since. */
  function After(maxTokens: int, db: Db, i: Input): Db {
    Stored(maxTokens, Meanwhile(db, i.others), i)
  }

  /** A run from a stored state on: as long as it is paused, the next input resumes it. */
  function History(maxTokens: int, db: Db, inputs: seq<Input>): Db
    decreases |inputs|
  {
    if inputs == [] then db
    else
      var after := After(maxTokens, db, inputs[0]);
      if after.run.status == Paused then History(maxTokens, after, inputs[1..]) else after
  }

  /** The last execution of the chain was cut where nobody closes the run. */
  predicate EndsAbandoned(maxTokens: int, db: Db, inputs: seq<Input>)
    decreases |inputs|
  {
    inputs != [] &&
    if After(maxTokens, db, inputs[0]).run.status == Paused
    then EndsAbandoned(maxTokens, After(maxTokens, db, inputs[0]), inputs[1..])
    else LeavesRunning(maxTokens, Meanwhile(db, inputs[0].others), inputs[0])
  }

  /** Where a run stands after any chain of executions. */
  predicate Stands(db: Db, later: Db, running: bool) {
    GrowsTo(db, later) && AtRest(later) && (later.run.status == Running <==> running)
  }

  lemma AfterStands(maxTokens: int, db: Db, i: Input)
    requires FreshStart(db) || PausedOk(db)
    ensures Stands(db, After(maxTokens, db, i), LeavesRunning(maxTokens, Meanwhile(db, i.others), i))
  {
    MeanwhileReady(db, i.others);
    ExecutionLeaves(maxTokens, Meanwhile(db, i.others), i);
    GrowsTrans(db, Meanwhile(db, i.others), After(maxTokens, db, i));
  }

  /** After any chain of executions of one run, pauses, approvals, denials and cancels, each cut anywhere or not at all, in
      any conversation and whatever other runs write to it in between: every row and message stored on the way is still
      there, and the run is paused with a snapshot that holds its books, or over with rows numbered 1..n and, if it
      completed, totals equal to the sum over all rows written before and after the pauses. It is left running if and only
      if its last execution was cut outside the `try` where nobody closes it. */
  lemma {:induction false} HistoryEndsWell(maxTokens: int, db: Db, inputs: seq<Input>)
    requires PausedOk(db) || (FreshStart(db) && inputs != [])
    ensures Stands(db, History(maxTokens, db, inputs), EndsAbandoned(maxTokens, db, inputs))
    decreases |inputs|
  {
    if inputs == [] {
      return;
    }
    var after := After(maxTokens, db, inputs[0]);
    AfterStands(maxTokens, db, inputs[0]);
    if after.run.status == Paused {
      HistoryEndsWell(maxTokens, after, inputs[1..]);
      GrowsTrans(db, after, History(maxTokens, after, inputs[1..]));
    }
  }

  // ----- a conversation of its own ---------------------------------------------------------

  lemma {:induction false} MessagesGrow(start: Db, log: seq<Action>, j: nat)
    requires j <= |log|
    ensures Replay(start, log[..j]).db.messages <= Replay(start, log).db.messages
    decreases |log|
  {
    if j == |log| {
      assert log[..j] == log;
    } else {
      assert log[..|log| - 1][..j] == log[..j];
      MessagesGrow(start, log[..|log| - 1], j);
    }
  }

  /** A message of the user breaks the order of a conversation that waits, and nothing mends it. */
  lemma UserBreaks(before: seq<Message>, m: Message, rest: seq<Message>)
    requires m.role.User? && !WellPaired(before)
    ensures !WellPaired(before + [m] + rest)
  {
    WaitingSnoc(before, m);
    WaitingConcat(Some([]), before + [m], rest);
    BrokenStays(rest);
  }

  lemma OpeningMessages(start: Db, text: string)
    ensures Replay(start, OpeningView(start, text).log).db.messages ==
            start.messages + [Message(User, text, [], None, |start.messages|)]
    ensures |OpeningView(start, text).log| == 3
  {
    OpeningGenuine(start, text);
  }

  lemma AfterOpening(start: Db, text: string, log: seq<Action>, k: nat)
    requires 3 <= k <= |log| && log[..3] == OpeningView(start, text).log
    ensures start.messages + [Message(User, text, [], None, |start.messages|)] <= Replay(start, log[..k]).db.messages
  {
    assert log[..k][..3] == log[..3];
    OpeningMessages(start, text);
    MessagesGrow(start, log[..k], 3);
  }

  lemma BeginsWithOpening(start: Db, w: World, maxTokens: int, text: string)
    requires FreshStart(start) && |start.messages| < HARD_CAP
    ensures var log := Execute(w, maxTokens, start, text).view.log;
            |log| >= 3 && log[..3] == OpeningView(start, text).log
  {
    OpeningMessages(start, text);
    ExecuteContinues(w, maxTokens, start, text, 3);
    assert OpeningView(start, text).log[..3] == OpeningView(start, text).log;
  }

  lemma FirstMessage(start: Db, w: World, maxTokens: int, text: string, k: nat)
    requires FreshStart(start) && |start.messages| < HARD_CAP
    requires 3 <= k <= |Execute(w, maxTokens, start, text).view.log|
    ensures start.messages + [Message(User, text, [], None, |start.messages|)]
            <= Replay(start, Execute(w, maxTokens, start, text).view.log[..k]).db.messages
  {
    BeginsWithOpening(start, w, maxTokens, text);
    AfterOpening(start, text, Execute(w, maxTokens, start, text).view.log, k);
  }

  lemma AsksAfterOpening(start: Db, w: World, maxTokens: int, text: string, k: nat)
    requires FreshStart(start)
    requires k < |Execute(w, maxTokens, start, text).view.log| && Execute(w, maxTokens, start, text).view.log[k].Ask?
    ensures |start.messages| < HARD_CAP && 3 <= k
  {
    var log := Execute(w, maxTokens, start, text).view.log;
    if |start.messages| < HARD_CAP {
      ExecuteContinues(w, maxTokens, start, text, 3);
      assert forall i :: 0 <= i < 3 ==> log[i] == log[..3][i] == OpeningView(start, text).log[i];
    }
  }

  /** At the provider calls of a first execution the whole conversation is paired if and only if it was when the run began.
      It was not when an earlier cancel broke off a batch in it, or while another run of it is paused. */
  lemma PairedIffPairedStart(start: Db, w: World, maxTokens: int, text: string, k: nat)
    requires FreshStart(start)
    requires k < |Execute(w, maxTokens, start, text).view.log| && Execute(w, maxTokens, start, text).view.log[k].Ask?
    ensures Paired(Replay(start, Execute(w, maxTokens, start, text).view.log[..k]).db.messages) <==> WellPaired(start.messages)
  {
    PairedAtEveryAsk(start, w, maxTokens, text, k);
    AsksAfterOpening(start, w, maxTokens, text, k);
    FirstMessage(start, w, maxTokens, text, k);
    if !WellPaired(start.messages) {
      var ms := Replay(start, Execute(w, maxTokens, start, text).view.log[..k]).db.messages;
      var m := Message(User, text, [], None, |start.messages|);
      assert ms == start.messages + [m] + ms[|start.messages| + 1..];
      UserBreaks(start.messages, m, ms[|start.messages| + 1..]);
      WellPairedMeansPaired(ms);
    }
  }

  /** No other run writes to the conversation between the executions. */
  predicate Alone(inputs: seq<Input>) {
    forall i :: 0 <= i < |inputs| ==> inputs[i].others == []
  }

  /** No result without its call; a paused run's conversation waits for its calls, a completed run's for nothing. */
  predicate InOrder(db: Db) {
    && Waiting(db.messages).Some?
    && (db.run.status == Paused ==> PairedStart(db))
    && (db.run.status == Completed ==> WellPaired(db.messages))
  }

  lemma PairsInOrder(start: Db, db: Db)
    requires PairedStart(start) && GrowsTo(start, db) && PairsWith(start, db)
    ensures InOrder(db)
  {
    OwesIsWaiting(start, db.messages);
  }

  /** A run alone in a conversation that was paired when it began, or waiting for it, leaves the whole conversation in order
      after any chain of executions. */
  lemma {:induction false} HistoryInOrder(maxTokens: int, db: Db, inputs: seq<Input>)
    requires FreshStart(db) || PausedOk(db)
    requires PairedStart(db) && Alone(inputs)
    ensures InOrder(History(maxTokens, db, inputs))
    decreases |inputs|
  {
    if inputs == [] {
      return;
    }
    var after := After(maxTokens, db, inputs[0]);
    ExecutionLeaves(maxTokens, db, inputs[0]);
    PairsInOrder(db, after);
    if after.run.status == Paused {
      HistoryInOrder(maxTokens, after, inputs[1..]);
    }
  }
}
