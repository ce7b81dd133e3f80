/** How often an approved call is made: a batch that waits is consumed by the commit of the resume, and by nothing before. */
module SimpleApprovals {
  import opened Basics
  import opened Sequences
  import opened Trace
  import opened Protocol
  import opened Invariants
  import opened SimpleSpec
  import opened SimpleAnswers
  import opened SimpleFacts
  import opened SimpleTheorems
  import opened SimpleGate
  import opened SimpleHistory

  // ----- the calls of one resume -----------------------------------------------------------

  /** The calls a log makes, in order. */
  function Made(log: seq<Action>): seq<ToolCall> {
    if log == [] then []
    else Made(log[..|log| - 1]) + (if log[|log| - 1].Invoke? then [log[|log| - 1].call] else [])
  }

  lemma MadeSnoc(log: seq<Action>, a: Action)
    ensures Made(log + [a]) == Made(log) + if a.Invoke? then [a.call] else []
  {
    Snoc(log, a);
  }

  /** What the calls from the `i`-th on of a batch may have made. */
  predicate MadeInOrder(b: Batch, calls: seq<ToolCall>, approved: bool) {
    var made := Made(b.state.view.log);
    made <= calls && (approved && b.Ran? ==> made == calls) && (!approved ==> made == [])
  }

  lemma CalledMakes(s: State, call: ToolCall, payload: ToolPayload, approved: bool)
    ensures var s1 := Called(s, call, payload, approved);
            && Made(s1.view.log) == Made(s.view.log) + (if approved then [call] else [])
            && Made(WithResult(s1, call, payload).view.log) == Made(s1.view.log)
  {
    var row := ToolResultRow(s.runSeq + 1, call, payload);
    var v := if approved then Do(s.view, Invoke(call)) else s.view;
    MadeSnoc(s.view.log, Invoke(call));
    MadeSnoc(v.log, AddRow(row));
    MadeSnoc(Do(v, AddRow(row)).log, AddMessage(ToolSpeaker, payload.content, [], Some(call.id)));
  }

  lemma {:induction false} BatchMakes(w: World, s: State, batch: nat, calls: seq<ToolCall>, i: nat, approved: bool)
    requires i <= |calls| && Made(s.view.log) == if approved then calls[..i] else []
    ensures MadeInOrder(RunBatch(w, s, batch, calls, i, approved), calls, approved)
    decreases |calls| - i
  {
    if i < |calls| && !Flag(w, s.checks) {
      var payload := Result(w, batch, calls, i, approved);
      CalledMakes(Read(s), calls[i], payload, approved);
      assert calls[..i] + [calls[i]] == calls[..i + 1];
      var s1 := Called(Read(s), calls[i], payload, approved);
      if !Full(s1) {
        BatchMakes(w, WithResult(s1, calls[i], payload), batch, calls, i + 1, approved);
      }
    }
  }

  /** With no cancel and room for the results a batch runs to its end. */
  lemma {:induction false} BatchGetsThrough(w: World, s: State, batch: nat, calls: seq<ToolCall>, i: nat, approved: bool)
    requires i <= |calls| && w.cancelFrom.None? && |s.view.db.messages| + |calls| - i <= HARD_CAP
    ensures RunBatch(w, s, batch, calls, i, approved).Ran?
    decreases |calls| - i
  {
    if i < |calls| {
      BatchIs(w, s, batch, calls, i, approved);
      var payload := Result(w, batch, calls, i, approved);
      var s1 := Called(Read(s), calls[i], payload, approved);
      BatchGetsThrough(w, WithResult(s1, calls[i], payload), batch, calls, i + 1, approved);
    }
  }

  /** Up to its `try` a resume makes the saved calls one after the other, each at most once, and only if its text is an
      approval word, in any case and between white space; with such a text it makes all of them when it gets through, as
      it does when no cancel intervenes and the results fit. */
  lemma SavedCallsOnce(w: World, start: Db, text: string)
    ensures var b, calls := SavedBatch(w, start, text), SavedBy(start).calls;
            var made := Made(b.state.view.log);
            && made <= calls
            && (made != [] ==> Approves(text))
            && (Approves(text) && b.Ran? ==> made == calls)
            && (w.cancelFrom.None? && |start.messages| + |calls| <= HARD_CAP ==> b.Ran?)
  {
    var v := View(start, start, []);
    MadeSnoc(v.log, Emit(Working(Plain)));
    ApprovalSpelled(text);
    BatchMakes(w, Restored(start), 0, SavedBy(start).calls, 0, IsApproval(text));
    if w.cancelFrom.None? && |start.messages| + |SavedBy(start).calls| <= HARD_CAP {
      BatchGetsThrough(w, Restored(start), 0, SavedBy(start).calls, 0, IsApproval(text));
    }
  }

  // ----- when the batch waits again --------------------------------------------------------

  lemma {:induction false} RowsNeverFewer(start: Db, log: seq<Action>, j: nat)
    requires j < |log| && log[j].AddRow?
    ensures |Replay(start, log).db.rows| > |start.rows|
  {
    var init := log[..|log| - 1];
    if j < |log| - 1 {
      assert init[j] == log[j];
      RowsNeverFewer(start, init, j);
    } else {
      RowsKept(start, init);
    }
  }

  lemma {:induction false} RowsKept(start: Db, log: seq<Action>)
    ensures |Replay(start, log).db.rows| >= |start.rows|
  {
    if log != [] {
      RowsKept(start, log[..|log| - 1]);
    }
  }

  /** The run waits for the answer it was waiting for. */
  predicate WaitsAsBefore(start: Db, db: Db) {
    db.run.status == Paused && db.run.pending == start.run.pending
  }

  /** A pause with more rows before it: one of a later reply. */
  predicate WaitsLater(start: Db, db: Db) {
    db.run.status == Paused && |db.rows| > |start.rows|
  }

  /** The batch is done with: the run is paused on a later reply, or not paused. */
  predicate DoneWith(start: Db, db: Db) {
    db.run.status == Paused ==> PausedOk(db) && WaitsLater(start, db)
  }

  lemma LaterIsAnother(start: Db, db: Db)
    requires PausedOk(start) && DoneWith(start, db)
    ensures !WaitsAsBefore(start, db)
  {
  }

  lemma TailAdds(w: World, start: Db, v: View, p: Trace.Pending)
    requires Genuine(start, v) && PauseTail(w, v.log, p)
    ensures |v.db.rows| > |start.rows|
  {
    RowsNeverFewer(start, v.log, |v.log| - 4);
  }

  lemma SettledPause(w: World, start: Db, v: View)
    requires SettledOk(start, w, v) && PausesWithTail(w, Settled(v))
    ensures DoneWith(start, v.committed)
  {
    if v.db.run.status == Paused {
      TailAdds(w, start, v, v.db.run.pending.value);
    }
  }

  /** An execution that pauses does so on a reply of its own. */
  lemma LaterPause(w: World, maxTokens: int, start: Db, text: string)
    requires PausedOk(start)
    ensures var o := Execute(w, maxTokens, start, text); o.Settled? ==> DoneWith(start, o.view.committed)
  {
    ExecutionEndsWell(start, w, maxTokens, text);
    PausedBatchIsUntouched(w, maxTokens, start, text);
    var o := Execute(w, maxTokens, start, text);
    if o.Settled? {
      SettledPause(w, start, o.view);
    }
  }

  /** The execution never got to commit the resume: the saved results did not fit, or it was cut before. */
  predicate NeverResumed(maxTokens: int, start: Db, i: Input) {
    AtTheTry(i.world, start, i.text).None?
    || (CutShort(maxTokens, start, i) && i.cut.value.effects < |AtTheTry(i.world, start, i.text).value.log|)
  }

  lemma CutWaits(maxTokens: int, start: Db, i: Input)
    requires PausedOk(start) && CutShort(maxTokens, start, i)
    ensures var db := Stored(maxTokens, start, i);
            if NeverResumed(maxTokens, start, i) then db == start else DoneWith(start, db)
  {
    var w, text, c := i.world, i.text, i.cut.value;
    if AtTheTry(w, start, text).None? {
      CutElsewhere(w, maxTokens, start, text, c.effects);
    } else if InTheTry(w, start, text, c) {
      LaterPause(w, maxTokens, start, text);
      CutInside(w, maxTokens, start, text, c.effects, i.flagSet, i.why, c.tally, c.loops);
    } else {
      CutOutside(w, maxTokens, start, text, c.effects);
    }
  }

  lemma WholeWaits(maxTokens: int, start: Db, w: World, text: string, flagSet: bool, why: Interruption)
    requires PausedOk(start)
    ensures var db := StoredAfter(Execute(w, maxTokens, start, text), flagSet, why);
            if AtTheTry(w, start, text).None? then db == start else DoneWith(start, db)
  {
    var o := Execute(w, maxTokens, start, text);
    ExecutionEndsWell(start, w, maxTokens, text);
    ThrownBeforeTheTry(w, maxTokens, start, text);
    LaterPause(w, maxTokens, start, text);
    if o.Unsettled? {
      NotSettled(o.view.log);
    }
  }

  lemma ResumeStores(maxTokens: int, start: Db, i: Input)
    requires PausedOk(start)
    ensures var db := Stored(maxTokens, start, i);
            if NeverResumed(maxTokens, start, i) then db == start else DoneWith(start, db)
  {
    if CutShort(maxTokens, start, i) {
      CutWaits(maxTokens, start, i);
    } else {
      WholeWaits(maxTokens, start, i.world, i.text, i.flagSet, i.why);
    }
  }

  /** After one more execution a paused run waits for the same answer if and only if that execution never committed its
      resume; then everything is stored as it was. */
  lemma WaitsAgainIff(maxTokens: int, start: Db, i: Input)
    requires PausedOk(start)
    ensures WaitsAsBefore(start, Stored(maxTokens, start, i)) <==> NeverResumed(maxTokens, start, i)
    ensures NeverResumed(maxTokens, start, i) ==> Stored(maxTokens, start, i) == start
  {
    ResumeStores(maxTokens, start, i);
    if !NeverResumed(maxTokens, start, i) {
      LaterIsAnother(start, Stored(maxTokens, start, i));
    }
  }

  /** Once a resume is committed the batch it made, or denied, is never waited for again, whatever the run goes through and
      whatever other runs write. */
  lemma NeverWaitsAgain(maxTokens: int, start: Db, i: Input, inputs: seq<Input>)
    requires PausedOk(start) && !NeverResumed(maxTokens, start, i)
    requires Stored(maxTokens, start, i).run.status == Paused
    ensures !WaitsAsBefore(start, History(maxTokens, Stored(maxTokens, start, i), inputs))
  {
    var after := Stored(maxTokens, start, i);
    ResumeStores(maxTokens, start, i);
    HistoryEndsWell(maxTokens, after, inputs);
    LaterIsAnother(start, History(maxTokens, after, inputs));
  }

  // ----- a call made twice -----------------------------------------------------------------

  /** What an execution did until it ended or was cut. */
  function Happened(maxTokens: int, start: Db, i: Input): seq<Action> {
    var log := Execute(i.world, maxTokens, start, i.text).view.log;
    if CutShort(maxTokens, start, i) then log[..i.cut.value.effects] else log
  }

  /** The first thing done after the announcement is this call. */
  predicate Opens(log: seq<Action>, call: ToolCall) {
    |log| >= 2 && log[1] == Invoke(call)
  }

  lemma OpensStill(u: View, v: View, call: ToolCall)
    requires Adds(u, v, Nothing) && Opens(u.log, call)
    ensures Opens(v.log, call)
  {
    assert v.log[1] == v.log[..|u.log|][1];
  }

  lemma BatchOpens(w: World, s: State, batch: nat, calls: seq<ToolCall>)
    requires calls != [] && !Flag(w, s.checks) && |s.view.log| == 1
    ensures Opens(RunBatch(w, s, batch, calls, 0, true).state.view.log, calls[0])
  {
    var payload := Result(w, batch, calls, 0, true);
    var s1 := Called(Read(s), calls[0], payload, true);
    BatchIs(w, s, batch, calls, 0, true);
    assert Opens(s1.view.log, calls[0]);
    if !Full(s1) {
      AddsDo(s1.view, s1.view, AddMessage(ToolSpeaker, payload.content, [], Some(calls[0].id)), Nothing);
      BatchAdds(s1.view, w, WithResult(s1, calls[0], payload), batch, calls, 1, true, Nothing);
      OpensStill(s1.view, RunBatch(w, s, batch, calls, 0, true).state.view, calls[0]);
    }
  }

  lemma LoopAdds(w: World, maxTokens: int, start: Db, text: string)
    requires start.run.status == Paused
    ensures Adds(SavedBatch(w, start, text).state.view, Execute(w, maxTokens, start, text).view, Nothing)
  {
    var b := SavedBatch(w, start, text);
    if !b.Overflowed? {
      ResumedAdds(b.state.view, b.state, Nothing);
      IterateAdds(w, maxTokens, ResumedAt(b.state));
      AddsTrans(b.state.view, ResumedAt(b.state).view, Iterate(w, maxTokens, ResumedAt(b.state)).view, Nothing);
    }
  }

  lemma FirstCallMade(w: World, maxTokens: int, start: Db, text: string)
    requires PausedOk(start) && Approves(text) && !Flag(w, 0)
    ensures Opens(Execute(w, maxTokens, start, text).view.log, SavedBy(start).calls[0])
  {
    ApprovalSpelled(text);
    BatchOpens(w, Restored(start), 0, SavedBy(start).calls);
    LoopAdds(w, maxTokens, start, text);
    OpensStill(SavedBatch(w, start, text).state.view, Execute(w, maxTokens, start, text).view, SavedBy(start).calls[0]);
  }

  /** So an approved call can be made twice: cut a resume after its first call and before its commit, or let the results
      not fit, and the next approval makes that call again. */
  lemma MadeTwice(maxTokens: int, start: Db, i: Input, again: Input)
    requires PausedOk(start) && Approves(i.text) && Approves(again.text)
    requires !Flag(i.world, 0) && !Flag(again.world, 0)
    requires NeverResumed(maxTokens, start, i) && (CutShort(maxTokens, start, i) ==> i.cut.value.effects >= 2)
    ensures Opens(Happened(maxTokens, start, i), SavedBy(start).calls[0])
    ensures var next := Meanwhile(Stored(maxTokens, start, i), again.others);
            Opens(Execute(again.world, maxTokens, next, again.text).view.log, SavedBy(start).calls[0])
  {
    WaitsAgainIff(maxTokens, start, i);
    FirstCallMade(i.world, maxTokens, start, i.text);
    MeanwhileReady(start, again.others);
    FirstCallMade(again.world, maxTokens, Meanwhile(start, again.others), again.text);
  }
}
