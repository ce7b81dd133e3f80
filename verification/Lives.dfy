/** What the three executors do to a run's row, as steps of the life of that run. */
module Lives {
  import opened Basics
  import opened Sequences
  import opened Trace
  import opened Protocol
  import opened Invariants
  import opened Runs
  import PE = PlanExecuteTheorems
  import PlanExecuteSpec
  import StepRunner
  import React = ReactTheorems
  import ReactSpec
  import Simple = SimpleTheorems
  import Facts = SimpleFacts
  import Spec = SimpleSpec
  import Gate = SimpleGate
  import Histories = SimpleHistory

  // ----- steps of a life -------------------------------------------------------------------

  /** Possible steps lead from this life to a row that nobody owns any more. */
  ghost predicate Continues(l: Life, run: RunRow) {
    exists steps: seq<LifeStep> :: PossibleFrom(l, steps) && LivedFrom(l, steps) == Life(run, Nobody, LivedFrom(l, steps).closings)
  }

  lemma OneStep(l: Life, s: LifeStep)
    requires Enabled(l, s)
    ensures PossibleFrom(l, [s]) && LivedFrom(l, [s]) == Taken(l, s)
  {
    Snoc([], s);
    assert [] + [s] == [s];
  }

  lemma StepThen(l: Life, s: LifeStep, run: RunRow)
    requires Enabled(l, s) && Continues(Taken(l, s), run)
    ensures Continues(l, run)
  {
    OneStep(l, s);
    var steps :| PossibleFrom(Taken(l, s), steps)
                 && LivedFrom(Taken(l, s), steps) == Life(run, Nobody, LivedFrom(Taken(l, s), steps).closings);
    LivedOn(l, [s], steps);
  }

  lemma LastStep(l: Life, s: LifeStep)
    requires Enabled(l, s) && Taken(l, s).owner.Nobody?
    ensures Continues(l, Taken(l, s).run)
  {
    OneStep(l, s);
  }

  lemma ContinuesOn(l: Life, steps: seq<LifeStep>, run: RunRow)
    requires PossibleFrom(l, steps) && Continues(LivedFrom(l, steps), run)
    ensures Continues(l, run)
  {
    var m := LivedFrom(l, steps);
    var more :| PossibleFrom(m, more) && LivedFrom(m, more) == Life(run, Nobody, LivedFrom(m, more).closings);
    LivedOn(l, steps, more);
  }

  // ----- the row while an executor works ---------------------------------------------------

  /** The row of a run that is under way. */
  predicate UnderWay(run: RunRow) {
    run.status == Running && run.reason == None && run.pending == None && !run.closed
  }

  /** The row an owner at work has made of `run`: at most a plan was put on it. */
  predicate WorkedOn(run: RunRow, r: RunRow) {
    r == run.(plan := r.plan) && (r.plan == run.plan || r.plan.Some?)
  }

  lemma WorkThen(l: Life, r: RunRow, s: LifeStep)
    requires l.owner.Executing? && WorkedOn(l.run, r)
    requires Enabled(l.(run := r), s) && Taken(l.(run := r), s).owner.Nobody?
    ensures Continues(l, Taken(l.(run := r), s).run)
  {
    LastStep(l.(run := r), s);
    if r.plan != l.run.plan {
      StepThen(l, Plans(r.plan.value), Taken(l.(run := r), s).run);
    }
  }

  /** Before it settles, an execution leaves the row as it is, or resumed, but for a plan. */
  lemma {:induction false} QuietRow(start: Db, log: seq<Action>)
    requires AllQuiet(log)
    ensures var v := Replay(start, log);
            && (WorkedOn(start.run, v.db.run) || WorkedOn(ResumedRow(start.run), v.db.run))
            && (WorkedOn(start.run, v.committed.run) || WorkedOn(ResumedRow(start.run), v.committed.run))
  {
    if log != [] {
      assert Quiet(log[|log| - 1]);
      QuietRow(start, log[..|log| - 1]);
    }
  }

  lemma {:induction false} RunningStays(start: Db, log: seq<Action>, m: nat)
    requires AllQuiet(log) && m <= |log|
    requires Replay(start, log[..m]).db.run.status == Running && Replay(start, log[..m]).committed.run.status == Running
    ensures Replay(start, log).db.run.status == Running && Replay(start, log).committed.run.status == Running
    decreases |log|
  {
    if m == |log| {
      assert log[..m] == log;
    } else {
      assert Quiet(log[|log| - 1]);
      assert log[..|log| - 1][..m] == log[..m];
      RunningStays(start, log[..|log| - 1], m);
    }
  }

  /** The row with which an execution is in its `try`. */
  predicate AtWork(start: Db, log: seq<Action>, run: RunRow) {
    WorkedOn(run, Replay(start, log).db.run) && WorkedOn(run, Replay(start, log).committed.run)
  }

  lemma FreshAtWork(start: Db, log: seq<Action>)
    requires AllQuiet(log) && UnderWay(start.run)
    ensures AtWork(start, log, start.run)
  {
    QuietRow(start, log);
  }

  lemma ResumedAtWork(start: Db, log: seq<Action>, m: nat)
    requires AllQuiet(log) && m <= |log| && start.run.status == Paused
    requires Replay(start, log[..m]).db.run.status == Running && Replay(start, log[..m]).committed.run.status == Running
    ensures AtWork(start, log, ResumedRow(start.run))
  {
    QuietRow(start, log);
    RunningStays(start, log, m);
  }

  // ----- cutting an execution in its `try` -------------------------------------------------

  lemma PrefixQuiet(log: seq<Action>, k: nat, n: nat)
    requires SettlesAt(log, k) && n <= k
    ensures AllQuiet(log[..n])
  {
  }

  lemma SettledRow(start: Db, log: seq<Action>, k: nat)
    requires SettlesAt(log, k) && k < |log|
    ensures var before := Replay(start, log[..k]).db.run;
            Replay(start, log[..k + 1]).committed.run ==
              if log[k].Finalize? then Finalized(before, log[k].closing) else PausedRow(before, log[k].pending)
  {
    assert log[..k + 1][..k] == log[..k];
  }

  /** The owner ends its run with the settling write of the log, or leaves that to the `finally` block. */
  lemma CutContinues(start: Db, l: Life, log: seq<Action>, k: nat, n: nat, flagSet: bool, why: Interruption, tally: Tally,
                     loops: nat)
    requires l.owner.Executing? && SettlesAt(log, k) && n <= |log| && !start.run.closed && !Terminal(start.run.status)
    requires AtWork(start, log[..if n <= k then n else k], l.run)
    ensures Continues(l, AfterFinally(Replay(start, log[..n]), flagSet, why, tally, loops).0.run)
  {
    SettlesCount(log, k, n);
    ReplayLog(start, log[..n]);
    if n <= k {
      var c := OrphanClosing(flagSet, why, tally, loops);
      WorkThen(l, Replay(start, log[..n]).committed.run, Ends(c));
    } else {
      SettledRowStays(start, log, k, n);
      SettledRow(start, log, k);
      WorkThen(l, Replay(start, log[..k]).db.run, if log[k].Finalize? then Ends(log[k].closing) else Pauses(log[k].pending));
    }
  }

  // ----- ReAct and Plan & Execute ----------------------------------------------------------

  lemma ExitContinues(start: Db, e: Exit, n: nat, flagSet: bool, why: Interruption, tally: Tally, loops: nat)
    requires ExitOk(start, e) && start.run == FRESH_RUN && n <= |e.view.log|
    ensures Continues(BORN, AfterFinally(Replay(start, e.view.log[..n]), flagSet, why, tally, loops).0.run)
  {
    var k: nat :| SettlesAt(e.view.log, k) && (k < |e.view.log| ==> e.view.log[k].Finalize?);
    var m := if n <= k then n else k;
    PrefixQuiet(e.view.log, k, m);
    FreshAtWork(start, e.view.log[..m]);
    CutContinues(start, BORN, e.view.log, k, n, flagSet, why, tally, loops);
  }

  /** Every run of Plan & Execute, cut anywhere, is a possible life of its row. */
  lemma PlanExecuteLives(start: Db, w: StepRunner.World, cfg: PlanExecuteSpec.Config, n: nat, flagSet: bool,
                         why: Interruption, tally: Tally, loops: nat)
    requires PE.FreshStart(start) && cfg.maxSteps >= 1 && n <= |PlanExecuteSpec.RunResult(w, cfg, start).view.log|
    ensures var log := PlanExecuteSpec.RunResult(w, cfg, start).view.log[..n];
            Continues(BORN, AfterFinally(Replay(start, log), flagSet, why, tally, loops).0.run)
  {
    PE.StreamAgreesWithDatabase(start, w, cfg);
    ExitContinues(start, PlanExecuteSpec.RunResult(w, cfg, start), n, flagSet, why, tally, loops);
  }

  /** Every run of ReAct, cut anywhere, is a possible life of its row. */
  lemma ReactLives(start: Db, w: ReactSpec.World, cfg: ReactSpec.Config, n: nat, flagSet: bool, why: Interruption,
                   tally: Tally, loops: nat)
    requires React.FreshStart(start) && cfg.maxLoops >= 1 && cfg.maxTokens >= 1
    requires n <= |ReactSpec.RunResult(w, cfg, start, true).0.view.log|
    ensures var log := ReactSpec.RunResult(w, cfg, start, true).0.view.log[..n];
            Continues(BORN, AfterFinally(Replay(start, log), flagSet, why, tally, loops).0.run)
  {
    React.RunExits(start, w, cfg, true);
    ExitContinues(start, ReactSpec.RunResult(w, cfg, start, true).0, n, flagSet, why, tally, loops);
  }

  // ----- Simple ----------------------------------------------------------------------------

  lemma SomewhereSettles(start: Db, w: Spec.World, o: Spec.Outcome) returns (k: nat)
    requires Facts.OutcomeOk(start, w, o) && !o.Thrown?
    ensures SettlesAt(o.view.log, k)
  {
    if o.Settled? {
      k :| k < |o.view.log| && SettlesAt(o.view.log, k);
    } else {
      k := |o.view.log|;
    }
  }

  /** At the `try` the row is running. */
  lemma RunningAtTheTry(w: Spec.World, start: Db, text: string)
    requires Simple.FreshStart(start) || Facts.PausedOk(start)
    requires Gate.AtTheTry(w, start, text).Some?
    ensures var first := Gate.AtTheTry(w, start, text).value;
            Replay(start, first.log) == first && first.db.run.status == Running && first.committed.run.status == Running
  {
    Gate.TryGenuine(w, start, text);
    Gate.TryRow(w, start, text);
  }

  lemma AtWorkInTheTry(w: Spec.World, maxTokens: int, start: Db, text: string, m: nat)
    requires Simple.FreshStart(start) || Facts.PausedOk(start)
    requires Gate.AtTheTry(w, start, text).Some?
    requires |Gate.AtTheTry(w, start, text).value.log| <= m <= |Spec.Execute(w, maxTokens, start, text).view.log|
    requires AllQuiet(Spec.Execute(w, maxTokens, start, text).view.log[..m])
    ensures AtWork(start, Spec.Execute(w, maxTokens, start, text).view.log[..m], Gate.RowAtTheTry(start.run))
  {
    var log := Spec.Execute(w, maxTokens, start, text).view.log[..m];
    var first := Gate.AtTheTry(w, start, text).value.log;
    if start.run.status == Paused {
      RunningAtTheTry(w, start, text);
      Gate.ExecuteContinues(w, maxTokens, start, text, |first|);
      assert log[..|first|] == first[..|first|] == first;
      ResumedAtWork(start, log, |first|);
    } else {
      FreshAtWork(start, log);
    }
  }

  lemma QuietSoFar(first: seq<Action>, log: seq<Action>)
    requires AllQuiet(first) && |first| <= |log| && log[..|first|] == first[..|first|]
    ensures forall i :: 0 <= i < |first| ==> Quiet(log[i])
  {
    assert forall i :: 0 <= i < |first| ==> log[i] == log[..|first|][i] == first[i];
  }

  lemma SettlesInTheTry(w: Spec.World, maxTokens: int, start: Db, text: string, k: nat)
    requires Simple.FreshStart(start) || Facts.PausedOk(start)
    requires Gate.AtTheTry(w, start, text).Some? && SettlesAt(Spec.Execute(w, maxTokens, start, text).view.log, k)
    ensures |Gate.AtTheTry(w, start, text).value.log| <= k
  {
    var log := Spec.Execute(w, maxTokens, start, text).view.log;
    var first := Gate.AtTheTry(w, start, text).value.log;
    Gate.ExecuteContinues(w, maxTokens, start, text, |first|);
    Gate.QuietBeforeTheTry(w, start, text);
    QuietSoFar(first, log);
  }

  lemma WorkingContinues(l: Life, w: Spec.World, maxTokens: int, start: Db, text: string, k: nat, n: nat, flagSet: bool,
                         why: Interruption, tally: Tally, loops: nat)
    requires Simple.FreshStart(start) || Facts.PausedOk(start)
    requires Gate.AtTheTry(w, start, text).Some? && l.run == Gate.RowAtTheTry(start.run) && l.owner.Executing?
    requires |Gate.AtTheTry(w, start, text).value.log| <= n <= |Spec.Execute(w, maxTokens, start, text).view.log|
    requires SettlesAt(Spec.Execute(w, maxTokens, start, text).view.log, k)
    ensures var log := Spec.Execute(w, maxTokens, start, text).view.log[..n];
            Continues(l, AfterFinally(Replay(start, log), flagSet, why, tally, loops).0.run)
  {
    var log := Spec.Execute(w, maxTokens, start, text).view.log;
    var m := if n <= k then n else k;
    SettlesInTheTry(w, maxTokens, start, text, k);
    PrefixQuiet(log, k, m);
    AtWorkInTheTry(w, maxTokens, start, text, m);
    CutContinues(start, l, log, k, n, flagSet, why, tally, loops);
  }

  lemma ExecutionSettles(w: Spec.World, maxTokens: int, start: Db, text: string) returns (k: nat)
    requires Simple.FreshStart(start) || Facts.PausedOk(start)
    requires Gate.AtTheTry(w, start, text).Some?
    ensures SettlesAt(Spec.Execute(w, maxTokens, start, text).view.log, k)
  {
    Simple.ExecutionEndsWell(start, w, maxTokens, text);
    Histories.ThrownBeforeTheTry(w, maxTokens, start, text);
    k := SomewhereSettles(start, w, Spec.Execute(w, maxTokens, start, text));
  }

  lemma InsideContinues(l: Life, w: Spec.World, maxTokens: int, start: Db, text: string, n: nat, flagSet: bool,
                        why: Interruption, tally: Tally, loops: nat)
    requires Simple.FreshStart(start) || Facts.PausedOk(start)
    requires Gate.AtTheTry(w, start, text).Some? && l.run == Gate.RowAtTheTry(start.run) && l.owner.Executing?
    requires |Gate.AtTheTry(w, start, text).value.log| <= n <= |Spec.Execute(w, maxTokens, start, text).view.log|
    ensures var log := Spec.Execute(w, maxTokens, start, text).view.log[..n];
            Continues(l, AfterFinally(Replay(start, log), flagSet, why, tally, loops).0.run)
  {
    var k := ExecutionSettles(w, maxTokens, start, text);
    WorkingContinues(l, w, maxTokens, start, text, k, n, flagSet, why, tally, loops);
  }

  /** An execution that is not cut ends as one cut after all it did. */
  lemma WholeIsCut(w: Spec.World, maxTokens: int, start: Db, text: string, flagSet: bool, why: Interruption)
    requires Simple.FreshStart(start) || Facts.PausedOk(start)
    requires !Spec.Execute(w, maxTokens, start, text).Thrown?
    ensures var o := Spec.Execute(w, maxTokens, start, text);
            var v := Replay(start, o.view.log[..|o.view.log|]);
            Simple.StoredAfter(o, flagSet, why) ==
              if o.Settled? then v.committed else AfterFinally(v, o.cancelled || flagSet, why, o.tally, o.loops).0
  {
    var o := Spec.Execute(w, maxTokens, start, text);
    Simple.ExecutionEndsWell(start, w, maxTokens, text);
    Simple.OutcomePaired(start, w, o);
    assert o.view.log[..|o.view.log|] == o.view.log;
  }

  lemma SettledAlready(start: Db, w: Spec.World, v: View, flagSet: bool, why: Interruption, tally: Tally, loops: nat)
    requires Facts.SettledOk(start, w, v)
    ensures AfterFinally(v, flagSet, why, tally, loops).0 == v.committed
  {
    var k: nat :| k < |v.log| && SettlesAt(v.log, k);
    SettlesCount(v.log, k, |v.log|);
    assert v.log[..|v.log|] == v.log;
  }

  /** An execution that reaches its `try` and is not cut. */
  lemma WholeContinues(l: Life, w: Spec.World, maxTokens: int, start: Db, text: string, flagSet: bool, why: Interruption)
    requires Simple.FreshStart(start) || Facts.PausedOk(start)
    requires Gate.AtTheTry(w, start, text).Some? && l.run == Gate.RowAtTheTry(start.run) && l.owner.Executing?
    ensures Continues(l, Simple.StoredAfter(Spec.Execute(w, maxTokens, start, text), flagSet, why).run)
  {
    var o := Spec.Execute(w, maxTokens, start, text);
    Histories.ThrownBeforeTheTry(w, maxTokens, start, text);
    WholeIsCut(w, maxTokens, start, text, flagSet, why);
    Gate.ExecuteContinues(w, maxTokens, start, text, |Gate.AtTheTry(w, start, text).value.log|);
    Simple.ExecutionEndsWell(start, w, maxTokens, text);
    assert o.view.log[..|o.view.log|] == o.view.log;
    Simple.OutcomePaired(start, w, o);
    if o.Settled? {
      SettledAlready(start, w, o.view, flagSet, why, ZERO_TALLY, 0);
      InsideContinues(l, w, maxTokens, start, text, |o.view.log|, flagSet, why, ZERO_TALLY, 0);
    } else {
      InsideContinues(l, w, maxTokens, start, text, |o.view.log|, o.cancelled || flagSet, why, o.tally, o.loops);
    }
  }

  /** In the `try`, cut or not. */
  lemma TryContinues(l: Life, maxTokens: int, start: Db, i: Histories.Input)
    requires Simple.FreshStart(start) || Facts.PausedOk(start)
    requires Gate.AtTheTry(i.world, start, i.text).Some? && l.run == Gate.RowAtTheTry(start.run) && l.owner.Executing?
    requires Histories.CutShort(maxTokens, start, i) ==> Histories.InTheTry(i.world, start, i.text, i.cut.value)
    ensures Continues(l, Histories.Stored(maxTokens, start, i).run)
  {
    if Histories.CutShort(maxTokens, start, i) {
      var c := i.cut.value;
      InsideContinues(l, i.world, maxTokens, start, i.text, c.effects, i.flagSet, i.why, c.tally, c.loops);
    } else {
      WholeContinues(l, i.world, maxTokens, start, i.text, i.flagSet, i.why);
    }
  }

  /** An execution that never reaches its `try`, or is cut before it. */
  predicate Short(maxTokens: int, start: Db, i: Histories.Input) {
    || Gate.AtTheTry(i.world, start, i.text).None?
    || (Histories.CutShort(maxTokens, start, i) && !Histories.InTheTry(i.world, start, i.text, i.cut.value))
  }

  /** What such an execution leaves of the row: as it was, resumed, or closed because the conversation is full. */
  lemma ShortRow(maxTokens: int, start: Db, i: Histories.Input)
    requires Simple.FreshStart(start) || Facts.PausedOk(start)
    requires Short(maxTokens, start, i)
    ensures var run := Histories.Stored(maxTokens, start, i).run;
            || run == start.run
            || (start.run.status == Paused && run == ResumedRow(start.run))
            || (start.run.status != Paused && run == Finalized(start.run, ContextFullClosing()))
  {
    var w, text := i.world, i.text;
    var log := Spec.Execute(w, maxTokens, start, text).view.log;
    if Histories.CutShort(maxTokens, start, i) {
      ShortCutRow(w, maxTokens, start, text, i.cut.value.effects);
    } else {
      Simple.ExecutionEndsWell(start, w, maxTokens, text);
      Simple.OutcomePaired(start, w, Spec.Execute(w, maxTokens, start, text));
      Gate.CutWithoutTheTry(w, maxTokens, start, text, |log|);
      assert log[..|log|] == log;
    }
  }

  lemma ShortCutRow(w: Spec.World, maxTokens: int, start: Db, text: string, n: nat)
    requires Simple.FreshStart(start) || Facts.PausedOk(start)
    requires n <= |Spec.Execute(w, maxTokens, start, text).view.log|
    requires Gate.AtTheTry(w, start, text).Some? ==> n <= |Gate.AtTheTry(w, start, text).value.log|
    ensures var run := Replay(start, Spec.Execute(w, maxTokens, start, text).view.log[..n]).committed.run;
            || run == start.run
            || (start.run.status == Paused && run == ResumedRow(start.run))
            || (start.run.status != Paused && run == Finalized(start.run, ContextFullClosing()))
  {
    if Gate.AtTheTry(w, start, text).None? {
      Gate.CutWithoutTheTry(w, maxTokens, start, text, n);
    } else if n == |Gate.AtTheTry(w, start, text).value.log| {
      Gate.CutAtTheTry(w, maxTokens, start, text, n);
    } else {
      Gate.CutBeforeTheTry(w, maxTokens, start, text, n);
    }
  }

  /** The owner at the moment an execution begins: the request that created the run, or nobody while it is paused. */
  predicate Begins(l: Life, start: Db) {
    l.run == start.run && l.owner == if start.run.status == Paused then Nobody else Owner.Executing
  }

  lemma FreshLives(l: Life, maxTokens: int, start: Db, i: Histories.Input)
    requires Simple.FreshStart(start) && Begins(l, start)
    ensures Continues(l, Histories.Stored(maxTokens, start, i).run)
  {
    if Short(maxTokens, start, i) {
      ShortRow(maxTokens, start, i);
      LastStep(l, if Histories.Stored(maxTokens, start, i).run == start.run then Lost else Ends(ContextFullClosing()));
    } else {
      TryContinues(l, maxTokens, start, i);
    }
  }

  lemma ClaimedThen(l: Life, s: LifeStep, run: RunRow)
    requires l.owner.Nobody? && l.run.status == Paused && Enabled(Taken(l, Claimed), s)
    requires Continues(Taken(Taken(l, Claimed), s), run)
    ensures Continues(l, run)
  {
    StepThen(Taken(l, Claimed), s, run);
    StepThen(l, Claimed, run);
  }

  lemma PausedLives(l: Life, maxTokens: int, start: Db, i: Histories.Input)
    requires Facts.PausedOk(start) && Begins(l, start)
    ensures Continues(l, Histories.Stored(maxTokens, start, i).run)
  {
    var run := Histories.Stored(maxTokens, start, i).run;
    var resumed := Taken(Taken(l, Claimed), Resumes);
    if !Short(maxTokens, start, i) {
      TryContinues(resumed, maxTokens, start, i);
      ClaimedThen(l, Resumes, run);
    } else {
      ShortRow(maxTokens, start, i);
      if run == start.run {
        LastStep(Taken(l, Claimed), Lost);
        StepThen(l, Claimed, run);
      } else {
        LastStep(resumed, Lost);
        ClaimedThen(l, Resumes, run);
      }
    }
  }

  /** Every execution of Simple mode, cut anywhere or not at all, continues the life of its run by possible steps. */
  lemma ExecutionLives(l: Life, maxTokens: int, start: Db, i: Histories.Input)
    requires Simple.FreshStart(start) || Facts.PausedOk(start)
    requires Begins(l, start)
    ensures Continues(l, Histories.Stored(maxTokens, start, i).run)
  {
    if start.run.status == Paused {
      PausedLives(l, maxTokens, start, i);
    } else {
      FreshLives(l, maxTokens, start, i);
    }
  }

  /** So is every chain of executions. */
  lemma {:induction false} HistoryLives(l: Life, maxTokens: int, db: Db, inputs: seq<Histories.Input>)
    requires Facts.PausedOk(db) || (Simple.FreshStart(db) && inputs != [])
    requires Begins(l, db)
    ensures Continues(l, Histories.History(maxTokens, db, inputs).run)
    decreases |inputs|
  {
    if inputs == [] {
      Unchanged(l);
      return;
    }
    var start := Histories.Meanwhile(db, inputs[0].others);
    var after := Histories.After(maxTokens, db, inputs[0]);
    Histories.MeanwhileReady(db, inputs[0].others);
    ExecutionLives(l, maxTokens, start, inputs[0]);
    if after.run.status == Paused {
      Histories.AfterStands(maxTokens, db, inputs[0]);
      var steps: seq<LifeStep> :| PossibleFrom(l, steps)
                                  && LivedFrom(l, steps) == Life(after.run, Nobody, LivedFrom(l, steps).closings);
      HistoryLives(LivedFrom(l, steps), maxTokens, after, inputs[1..]);
      ContinuesOn(l, steps, Histories.History(maxTokens, after, inputs[1..]).run);
    }
  }

  lemma Unchanged(l: Life)
    requires l.owner.Nobody?
    ensures Continues(l, l.run)
  {
    var steps: seq<LifeStep> := [];
    assert PossibleFrom(l, steps) && LivedFrom(l, steps) == l;
  }

  // ----- what a stored row may be ----------------------------------------------------------

  /** The row of a run after any chain of executions is one that a possible life leaves. */
  lemma HistoryRowOk(maxTokens: int, db: Db, inputs: seq<Histories.Input>)
    requires Simple.FreshStart(db) && inputs != []
    ensures exists steps :: Possible(steps) && Lived(steps).run == Histories.History(maxTokens, db, inputs).run
                            && LifeOk(Lived(steps))
  {
    HistoryLives(BORN, maxTokens, db, inputs);
    var run := Histories.History(maxTokens, db, inputs).run;
    var steps: seq<LifeStep> :| PossibleFrom(BORN, steps)
                                && LivedFrom(BORN, steps) == Life(run, Nobody, LivedFrom(BORN, steps).closings);
    EveryLifeIsOk(steps);
    assert Possible(steps) && Lived(steps).run == run;
  }
}
