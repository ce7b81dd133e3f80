/** What is stored when an execution is cut: a disconnect or an exception at any await leaves the effects before it,
    and the database keeps those that were committed. */
module Cuts {
  import opened Sequences
  import opened Trace
  import opened Protocol
  import opened Invariants

  /** The later data only adds to the end of the earlier: no row and no message is changed or lost. */
  predicate GrowsTo(db: Db, later: Db) {
    db.rows <= later.rows && db.messages <= later.messages
  }

  lemma GrowsTrans(a: Db, b: Db, c: Db)
    requires GrowsTo(a, b) && GrowsTo(b, c)
    ensures GrowsTo(a, c)
  {
    assert a.rows == b.rows[..|a.rows|] == c.rows[..|b.rows|][..|a.rows|] == c.rows[..|a.rows|];
    assert a.messages == b.messages[..|a.messages|] == c.messages[..|b.messages|][..|a.messages|] == c.messages[..|a.messages|];
  }

  lemma NumberedOnceMore(db: Db, a: Action)
    requires Numbered(Apply(db, a).rows)
    ensures Numbered(db.rows)
  {
    var after := Apply(db, a).rows;
    forall i | 0 <= i < |db.rows| ensures db.rows[i].seqNo == i + 1 {
      assert after[i].seqNo == i + 1;
    }
  }

  lemma NumberedInit(start: Db, log: seq<Action>)
    requires log != [] && Numbered(Replay(start, log).db.rows)
    ensures Numbered(Replay(start, log[..|log| - 1]).db.rows)
  {
    NumberedOnceMore(Replay(start, log[..|log| - 1]).db, log[|log| - 1]);
  }

  /** An effect that is no UPDATE only adds. */
  lemma Adding(start: Db, log: seq<Action>)
    requires log != [] && !log[|log| - 1].PatchRow?
    ensures GrowsTo(Replay(start, log[..|log| - 1]).db, Replay(start, log).db)
  {
  }

  lemma TwoMore(v: View, row: StepRow, a: Action)
    requires Numbered(Do(v, AddRow(row)).db.rows) && a.PatchRow? && a.seqNo == row.seqNo
    ensures GrowsTo(v.db, Do(Do(v, AddRow(row)), a).db)
  {
    assert Do(v, AddRow(row)).db.rows[|v.db.rows|] == row;
    NumberedOnceMore(v.db, AddRow(row));
    PatchHitsOnlyTheNewRow(v, row, a.patch);
  }

  /** An insert and its UPDATE together only add, and commit nothing in between. */
  lemma AddingTwo(start: Db, log: seq<Action>)
    requires log != [] && log[|log| - 1].PatchRow? && PatchesFollow(log) && Numbered(Replay(start, log).db.rows)
    ensures |log| >= 2 && GrowsTo(Replay(start, log[..|log| - 2]).db, Replay(start, log).db)
    ensures Replay(start, log[..|log| - 1]).committed == Replay(start, log[..|log| - 2]).committed
  {
    var init := log[..|log| - 1];
    assert init[..|init| - 1] == log[..|log| - 2];
    NumberedInit(start, log);
    TwoMore(Replay(start, log[..|log| - 2]), init[|init| - 1].row, log[|log| - 1]);
  }

  lemma CommitsAll(start: Db, log: seq<Action>)
    requires log != []
    ensures Replay(start, log).committed ==
            if Commits(log[|log| - 1]) then Replay(start, log).db else Replay(start, log[..|log| - 1]).committed
  {
  }

  /** Cut after `n` effects, an execution leaves stored data that everything later only adds to: the rows written so
      far, with what was recorded in them, and the messages so far. */
  lemma {:induction false} StoredAtACut(start: Db, log: seq<Action>, n: nat)
    requires n <= |log| && PatchesFollow(log) && Numbered(Replay(start, log).db.rows)
    ensures GrowsTo(Replay(start, log[..n]).committed, Replay(start, log).db)
    decreases |log|
  {
    if log == [] {
      assert log[..n] == log;
      return;
    }
    var init, last := log[..|log| - 1], log[|log| - 1];
    NumberedInit(start, log);
    if n == |log| {
      assert log[..n] == log;
      CommitsAll(start, log);
      if Commits(last) {
        return;
      }
    }
    var m := if n == |log| then n - 1 else n;
    assert init[..m] == log[..m];
    if last.PatchRow? {
      AddingTwo(start, log);
      var k := if m == |init| then m - 1 else m;
      assert init[..|init| - 1] == log[..|log| - 2];
      assert log[..|log| - 2][..k] == log[..k];
      NumberedInit(start, init);
      StoredAtACut(start, log[..|log| - 2], k);
      GrowsTrans(Replay(start, log[..k]).committed, Replay(start, log[..|log| - 2]).db, Replay(start, log).db);
    } else {
      StoredAtACut(start, init, m);
      Adding(start, log);
      GrowsTrans(Replay(start, log[..m]).committed, Replay(start, init).db, Replay(start, log).db);
    }
  }

  lemma {:induction false} PrefixFollows(start: Db, log: seq<Action>, n: nat)
    requires PatchesFollow(log) && Numbered(Replay(start, log).db.rows) && n <= |log|
    ensures PatchesFollow(log[..n]) && Numbered(Replay(start, log[..n]).db.rows)
    decreases |log|
  {
    if n < |log| {
      assert log[..|log| - 1][..n] == log[..n];
      NumberedInit(start, log);
      PrefixFollows(start, log[..|log| - 1], n);
    } else {
      assert log[..n] == log;
    }
  }

  lemma GenuinePrefix(start: Db, v: View, n: nat)
    requires Genuine(start, v) && Numbered(v.db.rows) && n <= |v.log|
    ensures PatchesFollow(v.log[..n]) && Numbered(Replay(start, v.log[..n]).db.rows)
  {
    PrefixFollows(start, v.log, n);
  }

  /** Cut later, an execution leaves no less stored. */
  lemma {:induction false} LaterStoresMore(start: Db, log: seq<Action>, m: nat, n: nat)
    requires m <= n <= |log| && PatchesFollow(log) && Numbered(Replay(start, log).db.rows)
    ensures GrowsTo(Replay(start, log[..m]).committed, Replay(start, log[..n]).committed)
    decreases |log|
  {
    if n < |log| {
      assert log[..|log| - 1][..m] == log[..m] && log[..|log| - 1][..n] == log[..n];
      NumberedInit(start, log);
      LaterStoresMore(start, log[..|log| - 1], m, n);
    } else if m < n {
      assert log[..n] == log;
      CommitsAll(start, log);
      if Commits(log[n - 1]) {
        StoredAtACut(start, log, m);
      } else {
        assert log[..n - 1][..m] == log[..m] && log[..n - 1][..n - 1] == log[..n - 1];
        NumberedInit(start, log);
        LaterStoresMore(start, log[..n - 1], m, n - 1);
      }
    }
  }

  /** An execution that took an exit, cut anywhere and followed by its `finally` block: what is stored is numbered 1..n
      and only lacks what came later. */
  lemma LeftAtACut(start: Db, e: Exit, n: nat, flagSet: bool, why: Interruption, tally: Tally, loops: nat)
    requires ExitOk(start, e) && Numbered(e.view.db.rows) && n <= |e.view.log|
    ensures var db := AfterFinally(Replay(start, e.view.log[..n]), flagSet, why, tally, loops).0;
            GrowsTo(db, e.view.db) && Numbered(db.rows)
  {
    StoredAtACut(start, e.view.log, n);
    var rows := Replay(start, e.view.log[..n]).committed.rows;
    assert forall i :: 0 <= i < |rows| ==> rows[i] == e.view.db.rows[i];
  }

  // ----- totals at a cut -------------------------------------------------------------------

  /** No row counts negative. */
  predicate HonestRows(rows: seq<StepRow>) {
    forall i :: 0 <= i < |rows| ==> NonNegative(UsageOf(rows[i]))
  }

  lemma {:induction false} SumNonNegative(rows: seq<StepRow>)
    requires HonestRows(rows)
    ensures NonNegative(SumUsage(rows))
  {
    if rows != [] {
      var init := rows[..|rows| - 1];
      assert forall i :: 0 <= i < |init| ==> init[i] == rows[i];
      SumNonNegative(init);
    }
  }

  lemma SumGrows(rows: seq<StepRow>, later: seq<StepRow>)
    requires rows <= later && HonestRows(later)
    ensures AtLeast(SumUsage(later), SumUsage(rows))
  {
    var rest := later[|rows|..];
    assert later == rows + rest;
    assert forall i :: 0 <= i < |rest| ==> rest[i] == later[|rows| + i];
    SumNonNegative(rest);
    SumConcat(rows, rest);
  }

  /** The `finally` block stores the totals in hand. If they cover the rows written so far, they cover the rows that
      were committed. */
  lemma OrphanCovers(start: Db, log: seq<Action>, flagSet: bool, why: Interruption, tally: Tally, loops: nat)
    requires PatchesFollow(log) && Numbered(Replay(start, log).db.rows) && Settles(log) == 0
    requires HonestRows(Replay(start, log).db.rows)
    requires AtLeast(tally.usage, SumUsage(Replay(start, log).db.rows))
    ensures var db := AfterFinally(Replay(start, log), flagSet, why, tally, loops).0;
            db.run.tally == tally && AtLeast(db.run.tally.usage, SumUsage(db.rows))
  {
    assert log[..|log|] == log;
    StoredAtACut(start, log, |log|);
    ReplayLog(start, log);
    SumGrows(Replay(start, log).committed.rows, Replay(start, log).db.rows);
  }

  /** An execution left by an exception of its own stores the totals it had in hand. */
  lemma RaisedCovers(start: Db, e: Exit, flagSet: bool, why: Interruption)
    requires ExitOk(start, e) && e.Raised? && Numbered(e.view.db.rows)
    ensures var db := AfterFinally(e.view, flagSet, why, e.tally, e.loops).0;
            && db.run.tally == e.tally
            && (HonestRows(e.view.db.rows) && AtLeast(e.tally.usage, SumUsage(e.view.db.rows)) ==>
                  AtLeast(db.run.tally.usage, SumUsage(db.rows)))
  {
    NotSettled(e.view.log);
    if HonestRows(e.view.db.rows) && AtLeast(e.tally.usage, SumUsage(e.view.db.rows)) {
      OrphanCovers(start, e.view.log, flagSet, why, e.tally, e.loops);
    }
  }

  // ----- what a provider call finds committed ----------------------------------------------

  predicate Writes(a: Action) {
    a.AddRow? || a.PatchRow? || a.AddMessage? || a.SetPlan? || a.Resume?
  }

  /** Something was written since the last commit. */
  predicate Dirty(log: seq<Action>) {
    log != [] && !Commits(log[|log| - 1]) && (Writes(log[|log| - 1]) || Dirty(log[..|log| - 1]))
  }

  /** The provider is asked only when everything written is committed. */
  predicate CleanAsks(log: seq<Action>) {
    log == [] || (CleanAsks(log[..|log| - 1]) && (log[|log| - 1].Ask? ==> !Dirty(log[..|log| - 1])))
  }

  lemma CleanDo(v: View, a: Action)
    requires CleanAsks(v.log) && (a.Ask? ==> !Dirty(v.log))
    ensures CleanAsks(Do(v, a).log)
    ensures Dirty(Do(v, a).log) <==> !Commits(a) && (Writes(a) || Dirty(v.log))
  {
    Snoc(v.log, a);
  }

  lemma {:induction false} CleanIsCommitted(start: Db, log: seq<Action>)
    requires !Dirty(log)
    ensures Replay(start, log).committed == Replay(start, log).db
  {
    if log != [] && !Commits(log[|log| - 1]) {
      CleanIsCommitted(start, log[..|log| - 1]);
    }
  }

  lemma {:induction false} CleanAtAsk(log: seq<Action>, k: nat)
    requires CleanAsks(log) && k < |log| && log[k].Ask?
    ensures !Dirty(log[..k])
    decreases |log|
  {
    if k < |log| - 1 {
      assert log[..|log| - 1][..k] == log[..k];
      CleanAtAsk(log[..|log| - 1], k);
    }
  }

  /** Cut while it waits for the provider, an execution leaves everything it has written stored. */
  lemma WaitingLosesNothing(start: Db, log: seq<Action>, k: nat, flagSet: bool, why: Interruption, tally: Tally, loops: nat)
    requires CleanAsks(log) && k < |log| && log[k].Ask?
    ensures var db := AfterFinally(Replay(start, log[..k + 1]), flagSet, why, tally, loops).0;
            db.rows == Replay(start, log[..k + 1]).db.rows && db.messages == Replay(start, log[..k + 1]).db.messages
  {
    CleanAtAsk(log, k);
    CleanIsCommitted(start, log[..k]);
    assert log[..k + 1][..k] == log[..k];
  }
}
