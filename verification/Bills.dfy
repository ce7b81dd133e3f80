/** What a log says was spent: each provider call of the log has a bill, the usage of its reply, and a row that counts
    tokens counts those of the last reply, once. So at every cut the bills received cover the rows written. */
module Bills {
  import opened Basics
  import opened Sequences
  import opened Trace
  import opened Protocol
  import opened Invariants
  import opened Cuts

  /** The usage of the first `n` replies. */
  function Spent(bill: nat -> Usage, n: nat): Usage {
    if n == 0 then NO_USAGE else Plus(Spent(bill, n - 1), bill(n - 1))
  }

  ghost predicate HonestBills(bill: nat -> Usage) {
    forall k: nat :: NonNegative(bill(k))
  }

  predicate Counts(a: Action) {
    a.AddRow? && a.row.usage.Some?
  }

  /** The last reply has no row yet. */
  predicate Outstanding(log: seq<Action>) {
    log != [] && (log[|log| - 1].Ask? || (Outstanding(log[..|log| - 1]) && !Counts(log[|log| - 1])))
  }

  /** This effect may come next: the provider is asked with everything committed; a row that counts tokens counts those of
      the last reply, which had no row. */
  predicate MayCome(bill: nat -> Usage, log: seq<Action>, a: Action) {
    && (a.Ask? ==> !Dirty(log))
    && (Counts(a) ==> Outstanding(log) && Asks(log) > 0 && a.row.usage.value == bill(Asks(log) - 1))
  }

  predicate Accounted(bill: nat -> Usage, log: seq<Action>) {
    log == [] || (Accounted(bill, log[..|log| - 1]) && MayCome(bill, log[..|log| - 1], log[|log| - 1]))
  }

  lemma BilledSnoc(bill: nat -> Usage, log: seq<Action>, a: Action)
    requires Accounted(bill, log) && MayCome(bill, log, a)
    ensures Accounted(bill, log + [a])
    ensures Outstanding(log + [a]) <==> a.Ask? || (Outstanding(log) && !Counts(a))
  {
    Snoc(log, a);
  }

  /** An effect that counts no tokens. */
  lemma BilledDo(bill: nat -> Usage, v: View, a: Action)
    requires Accounted(bill, v.log) && !Counts(a) && (a.Ask? ==> !Dirty(v.log))
    ensures Accounted(bill, Do(v, a).log)
    ensures a.Ask? || Outstanding(v.log) ==> Outstanding(Do(v, a).log)
    ensures Asks(Do(v, a).log) == Asks(v.log) + if a.Ask? then 1 else 0
  {
    BilledSnoc(bill, v.log, a);
    AsksSnoc(v.log, a);
  }

  /** The row of the last reply. */
  lemma BilledRow(bill: nat -> Usage, v: View, row: StepRow)
    requires Accounted(bill, v.log) && Outstanding(v.log) && Asks(v.log) > 0 && row.usage == Some(bill(Asks(v.log) - 1))
    ensures Accounted(bill, Do(v, AddRow(row)).log) && Asks(Do(v, AddRow(row)).log) == Asks(v.log)
  {
    BilledSnoc(bill, v.log, AddRow(row));
    AsksSnoc(v.log, AddRow(row));
  }

  lemma BilledClose(bill: nat -> Usage, v: View, c: Closing)
    requires Accounted(bill, v.log)
    ensures Accounted(bill, CloseView(v, c).log)
  {
    var w := Do(v, Finalize(c));
    BilledDo(bill, v, Finalize(c));
    match c.status {
      case Completed =>
        var a := Emit(Artifact(if c.answer.Some? then c.answer.value else ""));
        BilledDo(bill, w, a);
        BilledDo(bill, Do(w, a), Emit(CompletedEvent));
      case Failed => BilledDo(bill, w, Emit(FailedEvent(if c.reason.Some? then c.reason.value else InternalError)));
      case _ => BilledDo(bill, w, Emit(CanceledEvent));
    }
  }

  lemma {:induction false} BilledPrefix(bill: nat -> Usage, log: seq<Action>, n: nat)
    requires Accounted(bill, log) && n <= |log|
    ensures Accounted(bill, log[..n])
    decreases |log|
  {
    if n < |log| {
      assert log[..|log| - 1][..n] == log[..n];
      BilledPrefix(bill, log[..|log| - 1], n);
    } else {
      assert log[..n] == log;
    }
  }

  /** Nothing asked, nothing counted. */
  predicate Quiescent(log: seq<Action>) {
    forall i :: 0 <= i < |log| ==> !log[i].Ask? && !Counts(log[i])
  }

  lemma {:induction false} QuiescentBilled(bill: nat -> Usage, log: seq<Action>)
    requires Quiescent(log)
    ensures Accounted(bill, log) && Asks(log) == 0
  {
    if log != [] {
      assert !log[|log| - 1].Ask? && !Counts(log[|log| - 1]);
      QuiescentBilled(bill, log[..|log| - 1]);
    }
  }

  /** A log that is accounted for asks the provider only with everything committed. */
  lemma {:induction false} AsksAreClean(bill: nat -> Usage, log: seq<Action>)
    requires Accounted(bill, log)
    ensures CleanAsks(log)
  {
    if log != [] {
      AsksAreClean(bill, log[..|log| - 1]);
    }
  }

  // ----- what the bills cover --------------------------------------------------------------

  lemma PatchedUsage(rows: seq<StepRow>, seqNo: nat, p: Patch)
    ensures |UpdateWhere(rows, seqNo, p)| == |rows|
    ensures forall i :: 0 <= i < |rows| ==> UsageOf(UpdateWhere(rows, seqNo, p)[i]) == UsageOf(rows[i])
  {
  }

  lemma {:induction false} SameSums(a: seq<StepRow>, b: seq<StepRow>)
    requires |a| == |b| && forall i :: 0 <= i < |a| ==> UsageOf(a[i]) == UsageOf(b[i])
    ensures SumUsage(a) == SumUsage(b)
  {
    if a != [] {
      SameSums(a[..|a| - 1], b[..|b| - 1]);
    }
  }

  lemma RowWithoutUsage(rows: seq<StepRow>, row: StepRow)
    requires row.usage == None
    ensures SumUsage(rows + [row]) == SumUsage(rows)
  {
    SumSnoc(rows, row);
    PlusNothing(SumUsage(rows));
  }

  lemma RowWithUsage(rows: seq<StepRow>, row: StepRow)
    requires row.usage.Some?
    ensures SumUsage(rows + [row]) == Plus(SumUsage(rows), row.usage.value)
  {
    SumSnoc(rows, row);
  }

  lemma PatchKeepsSum(rows: seq<StepRow>, seqNo: nat, p: Patch)
    ensures SumUsage(UpdateWhere(rows, seqNo, p)) == SumUsage(rows)
  {
    PatchedUsage(rows, seqNo, p);
    SameSums(UpdateWhere(rows, seqNo, p), rows);
  }

  /** An effect that counts no tokens leaves the sum over the rows. */
  lemma SumKept(db: Db, a: Action)
    requires !Counts(a)
    ensures SumUsage(Apply(db, a).rows) == SumUsage(db.rows)
  {
    if a.AddRow? {
      RowWithoutUsage(db.rows, a.row);
    } else if a.PatchRow? {
      PatchKeepsSum(db.rows, a.seqNo, a.patch);
    } else {
      assert Apply(db, a).rows == db.rows;
    }
  }

  /** The sum over the rows, together with the last reply while that has no row, is within the bills. */
  predicate Within(total: Usage, sum: Usage, open: Option<Usage>) {
    AtLeast(total, sum) && (open.Some? ==> AtLeast(total, Plus(sum, open.value)))
  }

  function Open(bill: nat -> Usage, log: seq<Action>): Option<Usage> {
    if Outstanding(log) && Asks(log) > 0 then Some(bill(Asks(log) - 1)) else None
  }

  predicate LogWithin(bill: nat -> Usage, start: Db, log: seq<Action>) {
    Within(Plus(SumUsage(start.rows), Spent(bill, Asks(log))), SumUsage(Replay(start, log).db.rows), Open(bill, log))
  }

  lemma WithinAsk(first: Usage, spent: Usage, sum: Usage, open: Option<Usage>, next: Usage)
    requires Within(Plus(first, spent), sum, open) && NonNegative(next)
    ensures Within(Plus(first, Plus(spent, next)), sum, Some(next))
  {
  }

  lemma WithinRow(total: Usage, sum: Usage, reply: Usage)
    requires Within(total, sum, Some(reply))
    ensures Within(total, Plus(sum, reply), None)
  {
  }

  lemma AskedWithin(bill: nat -> Usage, start: Db, log: seq<Action>)
    requires log != [] && log[|log| - 1].Ask? && HonestBills(bill) && LogWithin(bill, start, log[..|log| - 1])
    ensures LogWithin(bill, start, log)
  {
    var init := log[..|log| - 1];
    var n := Asks(init);
    assert Asks(log) == n + 1 && Open(bill, log) == Some(bill(n));
    assert Spent(bill, n + 1) == Plus(Spent(bill, n), bill(n));
    assert Replay(start, log).db.rows == Replay(start, init).db.rows;
    WithinAsk(SumUsage(start.rows), Spent(bill, n), SumUsage(Replay(start, init).db.rows), Open(bill, init), bill(n));
  }

  lemma CountedWithin(bill: nat -> Usage, start: Db, log: seq<Action>)
    requires log != [] && Counts(log[|log| - 1]) && Accounted(bill, log) && LogWithin(bill, start, log[..|log| - 1])
    ensures LogWithin(bill, start, log)
  {
    var init := log[..|log| - 1];
    var reply := bill(Asks(init) - 1);
    assert Asks(log) == Asks(init) && Open(bill, log) == None && Open(bill, init) == Some(reply);
    RowWithUsage(Replay(start, init).db.rows, log[|log| - 1].row);
    WithinRow(Plus(SumUsage(start.rows), Spent(bill, Asks(init))), SumUsage(Replay(start, init).db.rows), reply);
  }

  lemma OtherWithin(bill: nat -> Usage, start: Db, log: seq<Action>)
    requires log != [] && !log[|log| - 1].Ask? && !Counts(log[|log| - 1]) && LogWithin(bill, start, log[..|log| - 1])
    ensures LogWithin(bill, start, log)
  {
    var init := log[..|log| - 1];
    assert Asks(log) == Asks(init) && Open(bill, log) == Open(bill, init);
    SumKept(Replay(start, init).db, log[|log| - 1]);
  }

  lemma NothingYet(bill: nat -> Usage, start: Db)
    ensures LogWithin(bill, start, [])
  {
    PlusNothing(SumUsage(start.rows));
  }

  lemma {:induction false} BillsCover(bill: nat -> Usage, start: Db, log: seq<Action>)
    requires Accounted(bill, log) && HonestBills(bill)
    ensures LogWithin(bill, start, log)
  {
    if log == [] {
      NothingYet(bill, start);
    } else {
      BillsCover(bill, start, log[..|log| - 1]);
      if log[|log| - 1].Ask? {
        AskedWithin(bill, start, log);
      } else if Counts(log[|log| - 1]) {
        CountedWithin(bill, start, log);
      } else {
        OtherWithin(bill, start, log);
      }
    }
  }

  /** The replies that have surely come by the end of a log: all but one that is still awaited. */
  function Received(log: seq<Action>): nat {
    if log != [] && log[|log| - 1].Ask? then Asks(log[..|log| - 1]) else Asks(log)
  }

  /** At every cut: what was there before and the replies received cover the rows written. */
  lemma ReceivedCovers(bill: nat -> Usage, start: Db, log: seq<Action>)
    requires Accounted(bill, log) && HonestBills(bill)
    ensures AtLeast(Plus(SumUsage(start.rows), Spent(bill, Received(log))), SumUsage(Replay(start, log).db.rows))
  {
    if log != [] && log[|log| - 1].Ask? {
      BillsCover(bill, start, log[..|log| - 1]);
    } else {
      BillsCover(bill, start, log);
    }
  }

  /** Rows that were honest stay so when every bill is. */
  lemma {:induction false} BilledHonest(bill: nat -> Usage, start: Db, log: seq<Action>)
    requires Accounted(bill, log) && HonestBills(bill) && HonestRows(start.rows)
    ensures HonestRows(Replay(start, log).db.rows)
  {
    if log != [] {
      var init, last := log[..|log| - 1], log[|log| - 1];
      BilledHonest(bill, start, init);
      if last.PatchRow? {
        PatchedUsage(Replay(start, init).db.rows, last.seqNo, last.patch);
      }
    }
  }

  /** Cut anywhere: if the totals in hand count every reply received, the orphan write stores totals that cover the rows
      committed. */
  lemma CutCovered(bill: nat -> Usage, start: Db, log: seq<Action>, n: nat, flagSet: bool, why: Interruption, tally: Tally,
                   loops: nat)
    requires Accounted(bill, log) && HonestBills(bill) && HonestRows(start.rows)
    requires n <= |log| && PatchesFollow(log[..n]) && Numbered(Replay(start, log[..n]).db.rows) && Settles(log[..n]) == 0
    requires AtLeast(tally.usage, Plus(SumUsage(start.rows), Spent(bill, Received(log[..n]))))
    ensures var db := AfterFinally(Replay(start, log[..n]), flagSet, why, tally, loops).0;
            db.run.tally == tally && AtLeast(db.run.tally.usage, SumUsage(db.rows))
  {
    BilledPrefix(bill, log, n);
    BilledHonest(bill, start, log[..n]);
    ReceivedCovers(bill, start, log[..n]);
    OrphanCovers(start, log[..n], flagSet, why, tally, loops);
  }
}
