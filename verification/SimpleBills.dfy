/** The totals of a Simple execution at any moment: what the run had spent before, and every reply since. */
module SimpleBills {
  import opened Basics
  import opened Sequences
  import opened Trace
  import opened Protocol
  import opened Invariants
  import opened Cuts
  import opened Bills
  import opened Tools
  import opened SimpleSpec
  import opened SimpleFacts
  import opened SimpleTheorems
  import opened SimpleGate
  import Counting = SimpleCounts

  function ReplyUsage(w: World, k: nat): Usage {
    if w.chat(k).Reply? then w.chat(k).reply.usage else NO_USAGE
  }

  /** The bill of each provider call: its reply's usage. */
  function Bill(w: World): nat -> Usage {
    (k: nat) => ReplyUsage(w, k)
  }

  /** The first so many replies, on top of what was spent before. */
  function Owed(w: World, before: Usage, n: nat): Usage {
    Plus(before, Spent(Bill(w), n))
  }

  // ----- one iteration ---------------------------------------------------------------------

  /** At the head of an iteration: everything committed, one call per iteration, every reply charged and its row written. */
  predicate Head(w: World, before: Usage, s: State) {
    && Accounted(Bill(w), s.view.log) && !Dirty(s.view.log) && Asks(s.view.log) == s.iteration
    && s.tally.usage == Owed(w, before, s.iteration)
  }

  /** In the middle of an iteration: the reply is charged. */
  predicate Paid(w: World, before: Usage, s: State) {
    && Accounted(Bill(w), s.view.log) && Asks(s.view.log) == s.iteration + 1
    && s.tally.usage == Owed(w, before, s.iteration + 1)
  }

  /** And its row is still to be written. */
  predicate Due(w: World, before: Usage, s: State) {
    Paid(w, before, s) && Outstanding(s.view.log)
  }

  predicate TurnBilled(w: World, before: Usage, t: Turn) {
    match t
    case Again(s) => Head(w, before, s)
    case Over(o) => Accounted(Bill(w), o.view.log)
  }

  lemma OneMore(w: World, before: Usage, n: nat)
    ensures Owed(w, before, n + 1) == Plus(Owed(w, before, n), ReplyUsage(w, n))
  {
    assert Spent(Bill(w), n + 1) == Plus(Spent(Bill(w), n), Bill(w)(n));
  }

  lemma PaidDo(w: World, before: Usage, s: State, a: Action)
    requires Paid(w, before, s) && !Counts(a) && !a.Ask?
    ensures Paid(w, before, s.(view := Do(s.view, a)))
    ensures Outstanding(s.view.log) ==> Outstanding(Do(s.view, a).log)
  {
    BilledDo(Bill(w), s.view, a);
  }

  lemma DueRow(w: World, before: Usage, s: State, row: StepRow)
    requires Due(w, before, s) && row.usage == Some(ReplyUsage(w, s.iteration))
    ensures Paid(w, before, WithRow(s, row))
  {
    BilledRow(Bill(w), s.view, row);
  }

  lemma CallPaid(w: World, before: Usage, s: State, call: ToolCall, payload: ToolPayload, approved: bool)
    requires Paid(w, before, s)
    ensures Paid(w, before, Called(s, call, payload, approved))
  {
    var s1 := if approved then Invoked(s, call) else s;
    if approved {
      PaidDo(w, before, s, Invoke(call));
    }
    PaidDo(w, before, s1, AddRow(ToolResultRow(s.runSeq + 1, call, payload)));
  }

  lemma {:induction false} BatchPaid(w: World, before: Usage, s: State, batch: nat, calls: seq<ToolCall>, i: nat, approved: bool)
    requires Paid(w, before, s)
    ensures Paid(w, before, RunBatch(w, s, batch, calls, i, approved).state)
    decreases |calls| - i
  {
    if i < |calls| {
      BatchIs(w, s, batch, calls, i, approved);
      var payload := Result(w, batch, calls, i, approved);
      var s1 := Called(Read(s), calls[i], payload, approved);
      CallPaid(w, before, Read(s), calls[i], payload, approved);
      if !Flag(w, s.checks) && !Full(s1) {
        PaidDo(w, before, s1, AddMessage(ToolSpeaker, payload.content, [], Some(calls[i].id)));
        BatchPaid(w, before, WithResult(s1, calls[i], payload), batch, calls, i + 1, approved);
      }
    }
  }

  lemma FailedBilled(w: World, s: State, reason: Reason)
    requires Accounted(Bill(w), s.view.log)
    ensures Accounted(Bill(w), FailedAt(s, reason).view.log)
  {
    BilledClose(Bill(w), s.view, Closing(Failed, Some(reason), None, s.tally, s.loops));
  }

  lemma CompletedBilled(w: World, s: State, answer: string)
    requires Accounted(Bill(w), s.view.log)
    ensures Accounted(Bill(w), CompletedAt(s, answer).view.log)
  {
    var a := AddMessage(AssistantSpeaker, answer, [], None);
    BilledDo(Bill(w), s.view, a);
    BilledClose(Bill(w), Do(s.view, a), Closing(Completed, None, Some(answer), s.tally, s.loops + 1));
  }

  lemma FinalBilled(w: World, before: Usage, s: State, r: ChatReply)
    requires Due(w, before, s) && r.usage == ReplyUsage(w, s.iteration)
    ensures Accounted(Bill(w), FinalReply(s, r).view.log)
  {
    if !Blank(r.reasoning) {
      PaidDo(w, before, s, Emit(Working(Reasoning(Strip(r.reasoning)))));
    }
    ConcludedBilled(w, before, Reasoned(s, r), r);
  }

  lemma ConcludedBilled(w: World, before: Usage, s: State, r: ChatReply)
    requires Due(w, before, s) && r.usage == ReplyUsage(w, s.iteration)
    ensures Accounted(Bill(w), Concluded(s, r).view.log)
  {
    ConcludedIs(s, r);
    if EmptyReason(r).Some? {
      FailedBilled(w, s, EmptyReason(r).value);
    } else {
      var row := TextRow(s.runSeq + 1, Assistant, r.content, r.usage);
      DueRow(w, before, s, row);
      CompletedBilled(w, WithRow(s, row), r.content);
    }
  }

  lemma CommittedHead(w: World, before: Usage, s: State)
    requires Paid(w, before, s)
    ensures Head(w, before, Committed(s))
  {
    PaidDo(w, before, s, Commit);
  }

  lemma AfterBatchBilled(w: World, before: Usage, maxTokens: int, b: Batch)
    requires Paid(w, before, b.state)
    ensures TurnBilled(w, before, AfterBatch(maxTokens, b))
  {
    CommittedHead(w, before, b.state);
    FailedBilled(w, Committed(b.state), MaxTokens);
  }

  lemma PausedBilled(w: World, s: State, calls: seq<ToolCall>, call: ToolCall)
    requires Accounted(Bill(w), s.view.log)
    ensures Accounted(Bill(w), PausedAt(s, calls, call).view.log)
  {
    BilledDo(Bill(w), s.view, Pause(SnapshotOf(s, calls)));
    BilledDo(Bill(w), Do(s.view, Pause(SnapshotOf(s, calls))), Emit(InputRequiredEvent(call)));
  }

  lemma ActOnBilled(w: World, before: Usage, maxTokens: int, s: State, calls: seq<ToolCall>)
    requires Paid(w, before, s)
    ensures TurnBilled(w, before, ActOn(w, maxTokens, s, calls))
  {
    ActOnIs(w, maxTokens, s, calls);
    match FirstDestructive(w, calls) {
      case Some(call) => PausedBilled(w, s, calls, call);
      case None =>
        BatchPaid(w, before, s, s.iteration + 1, calls, 0, true);
        AfterBatchBilled(w, before, maxTokens, WholeBatch(w, s, calls));
    }
  }

  lemma AskedPaid(w: World, before: Usage, s: State, r: ChatReply)
    requires Due(w, before, s) && r.usage == ReplyUsage(w, s.iteration)
    ensures var s1 := WithRow(s, CallsRow(s.runSeq + 1, r)); Paid(w, before, s1) && Paid(w, before, Asked(s1, r))
  {
    var s1 := WithRow(s, CallsRow(s.runSeq + 1, r));
    DueRow(w, before, s, CallsRow(s.runSeq + 1, r));
    PaidDo(w, before, s1, AddMessage(AssistantSpeaker, r.content, r.toolCalls, None));
  }

  lemma DecideBilled(w: World, before: Usage, maxTokens: int, s: State, r: ChatReply)
    requires Due(w, before, s) && r.usage == ReplyUsage(w, s.iteration)
    ensures TurnBilled(w, before, Decide(w, maxTokens, s, r))
  {
    DecideIs(w, maxTokens, s, r);
    if r.toolCalls == [] {
      FinalBilled(w, before, s, r);
    } else {
      AskedPaid(w, before, s, r);
      ActOnBilled(w, before, maxTokens, Asked(WithRow(s, CallsRow(s.runSeq + 1, r)), r), r.toolCalls);
    }
  }

  lemma ChargedDue(w: World, before: Usage, s: State, r: ChatReply)
    requires Head(w, before, s) && w.chat(s.iteration) == Reply(r)
    ensures Due(w, before, Charged(Read(Chatted(Read(s))), r))
  {
    BilledDo(Bill(w), s.view, Ask);
    OneMore(w, before, s.iteration);
  }

  lemma ChattedBilled(w: World, before: Usage, s: State)
    requires Head(w, before, s)
    ensures Accounted(Bill(w), Chatted(s).view.log)
  {
    BilledDo(Bill(w), s.view, Ask);
  }

  lemma TurnBills(w: World, before: Usage, maxTokens: int, s: State)
    requires Head(w, before, s)
    ensures TurnBilled(w, before, TurnOf(w, maxTokens, s))
  {
    if !Flag(w, s.checks) {
      if s.iteration >= MAX_ITERATIONS {
        FailedBilled(w, Read(s), GuardrailExceeded);
      } else {
        ChattedBilled(w, before, Read(s));
        match w.chat(s.iteration) {
          case ProviderError => FailedBilled(w, Chatted(Read(s)), LlmProviderError);
          case Reply(r) =>
            ChargedDue(w, before, s, r);
            DecideBilled(w, before, maxTokens, Charged(Read(Chatted(Read(s))), r), r);
        }
      }
    }
  }

  lemma {:induction false} IterateBills(w: World, before: Usage, maxTokens: int, s: State)
    requires Head(w, before, s)
    ensures Accounted(Bill(w), Iterate(w, maxTokens, s).view.log)
    decreases if s.iteration < MAX_ITERATIONS then MAX_ITERATIONS - s.iteration else 0
  {
    TurnBills(w, before, maxTokens, s);
    AgainAdvances(w, maxTokens, s);
    var t := TurnOf(w, maxTokens, s);
    if t.Again? {
      IterateBills(w, before, maxTokens, t.state);
    }
  }

  // ----- executions ------------------------------------------------------------------------

  lemma {:induction false} BatchQuiescent(w: World, s: State, batch: nat, calls: seq<ToolCall>, i: nat, approved: bool)
    requires Quiescent(s.view.log)
    ensures Quiescent(RunBatch(w, s, batch, calls, i, approved).state.view.log)
    ensures RunBatch(w, s, batch, calls, i, approved).state.tally == s.tally
    ensures RunBatch(w, s, batch, calls, i, approved).state.iteration == s.iteration
    decreases |calls| - i
  {
    if i < |calls| {
      BatchIs(w, s, batch, calls, i, approved);
      var payload := Result(w, batch, calls, i, approved);
      var s1 := Called(Read(s), calls[i], payload, approved);
      CalledIs(Read(s), calls[i], payload, approved);
      if !Flag(w, s.checks) && !Full(s1) {
        BatchQuiescent(w, WithResult(s1, calls[i], payload), batch, calls, i + 1, approved);
      }
    }
  }

  /** What the run had spent when the execution began. */
  function SpentBefore(start: Db): Usage {
    if start.run.status == Paused then SavedBy(start).usage else NO_USAGE
  }

  lemma QuiescentHead(w: World, before: Usage, s: State)
    requires Quiescent(s.view.log) && !Dirty(s.view.log) && s.iteration == 0 && s.tally.usage == before
    ensures Head(w, before, s)
  {
    QuiescentBilled(Bill(w), s.view.log);
    PlusNothing(before);
  }

  lemma OpeningQuiescent(start: Db, text: string)
    ensures Quiescent(OpeningView(start, text).log) && !Dirty(OpeningView(start, text).log)
  {
  }

  lemma ResumedQuiescent(s: State)
    requires Quiescent(s.view.log)
    ensures Quiescent(ResumedAt(s).view.log) && !Dirty(ResumedAt(s).view.log)
  {
  }

  lemma RestoredQuiescent(start: Db)
    ensures Quiescent(Restored(start).view.log)
  {
  }

  lemma ResumesAtAHead(w: World, start: Db, text: string)
    requires start.run.status == Paused
    ensures Head(w, SpentBefore(start), ResumedAt(SavedBatch(w, start, text).state))
  {
    var s := SavedBatch(w, start, text).state;
    RestoredQuiescent(start);
    BatchQuiescent(w, Restored(start), 0, SavedBy(start).calls, 0, IsApproval(text));
    ResumedQuiescent(s);
    QuiescentHead(w, SpentBefore(start), ResumedAt(s));
  }

  lemma BeginsAtAHead(w: World, start: Db, text: string)
    requires start.run.status != Paused
    ensures Head(w, SpentBefore(start), FirstState(OpeningView(start, text)))
  {
    OpeningQuiescent(start, text);
    QuiescentHead(w, SpentBefore(start), FirstState(OpeningView(start, text)));
  }

  lemma ResumeBilled(w: World, maxTokens: int, start: Db, text: string)
    requires start.run.status == Paused
    ensures Accounted(Bill(w), ResumeRun(w, maxTokens, start, text).view.log)
  {
    if SavedBatch(w, start, text).Overflowed? {
      RestoredQuiescent(start);
      BatchQuiescent(w, Restored(start), 0, SavedBy(start).calls, 0, IsApproval(text));
      QuiescentBilled(Bill(w), SavedBatch(w, start, text).state.view.log);
    } else {
      ResumesAtAHead(w, start, text);
      IterateBills(w, SpentBefore(start), maxTokens, ResumedAt(SavedBatch(w, start, text).state));
    }
  }

  /** The head a first execution begins at, as any other. */
  lemma FirstHead(w: World, maxTokens: int, start: Db, text: string) returns (before: Usage, s: State)
    requires start.run.status != Paused && |start.messages| < HARD_CAP
    ensures Head(w, before, s) && FreshRun(w, maxTokens, start, text) == Iterate(w, maxTokens, s)
  {
    before, s := SpentBefore(start), FirstState(OpeningView(start, text));
    BeginsAtAHead(w, start, text);
  }

  lemma ContextFullBilled(w: World, start: Db)
    ensures Accounted(Bill(w), ContextFullView(View(start, start, [])).log)
  {
    QuiescentBilled(Bill(w), ContextFullView(View(start, start, [])).log);
  }

  lemma FreshBilled(w: World, maxTokens: int, start: Db, text: string)
    requires start.run.status != Paused
    ensures Accounted(Bill(w), FreshRun(w, maxTokens, start, text).view.log)
  {
    if |start.messages| >= HARD_CAP {
      ContextFullBilled(w, start);
    } else {
      var before, s := FirstHead(w, maxTokens, start, text);
      IterateBills(w, before, maxTokens, s);
    }
  }

  /** Every row of an execution that counts tokens counts those of the reply before it, and no reply is counted twice. */
  lemma ExecutionBilled(w: World, maxTokens: int, start: Db, text: string)
    ensures Accounted(Bill(w), Execute(w, maxTokens, start, text).view.log)
  {
    if start.run.status == Paused {
      ResumeBilled(w, maxTokens, start, text);
    } else {
      FreshBilled(w, maxTokens, start, text);
    }
  }

  /** An execution cut while it waits for the provider leaves everything it has written stored. */
  lemma WaitingIsSafe(w: World, maxTokens: int, start: Db, text: string, k: nat, flagSet: bool, why: Interruption, tally: Tally,
                      loops: nat)
    requires k < |Execute(w, maxTokens, start, text).view.log| && Execute(w, maxTokens, start, text).view.log[k].Ask?
    ensures var log := Execute(w, maxTokens, start, text).view.log[..k + 1];
            var db := AfterFinally(Replay(start, log), flagSet, why, tally, loops).0;
            db.rows == Replay(start, log).db.rows && db.messages == Replay(start, log).db.messages
  {
    var v := Execute(w, maxTokens, start, text).view;
    ExecutionBilled(w, maxTokens, start, text);
    AsksAreClean(Bill(w), v.log);
    WaitingLosesNothing(start, v.log, k, flagSet, why, tally, loops);
  }

  // ----- cuts ------------------------------------------------------------------------------

  lemma SpentIsSummed(start: Db)
    requires FreshStart(start) || PausedOk(start)
    ensures SpentBefore(start) == SumUsage(start.rows)
  {
    if start.run.status == Paused {
      PlusNothing(SumUsage(start.rows));
    }
  }

  lemma HonestReplies(w: World)
    requires HonestCounts(w)
    ensures HonestBills(Bill(w))
  {
    forall k: nat ensures NonNegative(Bill(w)(k)) {
      assert w.chat(k).Reply? ==> NonNegative(w.chat(k).reply.usage);
    }
  }

  lemma ExecutionNumbered(w: World, maxTokens: int, start: Db, text: string)
    requires FreshStart(start) || PausedOk(start)
    requires !Execute(w, maxTokens, start, text).Thrown?
    ensures var v := Execute(w, maxTokens, start, text).view; Genuine(start, v) && Numbered(v.db.rows)
  {
    ExecutionEndsWell(start, w, maxTokens, text);
  }

  /** Cut a Simple execution anywhere before it settled: if the totals in hand are what the run had spent and every reply
      received since, the orphan write stores totals that cover the rows committed, before and after the pauses. */
  lemma CutTotals(w: World, maxTokens: int, start: Db, text: string, n: nat, flagSet: bool, why: Interruption, tally: Tally,
                  loops: nat)
    requires FreshStart(start) || PausedOk(start)
    requires HonestCounts(w) && HonestRows(start.rows)
    requires !Execute(w, maxTokens, start, text).Thrown? && n <= |Execute(w, maxTokens, start, text).view.log|
    requires Settles(Execute(w, maxTokens, start, text).view.log[..n]) == 0
    requires AtLeast(tally.usage, Owed(w, SpentBefore(start), Received(Execute(w, maxTokens, start, text).view.log[..n])))
    ensures var db := AfterFinally(Replay(start, Execute(w, maxTokens, start, text).view.log[..n]), flagSet, why, tally, loops).0;
            db.run.tally == tally && AtLeast(db.run.tally.usage, SumUsage(db.rows))
  {
    var v := Execute(w, maxTokens, start, text).view;
    ExecutionBilled(w, maxTokens, start, text);
    ExecutionNumbered(w, maxTokens, start, text);
    GenuinePrefix(start, v, n);
    HonestReplies(w);
    SpentIsSummed(start);
    CutCovered(Bill(w), start, v.log, n, flagSet, why, tally, loops);
  }
}
