/** What a cancel does to a Simple execution, by where the flag first reads set: the `break` inside a batch leaves the
    loop over the calls only, so the half-answered batch is committed and the token budget is checked before the flag is
    read again. */
module SimpleCancel {
  import opened Basics
  import opened Sequences
  import opened Trace
  import opened Protocol
  import opened Invariants
  import opened Tools
  import opened Messages
  import opened SimpleSpec
  import opened SimpleFacts
  import Theorems = SimpleTheorems

  // ----- where the flag is read ------------------------------------------------------------

  /** The state in which an iteration acts on its reply. */
  function ChargedAt(w: World, s: State, r: ChatReply): State {
    Charged(Read(Chatted(Read(s))), r)
  }

  /** The reply an iteration acts on: the flag was not set at its head nor after the call. */
  function ReplyOf(w: World, s: State): Option<ChatReply> {
    if Flag(w, s.checks) || s.iteration >= MAX_ITERATIONS || w.chat(s.iteration).ProviderError? || Flag(w, s.checks + 1)
    then None else Some(w.chat(s.iteration).reply)
  }

  /** The state in which a reply's tool calls are on record and stored. */
  function CallsAsked(s: State, r: ChatReply): State {
    Asked(WithRow(s, CallsRow(s.runSeq + 1, r)), r)
  }

  /** The reply is answered without a batch: it ends the run, its message does not fit, or it waits for the user. */
  predicate NoBatch(w: World, s: State, r: ChatReply) {
    r.toolCalls == [] || Full(WithRow(s, CallsRow(s.runSeq + 1, r))) || FirstDestructive(w, r.toolCalls).Some?
  }

  function BatchFor(w: World, s: State, r: ChatReply): Batch {
    WholeBatch(w, CallsAsked(s, r), r.toolCalls)
  }

  /** The batch an iteration runs, if it comes to that. */
  function BatchOf(w: World, s: State): Option<Batch> {
    match ReplyOf(w, s)
    case None => None
    case Some(r) => if NoBatch(w, ChargedAt(w, s, r), r) then None else Some(BatchFor(w, ChargedAt(w, s, r), r))
  }

  /** A cancel breaks off the batch of this iteration. */
  predicate BreaksOff(w: World, s: State) {
    BatchOf(w, s).Some? && BatchOf(w, s).value.Stopped?
  }

  /** The flag reads set at the head of this iteration or after its call. */
  predicate SetOutside(w: World, s: State) {
    || Flag(w, s.checks)
    || (s.iteration < MAX_ITERATIONS && w.chat(s.iteration).Reply? && Flag(w, s.checks + 1))
  }

  // ----- one iteration ---------------------------------------------------------------------

  /** An outcome reached without a batch from state `s`: what was committed before stays, or the run is closed with
      the conversation of `s`, completed, or paused. */
  predicate WithoutBatch(s: State, o: Outcome) {
    match o
    case Unsettled(v, _, _, _) => v.committed == s.view.committed
    case Settled(v) =>
      v.committed.run.status.Completed? || v.committed.run.status.Paused? || v.committed.messages == s.view.db.messages
    case Thrown(_) => false
  }

  predicate IsCancelled(o: Outcome) {
    o.Unsettled? && o.cancelled
  }

  lemma FailedWithout(s: State, s': State, reason: Reason)
    requires s'.view.db.messages == s.view.db.messages
    ensures WithoutBatch(s, FailedAt(s', reason)) && !IsCancelled(FailedAt(s', reason))
  {
    CloseViewDb(s'.view, Closing(Failed, Some(reason), None, s'.tally, s'.loops));
  }

  lemma CompletedWithout(s: State, s': State, answer: string)
    requires s'.view.committed == s.view.committed
    ensures WithoutBatch(s, CompletedAt(s', answer)) && !IsCancelled(CompletedAt(s', answer))
  {
    CloseViewDb(Do(s'.view, AddMessage(AssistantSpeaker, answer, [], None)),
                Closing(Completed, None, Some(answer), s'.tally, s'.loops + 1));
  }

  lemma ReasonedKeeps(s: State, r: ChatReply)
    ensures Reasoned(s, r).view.db == s.view.db && Reasoned(s, r).view.committed == s.view.committed
  {
  }

  lemma FinalWithout(s: State, s': State, r: ChatReply)
    requires s'.view.db.messages == s.view.db.messages && s'.view.committed == s.view.committed
    ensures WithoutBatch(s, FinalReply(s', r)) && !IsCancelled(FinalReply(s', r))
  {
    var s1 := Reasoned(s', r);
    ReasonedKeeps(s', r);
    ConcludedIs(s1, r);
    if EmptyReason(r).Some? {
      FailedWithout(s, s1, EmptyReason(r).value);
    } else {
      CompletedWithout(s, WithRow(s1, TextRow(s1.runSeq + 1, Assistant, r.content, r.usage)), r.content);
    }
  }

  lemma PausedWithout(s: State, s': State, calls: seq<ToolCall>, call: ToolCall)
    ensures WithoutBatch(s, PausedAt(s', calls, call)) && !IsCancelled(PausedAt(s', calls, call))
  {
  }

  /** Deciding on a reply that leads to no batch. */
  lemma DecideWithout(w: World, maxTokens: int, s: State, s1: State, r: ChatReply)
    requires s1.view.db.messages == s.view.db.messages && s1.view.committed == s.view.committed
    requires NoBatch(w, s1, r)
    ensures var t := Decide(w, maxTokens, s1, r); t.Over? && WithoutBatch(s, t.outcome) && !IsCancelled(t.outcome)
  {
    DecideIs(w, maxTokens, s1, r);
    var s2 := WithRow(s1, CallsRow(s1.runSeq + 1, r));
    if r.toolCalls == [] {
      FinalWithout(s, s1, r);
    } else if !Full(s2) {
      ActOnIs(w, maxTokens, Asked(s2, r), r.toolCalls);
      PausedWithout(s, Asked(s2, r), r.toolCalls, FirstDestructive(w, r.toolCalls).value);
    }
  }

  /** An iteration without a batch ends the execution: cancelled exactly when the flag read set. */
  lemma TurnWithout(w: World, maxTokens: int, s: State)
    requires BatchOf(w, s).None?
    ensures var t := TurnOf(w, maxTokens, s);
            t.Over? && WithoutBatch(s, t.outcome) && (IsCancelled(t.outcome) <==> SetOutside(w, s))
  {
    if !Flag(w, s.checks) {
      if s.iteration >= MAX_ITERATIONS {
        FailedWithout(s, Read(s), GuardrailExceeded);
      } else if w.chat(s.iteration).ProviderError? {
        FailedWithout(s, Chatted(Read(s)), LlmProviderError);
      } else if !Flag(w, s.checks + 1) {
        var r := w.chat(s.iteration).reply;
        DecideWithout(w, maxTokens, s, ChargedAt(w, s, r), r);
      }
    }
  }

  lemma ReplyLeads(w: World, maxTokens: int, s: State)
    requires ReplyOf(w, s).Some?
    ensures var r := ReplyOf(w, s).value; TurnOf(w, maxTokens, s) == Decide(w, maxTokens, ChargedAt(w, s, r), r)
    ensures !SetOutside(w, s)
  {
  }

  lemma BatchDecided(w: World, maxTokens: int, s: State, r: ChatReply)
    requires !NoBatch(w, s, r)
    ensures Decide(w, maxTokens, s, r) == AfterBatch(maxTokens, BatchFor(w, s, r))
  {
    DecideIs(w, maxTokens, s, r);
    ActOnIs(w, maxTokens, CallsAsked(s, r), r.toolCalls);
  }

  /** An iteration with a batch goes on as the batch says. */
  lemma TurnWith(w: World, maxTokens: int, s: State)
    requires BatchOf(w, s).Some?
    ensures TurnOf(w, maxTokens, s) == AfterBatch(maxTokens, BatchOf(w, s).value)
    ensures !SetOutside(w, s)
  {
    var r := ReplyOf(w, s).value;
    ReplyLeads(w, maxTokens, s);
    BatchDecided(w, maxTokens, ChargedAt(w, s, r), r);
  }

  // ----- the loop --------------------------------------------------------------------------

  /** Some batch of the loop is broken off. */
  predicate Broken(w: World, maxTokens: int, s: State)
    decreases if s.iteration < MAX_ITERATIONS then MAX_ITERATIONS - s.iteration else 0
  {
    AgainAdvances(w, maxTokens, s);
    BreaksOff(w, s) || (TurnOf(w, maxTokens, s).Again? && Broken(w, maxTokens, TurnOf(w, maxTokens, s).state))
  }

  /** Some batch of the loop is broken off when the token budget is spent. */
  predicate BrokenOverBudget(w: World, maxTokens: int, s: State)
    decreases if s.iteration < MAX_ITERATIONS then MAX_ITERATIONS - s.iteration else 0
  {
    AgainAdvances(w, maxTokens, s);
    || (BreaksOff(w, s) && BatchOf(w, s).value.state.tally.usage.tokensOut >= maxTokens)
    || (TurnOf(w, maxTokens, s).Again? && BrokenOverBudget(w, maxTokens, TurnOf(w, maxTokens, s).state))
  }

  /** Some read of the flag in the loop finds it set. */
  predicate ReadsSet(w: World, maxTokens: int, s: State)
    decreases if s.iteration < MAX_ITERATIONS then MAX_ITERATIONS - s.iteration else 0
  {
    AgainAdvances(w, maxTokens, s);
    || SetOutside(w, s) || BreaksOff(w, s)
    || (TurnOf(w, maxTokens, s).Again? && ReadsSet(w, maxTokens, TurnOf(w, maxTokens, s).state))
  }

  /** With the flag set at its head the loop ends there. */
  lemma HeadCancels(w: World, maxTokens: int, s: State)
    requires Flag(w, s.checks)
    ensures Iterate(w, maxTokens, s) == CancelledAt(Read(s))
    ensures ReadsSet(w, maxTokens, s) && !BrokenOverBudget(w, maxTokens, s) && !Broken(w, maxTokens, s)
  {
  }

  /** The run is closed for its tokens. */
  predicate ClosedForTokens(o: Outcome) {
    o.Settled? && o.view.db.run.status == Failed && o.view.db.run.reason == Some(MaxTokens)
  }

  lemma TokensClose(s: State)
    ensures ClosedForTokens(FailedAt(s, MaxTokens))
  {
    CloseViewDb(s.view, Closing(Failed, Some(MaxTokens), None, s.tally, s.loops));
  }

  lemma StoppedFlag(w: World, s: State)
    requires BreaksOff(w, s)
    ensures Flag(w, BatchOf(w, s).value.state.checks)
  {
    var r := ReplyOf(w, s).value;
    WholeStopped(w, CallsAsked(ChargedAt(w, s, r), r), r.toolCalls);
  }

  /** What the loop comes to, by where the flag first reads set. */
  predicate CancelFits(o: Outcome, seen: bool, spent: bool) {
    (IsCancelled(o) <==> seen && !spent) && (spent ==> seen && ClosedForTokens(o))
  }

  lemma BrokenTurn(w: World, maxTokens: int, s: State)
    requires BreaksOff(w, s)
    ensures var s1 := Committed(BatchOf(w, s).value.state);
            && TurnOf(w, maxTokens, s) == BatchEnd(maxTokens, BatchOf(w, s).value.state)
            && Flag(w, s1.checks)
  {
    TurnWith(w, maxTokens, s);
    StoppedFlag(w, s);
  }

  lemma BrokenFits(w: World, maxTokens: int, s: State)
    requires BreaksOff(w, s)
    ensures CancelFits(Iterate(w, maxTokens, s), ReadsSet(w, maxTokens, s), BrokenOverBudget(w, maxTokens, s))
  {
    var s1 := Committed(BatchOf(w, s).value.state);
    BrokenTurn(w, maxTokens, s);
    TokensClose(s1);
    AgainAdvances(w, maxTokens, s);
    HeadCancels(w, maxTokens, s1);
  }

  lemma {:induction false} LoopCancelled(w: World, maxTokens: int, s: State)
    ensures CancelFits(Iterate(w, maxTokens, s), ReadsSet(w, maxTokens, s), BrokenOverBudget(w, maxTokens, s))
    decreases if s.iteration < MAX_ITERATIONS then MAX_ITERATIONS - s.iteration else 0
  {
    AgainAdvances(w, maxTokens, s);
    var t := TurnOf(w, maxTokens, s);
    if BreaksOff(w, s) {
      BrokenFits(w, maxTokens, s);
    } else if BatchOf(w, s).None? {
      TurnWithout(w, maxTokens, s);
    } else {
      TurnWith(w, maxTokens, s);
      if t.Again? {
        LoopCancelled(w, maxTokens, t.state);
      } else {
        TokensClose(Committed(BatchOf(w, s).value.state));
      }
    }
  }

  // ----- what is stored --------------------------------------------------------------------

  /** The head of an iteration that nothing has interrupted: no call waits, and everything is committed. */
  predicate AtHead(start: Db, w: World, s: State) {
    HeadOk(start, w, s) && Rest(start, s) == [] && s.view.committed == s.view.db
  }

  /** Every call the run has on record is answered in the committed conversation, unless it waits for the user or a batch
      was cut. */
  predicate CommittedFits(start: Db, o: Outcome, cut: bool) {
    Owes(start, o.view.committed.messages) == Some([]) <==> !cut && !(o.Settled? && o.view.committed.run.status == Paused)
  }

  lemma CallsAskedOpen(start: Db, w: World, s: State, r: ChatReply)
    requires Open(start, s, r.usage, []) && !NoBatch(w, s, r)
    ensures Open(start, CallsAsked(s, r), NO_USAGE, r.toolCalls) && CallsAsked(s, r).view.committed == s.view.committed
  {
    var s1 := WithRow(s, CallsRow(s.runSeq + 1, r));
    RowOpen(start, s, r.usage, [], CallsRow(s.runSeq + 1, r));
    MessageOpen(start, s1, NO_USAGE, [], r.toolCalls, AssistantSpeaker, r.content, r.toolCalls, None);
  }

  lemma WholeCommitsNothing(w: World, s: State, calls: seq<ToolCall>)
    ensures WholeBatch(w, s, calls).state.view.committed == s.view.committed
  {
    Theorems.BatchCommitsNothing(w, s, s.iteration + 1, calls, 0, true);
  }

  lemma ChargedAtOpen(start: Db, w: World, s: State, r: ChatReply)
    requires Open(start, s, NO_USAGE, [])
    ensures Open(start, ChargedAt(w, s, r), r.usage, []) && ChargedAt(w, s, r).view.committed == s.view.committed
  {
    CheckedOpen(start, s, NO_USAGE, []);
    StepOpen(start, Read(s), NO_USAGE, [], Ask);
    ChargedOpen(start, Chatted(Read(s)), r);
  }

  /** What the batch of an iteration leaves, with nothing of it committed yet. */
  lemma BatchOfLeft(start: Db, w: World, s: State)
    requires AtHead(start, w, s) && BatchOf(w, s).Some?
    ensures BatchLeft(start, BatchOf(w, s).value) && BatchOf(w, s).value.state.view.committed == s.view.committed
  {
    var r := ReplyOf(w, s).value;
    ChargedAtOpen(start, w, s, r);
    CallsAskedOpen(start, w, ChargedAt(w, s, r), r);
    WholeLeft(start, w, CallsAsked(ChargedAt(w, s, r), r), r.toolCalls);
    WholeCommitsNothing(w, CallsAsked(ChargedAt(w, s, r), r), r.toolCalls);
  }

  lemma HeadPaired(start: Db, w: World, s: State)
    requires AtHead(start, w, s)
    ensures Owes(start, s.view.db.messages) == Some([]) && Owes(start, s.view.committed.messages) == Some([])
  {
  }

  lemma WithoutFits(start: Db, w: World, s: State, o: Outcome)
    requires AtHead(start, w, s) && OutcomeOk(start, w, o) && WithoutBatch(s, o)
    ensures CommittedFits(start, o, false)
  {
    HeadPaired(start, w, s);
  }

  lemma FailedStores(s: State, reason: Reason)
    ensures var o := FailedAt(s, reason);
            o.view.committed.messages == s.view.db.messages && o.view.committed.run.status == Failed
  {
    CloseViewDb(s.view, Closing(Failed, Some(reason), None, s.tally, s.loops));
  }

  /** The token budget closes the run with the conversation of the batch. */
  lemma BatchEndFits(start: Db, maxTokens: int, b: Batch)
    requires BatchLeft(start, b) && !b.Overflowed? && AfterBatch(maxTokens, b).Over?
    ensures CommittedFits(start, AfterBatch(maxTokens, b).outcome, b.Stopped?)
  {
    FailedStores(Committed(b.state), MaxTokens);
  }

  /** A batch that ran to its end leads to a head like the one before it. */
  lemma RanHead(start: Db, w: World, maxTokens: int, b: Batch)
    requires BatchLeft(start, b) && b.Ran? && AfterBatch(maxTokens, b).Again?
    ensures AtHead(start, w, AfterBatch(maxTokens, b).state)
  {
    CommittedOpen(start, b.state, []);
  }

  lemma BrokenStores(start: Db, w: World, maxTokens: int, s: State)
    requires AtHead(start, w, s) && BreaksOff(w, s)
    ensures CommittedFits(start, Iterate(w, maxTokens, s), true)
  {
    var b := BatchOf(w, s).value;
    BatchOfLeft(start, w, s);
    BrokenTurn(w, maxTokens, s);
    AgainAdvances(w, maxTokens, s);
    if TurnOf(w, maxTokens, s).Over? {
      BatchEndFits(start, maxTokens, b);
    } else {
      HeadCancels(w, maxTokens, Committed(b.state));
    }
  }

  lemma {:induction false} LoopStores(start: Db, w: World, maxTokens: int, s: State)
    requires AtHead(start, w, s) && Startable(start.run)
    ensures CommittedFits(start, Iterate(w, maxTokens, s), Broken(w, maxTokens, s))
    decreases if s.iteration < MAX_ITERATIONS then MAX_ITERATIONS - s.iteration else 0
  {
    AgainAdvances(w, maxTokens, s);
    var t := TurnOf(w, maxTokens, s);
    if BreaksOff(w, s) {
      BrokenStores(start, w, maxTokens, s);
    } else if BatchOf(w, s).None? {
      TurnWithout(w, maxTokens, s);
      TurnKeeps(start, w, maxTokens, s);
      WithoutFits(start, w, s, t.outcome);
    } else {
      var b := BatchOf(w, s).value;
      BatchOfLeft(start, w, s);
      TurnWith(w, maxTokens, s);
      if b.Overflowed? {
        HeadPaired(start, w, s);
      } else if t.Over? {
        BatchEndFits(start, maxTokens, b);
      } else {
        RanHead(start, w, maxTokens, b);
        LoopStores(start, w, maxTokens, t.state);
      }
    }
  }

  // ----- whole executions ------------------------------------------------------------------

  lemma ExecuteIs(w: World, maxTokens: int, start: Db, text: string)
    ensures LoopStart(w, start, text).Some? ==>
              Execute(w, maxTokens, start, text) == Iterate(w, maxTokens, LoopStart(w, start, text).value)
    ensures LoopStart(w, start, text).None? ==> !Execute(w, maxTokens, start, text).Unsettled?
  {
  }

  /** Some read of the flag in the loop of an execution finds it set. */
  predicate SeesCancel(w: World, maxTokens: int, start: Db, text: string) {
    LoopStart(w, start, text).Some? && ReadsSet(w, maxTokens, LoopStart(w, start, text).value)
  }

  /** A cancel breaks off a batch of the loop with the token budget spent. */
  predicate CancelOverBudget(w: World, maxTokens: int, start: Db, text: string) {
    LoopStart(w, start, text).Some? && BrokenOverBudget(w, maxTokens, LoopStart(w, start, text).value)
  }

  /** A cancel breaks off a batch: the saved one of a resume, or one of the loop. */
  predicate CutInsideBatch(w: World, maxTokens: int, start: Db, text: string) {
    || (start.run.status == Paused && SavedBatch(w, start, text).Stopped?)
    || (LoopStart(w, start, text).Some? && Broken(w, maxTokens, LoopStart(w, start, text).value))
  }

  /** An execution ends cancelled exactly when its loop reads the flag set, unless the first such read is inside a batch
      with the token budget spent: then the run is closed as failed for its tokens. */
  lemma CancelledExactly(w: World, maxTokens: int, start: Db, text: string)
    ensures CancelFits(Execute(w, maxTokens, start, text), SeesCancel(w, maxTokens, start, text),
                       CancelOverBudget(w, maxTokens, start, text))
  {
    ExecuteIs(w, maxTokens, start, text);
    if LoopStart(w, start, text).Some? {
      LoopCancelled(w, maxTokens, LoopStart(w, start, text).value);
    }
  }

  /** After the saved batch the loop starts at a proper head, or is cancelled at its head. */
  lemma ResumedStores(start: Db, w: World, maxTokens: int, text: string)
    requires PausedOk(start) && !SavedBatch(w, start, text).Overflowed?
    ensures CommittedFits(start, Iterate(w, maxTokens, ResumedAt(SavedBatch(w, start, text).state)),
                          SavedBatch(w, start, text).Stopped?
                          || Broken(w, maxTokens, ResumedAt(SavedBatch(w, start, text).state)))
  {
    var b := SavedBatch(w, start, text);
    var s := ResumedAt(b.state);
    Theorems.SavedLeft(start, w, text);
    Theorems.ResumedOpen(start, b.state, Rest(start, b.state));
    if b.Stopped? {
      StoppedMeansFlag(w, Restored(start), 0, SavedBy(start).calls, 0, IsApproval(text));
      HeadCancels(w, maxTokens, s);
    } else {
      LoopStores(start, w, maxTokens, s);
    }
  }

  predicate AllCommitted(v: View) {
    v.committed == v.db
  }

  lemma OpeningCommitted(start: Db, text: string)
    ensures AllCommitted(FirstState(OpeningView(start, text)).view)
  {
  }

  lemma FirstStores(start: Db, w: World, maxTokens: int, s: State)
    requires Theorems.FreshStart(start) && Open(start, s, NO_USAGE, []) && AllCommitted(s.view)
    ensures CommittedFits(start, Iterate(w, maxTokens, s), Broken(w, maxTokens, s))
  {
    LoopStores(start, w, maxTokens, s);
  }

  lemma FreshStores(start: Db, w: World, maxTokens: int, text: string)
    requires Theorems.FreshStart(start) && |start.messages| < HARD_CAP
    ensures var s := FirstState(OpeningView(start, text));
            CommittedFits(start, Iterate(w, maxTokens, s), Broken(w, maxTokens, s))
  {
    OpeningCommitted(start, text);
    Theorems.OpeningOpen(start, text);
    var s := FirstState(OpeningView(start, text));
    FirstStores(start, w, maxTokens, s);
  }

  lemma ExecutionStores(start: Db, w: World, maxTokens: int, text: string)
    requires Theorems.FreshStart(start) || PausedOk(start)
    ensures !Execute(w, maxTokens, start, text).Thrown? ==>
              CommittedFits(start, Execute(w, maxTokens, start, text), CutInsideBatch(w, maxTokens, start, text))
  {
    ExecuteIs(w, maxTokens, start, text);
    if start.run.status == Paused {
      if !SavedBatch(w, start, text).Overflowed? {
        ResumedStores(start, w, maxTokens, text);
      }
    } else if |start.messages| < HARD_CAP {
      FreshStores(start, w, maxTokens, text);
    }
  }

  lemma StoredOwes(start: Db, w: World, maxTokens: int, text: string, flagSet: bool, why: Interruption)
    requires Theorems.FreshStart(start) || PausedOk(start)
    ensures var db := Theorems.StoredAfter(Execute(w, maxTokens, start, text), flagSet, why);
            Owes(start, db.messages) == Some([]) <==> db.run.status != Paused && !CutInsideBatch(w, maxTokens, start, text)
  {
    var o := Execute(w, maxTokens, start, text);
    Theorems.ExecutionEndsWell(start, w, maxTokens, text);
    Theorems.ThrownMeansPaused(start, w, maxTokens, text);
    ExecutionStores(start, w, maxTokens, text);
    if o.Unsettled? {
      NotSettled(o.view.log);
    }
  }

  lemma StoredKeeps(start: Db, w: World, maxTokens: int, text: string, flagSet: bool, why: Interruption)
    requires Theorems.FreshStart(start) || PausedOk(start)
    ensures start.messages <= Theorems.StoredAfter(Execute(w, maxTokens, start, text), flagSet, why).messages
  {
    var o := Execute(w, maxTokens, start, text);
    Theorems.ExecutionEndsWell(start, w, maxTokens, text);
    Theorems.OutcomePaired(start, w, o);
    Theorems.MessagesKept(start, o.view.log);
  }

  /** The calls a run has on record are all answered in the conversation an execution leaves in the database exactly when
      the run is not paused and no cancel broke off a batch; from a paired start, exactly then the whole conversation waits
      for nothing. A batch that does not fit the conversation is rolled back and leaves no half. */
  lemma StoredPairing(start: Db, w: World, maxTokens: int, text: string, flagSet: bool, why: Interruption)
    requires Theorems.FreshStart(start) || PausedOk(start)
    ensures var db := Theorems.StoredAfter(Execute(w, maxTokens, start, text), flagSet, why);
            var answered := db.run.status != Paused && !CutInsideBatch(w, maxTokens, start, text);
            && (Owes(start, db.messages) == Some([]) <==> answered)
            && (Theorems.PairedStart(start) ==> (WellPaired(db.messages) <==> answered))
  {
    StoredOwes(start, w, maxTokens, text, flagSet, why);
    StoredKeeps(start, w, maxTokens, text, flagSet, why);
    if Theorems.PairedStart(start) {
      Theorems.OwesIsWaiting(start, Theorems.StoredAfter(Execute(w, maxTokens, start, text), flagSet, why).messages);
    }
  }

  // ----- an input --------------------------------------------------------------------------

  /** A model that asks for two tools it was not given, using `tokens`, and a user who cancels during the first call. */
  function TwoCalls(tokens: nat): World {
    World((n: nat) => Reply(TwoCallsReply(tokens)), (name: string) => None,
          (b: nat, i: nat, n: nat) => Threw("unavailable"), Some(3))
  }

  function TwoCallsReply(tokens: nat): ChatReply {
    ChatReply("", [ToolCall("a", "f", "{}"), ToolCall("b", "f", "{}")], Usage(0, tokens), None, "", ToolCallsFinish)
  }

  const NEW_CONVERSATION := Db(FRESH_RUN, [], [])

  lemma CutAfterOne(w: World, s: State, calls: seq<ToolCall>)
    requires |calls| == 2 && w.cancelFrom == Some(s.checks + 1) && |s.view.db.messages| < 10
    ensures WholeBatch(w, s, calls).Stopped? && WholeBatch(w, s, calls).state.tally == s.tally
  {
    var payload := Result(w, s.iteration + 1, calls, 0, true);
    var s1 := Called(Read(s), calls[0], payload, true);
    BatchIs(w, s, s.iteration + 1, calls, 0, true);
    BatchIs(w, WithResult(s1, calls[0], payload), s.iteration + 1, calls, 1, true);
    BatchKeeps(w, s, s.iteration + 1, calls, 0, true);
  }

  lemma TwoCallsBatch(tokens: nat, s: State)
    requires s.checks == 0 && s.iteration == 0 && |s.view.db.messages| < 5 && s.tally == ZERO_TALLY
    ensures BreaksOff(TwoCalls(tokens), s)
    ensures BatchOf(TwoCalls(tokens), s).value.state.tally.usage.tokensOut == tokens
  {
    var w, r := TwoCalls(tokens), TwoCallsReply(tokens);
    var s1 := ChargedAt(w, s, r);
    assert ReplyOf(w, s) == Some(r);
    FirstDestructiveFound(w, r.toolCalls);
    assert !NoBatch(w, s1, r);
    CutAfterOne(w, CallsAsked(s1, r), r.toolCalls);
  }

  lemma TwoCallsCut(maxTokens: nat, text: string)
    ensures CancelOverBudget(TwoCalls(maxTokens), maxTokens, NEW_CONVERSATION, text)
    ensures CutInsideBatch(TwoCalls(maxTokens), maxTokens, NEW_CONVERSATION, text)
  {
    TwoCallsBatch(maxTokens, FirstState(OpeningView(NEW_CONVERSATION, text)));
  }

  /** The stream of a run closed for its tokens. */
  predicate EndsForTokens(events: seq<Event>) {
    events != [] && events[|events| - 1] == FailedEvent(MaxTokens) && CanceledEvent !in events
  }

  lemma TokensStream(start: Db, w: World, o: Outcome)
    requires OutcomeOk(start, w, o) && ClosedForTokens(o)
    ensures EndsForTokens(EventsOf(o.view.log))
  {
  }

  /** The token budget is spent when a cancel breaks off the batch: the run is stored as failed for its tokens, the
      stream says so and never says canceled, and the stored conversation waits for a call nothing will answer. */
  lemma CancelEndsFailed(maxTokens: nat, text: string, flagSet: bool, why: Interruption)
    ensures var o := Execute(TwoCalls(maxTokens), maxTokens, NEW_CONVERSATION, text);
            var db := Theorems.StoredAfter(o, flagSet, why);
            && ClosedForTokens(o) && EndsForTokens(EventsOf(o.view.log))
            && db.run.status == Failed && !WellPaired(db.messages)
  {
    var w, start := TwoCalls(maxTokens), NEW_CONVERSATION;
    TwoCallsCut(maxTokens, text);
    CancelledExactly(w, maxTokens, start, text);
    StoredPairing(start, w, maxTokens, text, flagSet, why);
    Theorems.ExecutionEndsWell(start, w, maxTokens, text);
    TokensStream(start, w, Execute(w, maxTokens, start, text));
  }
}
