/** Where tools are invoked: nothing destructive without an approval, and where the `try` of an execution begins. */
module SimpleGate {
  import opened Basics
  import opened Trace
  import opened Protocol
  import opened Invariants
  import opened Tools
  import opened Messages
  import opened SimpleSpec
  import opened SimpleAnswers
  import opened SimpleFacts
  import Theorems = SimpleTheorems

  // ----- what a stretch of an execution adds to the log ------------------------------------

  /** Calls a stretch of an execution must not make. */
  datatype Ban = Nothing | DestructiveIn(world: World) | Outside(calls: seq<ToolCall>)

  predicate Banned(ban: Ban, call: ToolCall) {
    match ban
    case Nothing => false
    case DestructiveIn(w) => Destructive(w, call)
    case Outside(calls) => call !in calls
  }

  /** `v` continues `u`, and what was added invokes no banned call. */
  predicate Adds(u: View, v: View, ban: Ban) {
    && |u.log| <= |v.log| && v.log[..|u.log|] == u.log
    && forall i :: |u.log| <= i < |v.log| && v.log[i].Invoke? ==> !Banned(ban, v.log[i].call)
  }

  lemma AddsDo(u: View, v: View, a: Action, ban: Ban)
    requires Adds(u, v, ban) && (a.Invoke? ==> !Banned(ban, a.call))
    ensures Adds(u, Do(v, a), ban)
  {
  }

  lemma AddsReasoning(u: View, v: View, r: ChatReply, ban: Ban)
    requires Adds(u, v, ban)
    ensures Adds(u, WithReasoning(v, r), ban)
  {
  }

  lemma AddsClose(u: View, v: View, c: Closing, ban: Ban)
    requires Adds(u, v, ban)
    ensures Adds(u, CloseView(v, c), ban)
  {
    var w := Do(v, Finalize(c));
    AddsDo(u, v, Finalize(c), ban);
    match c.status {
      case Completed =>
        var a := Emit(Artifact(if c.answer.Some? then c.answer.value else ""));
        AddsDo(u, w, a, ban);
        AddsDo(u, Do(w, a), Emit(CompletedEvent), ban);
      case Failed => AddsDo(u, w, Emit(FailedEvent(if c.reason.Some? then c.reason.value else InternalError)), ban);
      case _ => AddsDo(u, w, Emit(CanceledEvent), ban);
    }
  }

  lemma AddsTrans(u: View, v: View, x: View, ban: Ban)
    requires Adds(u, v, ban) && Adds(v, x, ban)
    ensures Adds(u, x, ban)
  {
    assert x.log[..|u.log|] == x.log[..|v.log|][..|u.log|];
    forall i | |u.log| <= i < |x.log| && x.log[i].Invoke? ensures !Banned(ban, x.log[i].call) {
      if i < |v.log| {
        assert x.log[i] == x.log[..|v.log|][i];
      }
    }
  }

  lemma CalledAdds(u: View, s: State, call: ToolCall, payload: ToolPayload, approved: bool, ban: Ban)
    requires Adds(u, s.view, ban) && (approved ==> !Banned(ban, call))
    ensures Adds(u, Called(s, call, payload, approved).view, ban)
  {
    var row := ToolResultRow(s.runSeq + 1, call, payload);
    if approved {
      AddsDo(u, s.view, Invoke(call), ban);
      AddsDo(u, Do(s.view, Invoke(call)), AddRow(row), ban);
    } else {
      AddsDo(u, s.view, AddRow(row), ban);
    }
  }

  lemma {:induction false} BatchAdds(u: View, w: World, s: State, batch: nat, calls: seq<ToolCall>, i: nat, approved: bool, ban: Ban)
    requires Adds(u, s.view, ban)
    requires approved ==> forall j :: 0 <= j < |calls| ==> !Banned(ban, calls[j])
    ensures Adds(u, RunBatch(w, s, batch, calls, i, approved).state.view, ban)
    decreases |calls| - i
  {
    if i < |calls| && !Flag(w, s.checks) {
      var payload := Result(w, batch, calls, i, approved);
      var s0 := Read(s);
      var s1 := Called(s0, calls[i], payload, approved);
      CalledAdds(u, s0, calls[i], payload, approved, ban);
      if !Full(s1) {
        AddsDo(u, s1.view, AddMessage(ToolSpeaker, payload.content, [], Some(calls[i].id)), ban);
        BatchAdds(u, w, WithResult(s1, calls[i], payload), batch, calls, i + 1, approved, ban);
      }
    }
  }

  predicate TurnAdds(u: View, t: Turn, ban: Ban) {
    match t
    case Again(s) => Adds(u, s.view, ban)
    case Over(o) => Adds(u, o.view, ban)
  }

  lemma CompletedAdds(u: View, s: State, answer: string, ban: Ban)
    requires Adds(u, s.view, ban)
    ensures Adds(u, CompletedAt(s, answer).view, ban)
  {
    var a := AddMessage(AssistantSpeaker, answer, [], None);
    AddsDo(u, s.view, a, ban);
    AddsClose(u, Do(s.view, a), Closing(Completed, None, Some(answer), s.tally, s.loops + 1), ban);
  }

  lemma AnsweredAdds(u: View, s: State, row: StepRow, answer: string, ban: Ban)
    requires Adds(u, s.view, ban)
    ensures Adds(u, CompletedAt(WithRow(s, row), answer).view, ban)
  {
    AddsDo(u, s.view, AddRow(row), ban);
    CompletedAdds(u, WithRow(s, row), answer, ban);
  }

  lemma ConcludedAdds(u: View, s: State, r: ChatReply, ban: Ban)
    requires Adds(u, s.view, ban)
    ensures Adds(u, Concluded(s, r).view, ban)
  {
    ConcludedIs(s, r);
    match EmptyReason(r) {
      case Some(why) => FailedAdds(u, s, why, ban);
      case None => AnsweredAdds(u, s, TextRow(s.runSeq + 1, Assistant, r.content, r.usage), r.content, ban);
    }
  }

  lemma FinalReplyAdds(u: View, s: State, r: ChatReply, ban: Ban)
    requires Adds(u, s.view, ban)
    ensures Adds(u, FinalReply(s, r).view, ban)
  {
    AddsReasoning(u, s.view, r, ban);
    ConcludedAdds(u, Reasoned(s, r), r, ban);
  }

  lemma FailedAdds(u: View, s: State, reason: Reason, ban: Ban)
    requires Adds(u, s.view, ban)
    ensures Adds(u, FailedAt(s, reason).view, ban)
  {
    AddsClose(u, s.view, Closing(Failed, Some(reason), None, s.tally, s.loops), ban);
  }

  lemma WholeAdds(u: View, w: World, s: State, calls: seq<ToolCall>)
    requires Adds(u, s.view, DestructiveIn(w)) && FirstDestructive(w, calls).None?
    ensures Adds(u, WholeBatch(w, s, calls).state.view, DestructiveIn(w))
  {
    FirstDestructiveFound(w, calls);
    BatchAdds(u, w, s, s.iteration + 1, calls, 0, true, DestructiveIn(w));
  }

  lemma AfterBatchAdds(u: View, maxTokens: int, b: Batch, ban: Ban)
    requires Adds(u, b.state.view, ban)
    ensures TurnAdds(u, AfterBatch(maxTokens, b), ban)
  {
    AddsDo(u, b.state.view, Commit, ban);
    FailedAdds(u, Committed(b.state), MaxTokens, ban);
  }

  lemma PausedAdds(u: View, s: State, calls: seq<ToolCall>, call: ToolCall, ban: Ban)
    requires Adds(u, s.view, ban)
    ensures Adds(u, PausedAt(s, calls, call).view, ban)
  {
    var p := SnapshotOf(s, calls);
    AddsDo(u, s.view, Pause(p), ban);
    AddsDo(u, Do(s.view, Pause(p)), Emit(InputRequiredEvent(call)), ban);
  }

  lemma ActOnAdds(u: View, w: World, maxTokens: int, s: State, calls: seq<ToolCall>)
    requires Adds(u, s.view, DestructiveIn(w))
    ensures TurnAdds(u, ActOn(w, maxTokens, s, calls), DestructiveIn(w))
  {
    ActOnIs(w, maxTokens, s, calls);
    match FirstDestructive(w, calls) {
      case Some(call) => PausedAdds(u, s, calls, call, DestructiveIn(w));
      case None =>
        WholeAdds(u, w, s, calls);
        AfterBatchAdds(u, maxTokens, WholeBatch(w, s, calls), DestructiveIn(w));
    }
  }

  lemma DecideAdds(u: View, w: World, maxTokens: int, s: State, r: ChatReply)
    requires Adds(u, s.view, DestructiveIn(w))
    ensures TurnAdds(u, Decide(w, maxTokens, s, r), DestructiveIn(w))
  {
    var ban := DestructiveIn(w);
    DecideIs(w, maxTokens, s, r);
    if r.toolCalls == [] {
      FinalReplyAdds(u, s, r, ban);
    } else {
      var s1 := WithRow(s, CallsRow(s.runSeq + 1, r));
      AddsDo(u, s.view, AddRow(CallsRow(s.runSeq + 1, r)), ban);
      AddsDo(u, s1.view, AddMessage(AssistantSpeaker, r.content, r.toolCalls, None), ban);
      ActOnAdds(u, w, maxTokens, Asked(s1, r), r.toolCalls);
    }
  }

  lemma TurnOfAdds(u: View, w: World, maxTokens: int, s: State)
    requires Adds(u, s.view, DestructiveIn(w))
    ensures TurnAdds(u, TurnOf(w, maxTokens, s), DestructiveIn(w))
  {
    var ban := DestructiveIn(w);
    if !Flag(w, s.checks) {
      if s.iteration >= MAX_ITERATIONS {
        AddsClose(u, s.view, Closing(Failed, Some(GuardrailExceeded), None, s.tally, s.loops), ban);
      } else {
        AddsDo(u, s.view, Ask, ban);
        match w.chat(s.iteration) {
          case ProviderError =>
            AddsClose(u, Do(s.view, Ask), Closing(Failed, Some(LlmProviderError), None, s.tally, s.loops), ban);
          case Reply(r) =>
            DecideAdds(u, w, maxTokens, Charged(Read(Chatted(Read(s))), r), r);
        }
      }
    }
  }

  /** Inside the loop no destructive tool is ever invoked. */
  lemma {:induction false} IterateAdds(w: World, maxTokens: int, s: State)
    ensures Adds(s.view, Iterate(w, maxTokens, s).view, DestructiveIn(w))
    decreases if s.iteration < MAX_ITERATIONS then MAX_ITERATIONS - s.iteration else 0
  {
    TurnOfAdds(s.view, w, maxTokens, s);
    AgainAdvances(w, maxTokens, s);
    var t := TurnOf(w, maxTokens, s);
    if t.Again? {
      IterateAdds(w, maxTokens, t.state);
      AddsTrans(s.view, t.state.view, Iterate(w, maxTokens, t.state).view, DestructiveIn(w));
    }
  }

  // ----- where the `try` begins ------------------------------------------------------------

  /** What an execution has done when it enters its `try`; none if it never gets there. */
  function AtTheTry(w: World, start: Db, text: string): Option<View> {
    if LoopStart(w, start, text).Some? then Some(LoopStart(w, start, text).value.view) else None
  }

  lemma ResumedAdds(u: View, s: State, ban: Ban)
    requires Adds(u, s.view, ban)
    ensures Adds(u, ResumedAt(s).view, ban)
  {
    AddsDo(u, s.view, Resume, ban);
    AddsDo(u, Do(s.view, Resume), Commit, ban);
  }

  /** Before its `try` an execution only makes calls of the saved batch, and only with an approval. */
  lemma PrefixAdds(w: World, start: Db, text: string)
    requires start.run.status == Paused
    ensures Adds(View(start, start, []), SavedBatch(w, start, text).state.view,
                 Outside(if IsApproval(text) then SavedBy(start).calls else []))
  {
    var calls := SavedBy(start).calls;
    var ban := Outside(if IsApproval(text) then calls else []);
    AddsDo(View(start, start, []), View(start, start, []), Emit(Working(Plain)), ban);
    BatchAdds(View(start, start, []), w, Restored(start), 0, calls, 0, IsApproval(text), ban);
  }

  /** Every call that must be confirmed was made before the `try` of a resume whose text is an approval word, in any
      case and between white space, and is one of the calls the user was asked about. */
  ghost predicate OnlyApproved(w: World, start: Db, text: string, log: seq<Action>) {
    forall i :: 0 <= i < |log| && log[i].Invoke? && MustBeConfirmed(w, log[i].call) ==>
      && start.run.status == Paused && Approves(text)
      && log[i].call in SavedBy(start).calls
      && (AtTheTry(w, start, text).Some? ==> i < |AtTheTry(w, start, text).value.log|)
  }

  /** The confirmation gate. Whatever the model asks for, in a first execution or after any resume, a tool whose
      descriptor carries the destructive hint is invoked only where `OnlyApproved` allows it. */
  lemma ConfirmationGate(w: World, maxTokens: int, start: Db, text: string)
    ensures OnlyApproved(w, start, text, Execute(w, maxTokens, start, text).view.log)
  {
    DestructiveSpelled(w);
    ApprovalSpelled(text);
    if start.run.status == Paused {
      ResumeGate(w, maxTokens, start, text);
    } else if |start.messages| < HARD_CAP {
      OpeningInvokesNothing(start, text, w);
      IterateAdds(w, maxTokens, FirstState(OpeningView(start, text)));
      AddsTrans(View(start, start, []), OpeningView(start, text),
                Iterate(w, maxTokens, FirstState(OpeningView(start, text))).view, DestructiveIn(w));
    }
  }

  lemma ResumeGate(w: World, maxTokens: int, start: Db, text: string)
    requires start.run.status == Paused
    ensures OnlyApproved(w, start, text, ResumeRun(w, maxTokens, start, text).view.log)
  {
    PrefixAdds(w, start, text);
    DestructiveSpelled(w);
    ApprovalSpelled(text);
    var b := SavedBatch(w, start, text);
    if !b.Overflowed? {
      var s := ResumedAt(b.state);
      ResumedAdds(View(start, start, []), b.state, Outside(if IsApproval(text) then SavedBy(start).calls else []));
      IterateAdds(w, maxTokens, s);
      var log := Iterate(w, maxTokens, s).view.log;
      forall i | 0 <= i < |log| && log[i].Invoke? && Destructive(w, log[i].call)
        ensures i < |s.view.log| && log[i] == s.view.log[i]
      {
        assert i < |s.view.log| && log[i] == log[..|s.view.log|][i];
      }
    }
  }

  lemma OpeningInvokesNothing(start: Db, text: string, w: World)
    ensures Adds(View(start, start, []), OpeningView(start, text), DestructiveIn(w))
  {
    var v0 := View(start, start, []);
    var a1, a2, a3 := AddMessage(User, text, [], None), Commit, Emit(Working(Plain));
    AddsDo(v0, v0, a1, DestructiveIn(w));
    AddsDo(v0, Do(v0, a1), a2, DestructiveIn(w));
    AddsDo(v0, Do(Do(v0, a1), a2), a3, DestructiveIn(w));
  }

  // ----- the batch that waits --------------------------------------------------------------

  /** The end of an execution that paused: the reply, its record, the snapshot of exactly the calls the reply
      asked for, and the request for input. None of those calls has been made. */
  predicate PauseTail(w: World, log: seq<Action>, p: Trace.Pending) {
    && |log| >= 5
    && log[|log| - 5] == Ask
    && log[|log| - 4].AddRow? && log[|log| - 4].row.args == CallArgs(p.calls)
    && log[|log| - 3].AddMessage? && log[|log| - 3].role == AssistantSpeaker && log[|log| - 3].calls == p.calls
    && log[|log| - 2] == Pause(p)
    && FirstDestructive(w, p.calls).Some?
    && log[|log| - 1] == Emit(InputRequiredEvent(FirstDestructive(w, p.calls).value))
  }

  predicate PausesWithTail(w: World, o: Outcome) {
    o.Settled? && o.view.db.run.status == Paused ==>
      o.view.db.run.pending.Some? && PauseTail(w, o.view.log, o.view.db.run.pending.value)
  }

  lemma ClosedIsNotPaused(w: World, v: View, c: Closing)
    requires WellFormed(c)
    ensures PausesWithTail(w, Settled(CloseView(v, c)))
  {
    CloseViewDb(v, c);
  }

  lemma FinalReplyTail(w: World, s: State, r: ChatReply)
    ensures PausesWithTail(w, FinalReply(s, r))
  {
    var s1 := Reasoned(s, r);
    match EmptyReason(r) {
      case Some(why) => ClosedIsNotPaused(w, s1.view, Closing(Failed, Some(why), None, s1.tally, s1.loops));
      case None =>
        var s2 := WithRow(s1, TextRow(s1.runSeq + 1, Assistant, r.content, r.usage));
        ClosedIsNotPaused(w, Do(s2.view, AddMessage(AssistantSpeaker, r.content, [], None)),
                          Closing(Completed, None, Some(r.content), s2.tally, s2.loops + 1));
    }
  }

  lemma AfterBatchTail(w: World, maxTokens: int, b: Batch)
    ensures AfterBatch(maxTokens, b).Over? ==> PausesWithTail(w, AfterBatch(maxTokens, b).outcome)
  {
    ClosedIsNotPaused(w, Committed(b.state).view, Closing(Failed, Some(MaxTokens), None, b.state.tally, b.state.loops));
  }

  lemma AskedLog(s: State, r: ChatReply)
    ensures Asked(WithRow(s, CallsRow(s.runSeq + 1, r)), r).view.log ==
            s.view.log + [AddRow(CallsRow(s.runSeq + 1, r))] + [AddMessage(AssistantSpeaker, r.content, r.toolCalls, None)]
  {
  }

  lemma PausedLogIs(s: State, calls: seq<ToolCall>, call: ToolCall)
    ensures var o, p := PausedAt(s, calls, call), SnapshotOf(s, calls);
            && o.view.log == s.view.log + [Pause(p)] + [Emit(InputRequiredEvent(call))]
            && o.view.db.run.pending == Some(p) && p.calls == calls
  {
  }

  lemma TailIs(w: World, log: seq<Action>, row: StepRow, message: Action, p: Trace.Pending)
    requires log != [] && log[|log| - 1] == Ask && row.args == CallArgs(p.calls)
    requires message.AddMessage? && message.role == AssistantSpeaker && message.calls == p.calls
    requires FirstDestructive(w, p.calls).Some?
    ensures PauseTail(w, log + [AddRow(row)] + [message] + [Pause(p)]
                         + [Emit(InputRequiredEvent(FirstDestructive(w, p.calls).value))], p)
  {
  }

  lemma PausedTail(w: World, s: State, r: ChatReply, call: ToolCall)
    requires s.view.log != [] && s.view.log[|s.view.log| - 1] == Ask
    requires FirstDestructive(w, r.toolCalls) == Some(call)
    ensures PausesWithTail(w, PausedAt(Asked(WithRow(s, CallsRow(s.runSeq + 1, r)), r), r.toolCalls, call))
  {
    var s2 := Asked(WithRow(s, CallsRow(s.runSeq + 1, r)), r);
    AskedLog(s, r);
    PausedLogIs(s2, r.toolCalls, call);
    TailIs(w, s.view.log, CallsRow(s.runSeq + 1, r), AddMessage(AssistantSpeaker, r.content, r.toolCalls, None),
           SnapshotOf(s2, r.toolCalls));
  }

  lemma ActOnTail(w: World, maxTokens: int, s: State, r: ChatReply)
    requires s.view.log != [] && s.view.log[|s.view.log| - 1] == Ask
    ensures var t := ActOn(w, maxTokens, Asked(WithRow(s, CallsRow(s.runSeq + 1, r)), r), r.toolCalls);
            t.Over? ==> PausesWithTail(w, t.outcome)
  {
    var s2 := Asked(WithRow(s, CallsRow(s.runSeq + 1, r)), r);
    ActOnIs(w, maxTokens, s2, r.toolCalls);
    match FirstDestructive(w, r.toolCalls) {
      case Some(call) => PausedTail(w, s, r, call);
      case None => AfterBatchTail(w, maxTokens, WholeBatch(w, s2, r.toolCalls));
    }
  }

  lemma DecideTail(w: World, maxTokens: int, s: State, r: ChatReply)
    requires s.view.log != [] && s.view.log[|s.view.log| - 1] == Ask
    ensures var t := Decide(w, maxTokens, s, r); t.Over? ==> PausesWithTail(w, t.outcome)
  {
    DecideIs(w, maxTokens, s, r);
    FinalReplyTail(w, s, r);
    ActOnTail(w, maxTokens, s, r);
  }

  lemma TurnTail(w: World, maxTokens: int, s: State)
    ensures var t := TurnOf(w, maxTokens, s); t.Over? ==> PausesWithTail(w, t.outcome)
  {
    if !Flag(w, s.checks) {
      if s.iteration >= MAX_ITERATIONS {
        ClosedIsNotPaused(w, s.view, Closing(Failed, Some(GuardrailExceeded), None, s.tally, s.loops));
      } else {
        match w.chat(s.iteration) {
          case ProviderError =>
            ClosedIsNotPaused(w, Do(s.view, Ask), Closing(Failed, Some(LlmProviderError), None, s.tally, s.loops));
          case Reply(r) =>
            DecideTail(w, maxTokens, Charged(Read(Chatted(Read(s))), r), r);
        }
      }
    }
  }

  lemma {:induction false} IterateTail(w: World, maxTokens: int, s: State)
    ensures PausesWithTail(w, Iterate(w, maxTokens, s))
    decreases if s.iteration < MAX_ITERATIONS then MAX_ITERATIONS - s.iteration else 0
  {
    TurnTail(w, maxTokens, s);
    AgainAdvances(w, maxTokens, s);
    var t := TurnOf(w, maxTokens, s);
    if t.Again? {
      IterateTail(w, maxTokens, t.state);
    }
  }

  /** A batch with a destructive call waits as a whole: when an execution pauses, the calls it waits with are
      those of the last reply, and none of them was made. */
  lemma PausedBatchIsUntouched(w: World, maxTokens: int, start: Db, text: string)
    requires start.run.status == Paused || start.run == FRESH_RUN
    ensures PausesWithTail(w, Execute(w, maxTokens, start, text))
  {
    if start.run.status == Paused {
      var b := SavedBatch(w, start, text);
      if !b.Overflowed? {
        IterateTail(w, maxTokens, ResumedAt(b.state));
      }
    } else if |start.messages| < HARD_CAP {
      IterateTail(w, maxTokens, FirstState(OpeningView(start, text)));
    }
  }

  // ----- one terminal write, from the `try` on ---------------------------------------------

  /** Cut an execution anywhere from its `try` on: with the `finally` block it settles exactly once, and the stored
      row ends closed and terminal, or paused and open. */
  lemma OneTerminalWrite(w: World, maxTokens: int, start: Db, text: string, n: nat, flagSet: bool, why: Interruption,
                         tally: Tally, loops: nat)
    requires Theorems.FreshStart(start) || PausedOk(start)
    requires AtTheTry(w, start, text).Some?
    requires |AtTheTry(w, start, text).value.log| <= n <= |Execute(w, maxTokens, start, text).view.log|
    ensures var log := Execute(w, maxTokens, start, text).view.log[..n];
            var (db, orphan) := AfterFinally(Replay(start, log), flagSet, why, tally, loops);
            && Settles(log) + orphan == 1
            && (db.run.closed <==> Terminal(db.run.status))
            && (db.run.status == Paused || Terminal(db.run.status))
            && (orphan == 1 ==> LeftOrphaned(db.run, flagSet, why, tally, loops))
  {
    var o := Execute(w, maxTokens, start, text);
    Theorems.ExecutionEndsWell(start, w, maxTokens, text);
    assert Startable(start.run);
    var k: nat :| SettlesAt(o.view.log, k) by {
      if !o.Settled? {
        assert SettlesAt(o.view.log, |o.view.log|);
      }
    }
    ExactlyOneTerminalWrite(start, o.view.log, k, n, flagSet, why, tally, loops);
  }

  /** None of these actions is a commit. */
  predicate Uncommitted(log: seq<Action>) {
    forall i :: 0 <= i < |log| ==> !Commits(log[i])
  }

  lemma {:induction false} UncommittedStays(start: Db, log: seq<Action>)
    requires Uncommitted(log)
    ensures Replay(start, log).committed == start
  {
    if log != [] {
      assert !Commits(log[|log| - 1]);
      UncommittedStays(start, log[..|log| - 1]);
    }
  }

  lemma {:induction false} BatchUncommitted(w: World, s: State, batch: nat, calls: seq<ToolCall>, i: nat, approved: bool)
    requires Uncommitted(s.view.log)
    ensures Uncommitted(RunBatch(w, s, batch, calls, i, approved).state.view.log)
    decreases |calls| - i
  {
    if i < |calls| && !Flag(w, s.checks) {
      var payload := Result(w, batch, calls, i, approved);
      var s1 := Called(Read(s), calls[i], payload, approved);
      if !Full(s1) {
        BatchUncommitted(w, WithResult(s1, calls[i], payload), batch, calls, i + 1, approved);
      }
    }
  }

  lemma SavedUncommitted(w: World, start: Db, text: string)
    ensures Uncommitted(SavedBatch(w, start, text).state.view.log)
  {
    BatchUncommitted(w, Restored(start), 0, SavedBy(start).calls, 0, IsApproval(text));
  }

  /** A resume cut anywhere before its `try`, the commit of `resume_run` included: the paused run is stored as it was,
      its snapshot with it, so the same approval can be given again. */
  lemma CutResumeStaysPaused(w: World, start: Db, text: string, n: nat)
    requires start.run.status == Paused && AtTheTry(w, start, text).Some?
    requires n < |AtTheTry(w, start, text).value.log|
    ensures Replay(start, AtTheTry(w, start, text).value.log[..n]).committed == start
  {
    var log := AtTheTry(w, start, text).value.log;
    SavedUncommitted(w, start, text);
    assert log == SavedBatch(w, start, text).state.view.log + [Resume] + [Commit];
    assert Uncommitted(log[..n]);
    UncommittedStays(start, log[..n]);
  }

  /** None of these actions writes the run row. */
  predicate SparesRun(log: seq<Action>) {
    forall i :: 0 <= i < |log| ==> log[i].AddMessage? || log[i].Commit? || log[i].Emit?
  }

  lemma {:induction false} RunSpared(start: Db, log: seq<Action>)
    requires SparesRun(log)
    ensures Replay(start, log).db.run == start.run && Replay(start, log).committed.run == start.run
  {
    if log != [] {
      assert log[|log| - 1].AddMessage? || log[|log| - 1].Commit? || log[|log| - 1].Emit?;
      RunSpared(start, log[..|log| - 1]);
    }
  }

  /** A first execution cut before its `try`: nobody closes the run. */
  lemma CutFreshStaysRunning(start: Db, text: string, n: nat)
    requires n < |OpeningView(start, text).log|
    ensures Replay(start, OpeningView(start, text).log[..n]).committed.run == start.run
  {
    assert SparesRun(OpeningView(start, text).log[..n]);
    RunSpared(start, OpeningView(start, text).log[..n]);
  }

  lemma ExecuteContinues(w: World, maxTokens: int, start: Db, text: string, n: nat)
    requires AtTheTry(w, start, text).Some? && n <= |AtTheTry(w, start, text).value.log|
    ensures var log := Execute(w, maxTokens, start, text).view.log;
            n <= |log| && log[..n] == AtTheTry(w, start, text).value.log[..n]
  {
    IterateAdds(w, maxTokens, LoopStart(w, start, text).value);
    var log := Execute(w, maxTokens, start, text).view.log;
    var first := AtTheTry(w, start, text).value.log;
    assert log[..|first|][..n] == log[..n];
  }

  lemma ResumedAnnounced(w: World, start: Db, text: string)
    requires PausedOk(start)
    ensures Announced(start, ResumedAt(SavedBatch(w, start, text).state).view)
  {
    var s := SavedBatch(w, start, text).state;
    Theorems.SavedLeft(start, w, text);
    Theorems.ResumedOpen(start, s, Rest(start, s));
  }

  lemma QuietBeforeTheTry(w: World, start: Db, text: string)
    requires Theorems.FreshStart(start) || PausedOk(start)
    requires AtTheTry(w, start, text).Some?
    ensures AllQuiet(AtTheTry(w, start, text).value.log)
  {
    if start.run.status == Paused {
      ResumedAnnounced(w, start, text);
    } else {
      OpeningLog(start, text);
    }
  }

  lemma QuietPrefix(log: seq<Action>, n: nat)
    requires AllQuiet(log) && n <= |log|
    ensures Settles(log[..n]) == 0
  {
    NotSettled(log[..n]);
  }

  /** Cut an execution before its `try`: nothing settles the run and its row is stored as it was. */
  lemma CutBeforeTheTry(w: World, maxTokens: int, start: Db, text: string, n: nat)
    requires Theorems.FreshStart(start) || PausedOk(start)
    requires AtTheTry(w, start, text).Some? && n < |AtTheTry(w, start, text).value.log|
    ensures var log := Execute(w, maxTokens, start, text).view.log;
            n <= |log| && Settles(log[..n]) == 0 && Replay(start, log[..n]).committed.run == start.run
  {
    ExecuteContinues(w, maxTokens, start, text, n);
    QuietBeforeTheTry(w, start, text);
    QuietPrefix(AtTheTry(w, start, text).value.log, n);
    if start.run.status == Paused {
      CutResumeStaysPaused(w, start, text, n);
    } else {
      CutFreshStaysRunning(start, text, n);
    }
  }

  /** Where an execution cut after `n` effects may stand: before its `try`, in it, or, right between, either. */
  predicate MayStand(w: World, start: Db, text: string, n: nat, inTry: bool)
    requires AtTheTry(w, start, text).Some?
  {
    var first := |AtTheTry(w, start, text).value.log|;
    (n < first ==> !inTry) && (first < n ==> inTry)
  }

  /** What is left of an execution cut after `n` effects, and how often it was settled: the `finally` block acts only
      from inside the `try`. */
  function CutAt(w: World, maxTokens: int, start: Db, text: string, n: nat, inTry: bool, flagSet: bool, why: Interruption,
                 tally: Tally, loops: nat): (Db, nat)
    requires n <= |Execute(w, maxTokens, start, text).view.log|
  {
    var log := Execute(w, maxTokens, start, text).view.log[..n];
    var v := Replay(start, log);
    if !inTry then (v.committed, Settles(log))
    else
      var (db, orphan) := AfterFinally(v, flagSet, why, tally, loops);
      (db, Settles(log) + orphan)
  }

  /** The row a run enters its `try` with. */
  function RowAtTheTry(run: RunRow): RunRow {
    if run.status == Paused then ResumedRow(run) else run
  }

  lemma SavedRow(w: World, start: Db, text: string)
    ensures SavedBatch(w, start, text).state.view.db.run == start.run
  {
    Theorems.BatchCommitsNothing(w, Restored(start), 0, SavedBy(start).calls, 0, IsApproval(text));
  }

  lemma TryRow(w: World, start: Db, text: string)
    requires AtTheTry(w, start, text).Some?
    ensures AtTheTry(w, start, text).value.committed.run == RowAtTheTry(start.run)
  {
    if start.run.status == Paused {
      SavedRow(w, start, text);
    }
  }

  lemma TryGenuine(w: World, start: Db, text: string)
    requires Theorems.FreshStart(start) || PausedOk(start)
    requires AtTheTry(w, start, text).Some?
    ensures Genuine(start, AtTheTry(w, start, text).value)
  {
    if start.run.status == Paused {
      ResumedAnnounced(w, start, text);
    } else {
      OpeningGenuine(start, text);
    }
  }

  /** Cut right before the `try` is entered. */
  lemma CutAtTheTry(w: World, maxTokens: int, start: Db, text: string, n: nat)
    requires Theorems.FreshStart(start) || PausedOk(start)
    requires AtTheTry(w, start, text).Some? && n == |AtTheTry(w, start, text).value.log|
    ensures var log := Execute(w, maxTokens, start, text).view.log;
            n <= |log| && Settles(log[..n]) == 0 && Replay(start, log[..n]).committed.run == RowAtTheTry(start.run)
  {
    var first := AtTheTry(w, start, text).value;
    ExecuteContinues(w, maxTokens, start, text, n);
    QuietBeforeTheTry(w, start, text);
    QuietPrefix(first.log, n);
    assert first.log[..n] == first.log;
    TryGenuine(w, start, text);
    TryRow(w, start, text);
  }

  /** Wherever an execution is cut, its run is settled, once, if and only if the cut is in the `try`. A run cut before
      is stored as it was, still running or still paused, or running again if the resume was already committed. */
  lemma SettledIffInTheTry(w: World, maxTokens: int, start: Db, text: string, n: nat, inTry: bool, flagSet: bool,
                           why: Interruption, tally: Tally, loops: nat)
    requires Theorems.FreshStart(start) || PausedOk(start)
    requires AtTheTry(w, start, text).Some? && MayStand(w, start, text, n, inTry)
    requires n <= |Execute(w, maxTokens, start, text).view.log|
    ensures var (db, settled) := CutAt(w, maxTokens, start, text, n, inTry, flagSet, why, tally, loops);
            && (settled == if inTry then 1 else 0)
            && (inTry ==> db.run.status == Paused || (Terminal(db.run.status) && db.run.closed))
            && (!inTry ==>
                  db.run == if n < |AtTheTry(w, start, text).value.log| then start.run else RowAtTheTry(start.run))
  {
    if inTry {
      OneTerminalWrite(w, maxTokens, start, text, n, flagSet, why, tally, loops);
    } else if n < |AtTheTry(w, start, text).value.log| {
      CutBeforeTheTry(w, maxTokens, start, text, n);
    } else {
      CutAtTheTry(w, maxTokens, start, text, n);
    }
  }

  lemma CutContextFull(start: Db, n: nat)
    requires Startable(start.run) && 0 < n <= |ContextFullView(View(start, start, [])).log|
    ensures Replay(start, ContextFullView(View(start, start, [])).log[..n]).committed.run
            == Finalized(start.run, ContextFullClosing())
  {
    var log := ContextFullView(View(start, start, [])).log;
    ContextFullStreamAgrees(start);
    assert log[..1] == [Finalize(ContextFullClosing())];
    SettledRowStays(start, log, 0, n);
  }

  /** An execution that never reaches its `try`, cut anywhere: with a full conversation its first effect closes the run;
      a saved batch whose results no longer fit raises, and the run stays paused with nothing lost. */
  lemma CutWithoutTheTry(w: World, maxTokens: int, start: Db, text: string, n: nat)
    requires Theorems.FreshStart(start) || PausedOk(start)
    requires AtTheTry(w, start, text).None? && n <= |Execute(w, maxTokens, start, text).view.log|
    ensures var db := Replay(start, Execute(w, maxTokens, start, text).view.log[..n]).committed;
            if start.run.status == Paused || n == 0 then db == start else db.run == Finalized(start.run, ContextFullClosing())
  {
    if start.run.status == Paused {
      var log := SavedBatch(w, start, text).state.view.log;
      SavedUncommitted(w, start, text);
      assert Uncommitted(log[..n]);
      UncommittedStays(start, log[..n]);
    } else if n > 0 {
      CutContextFull(start, n);
    }
  }
}
