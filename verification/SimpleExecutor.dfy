/** The Simple executor as a loop over mutable variables, with its pause and its resume. */
module SimpleExecutorModule {
  import opened Basics
  import opened Trace
  import opened Protocol
  import opened Invariants
  import opened Tools
  import opened SessionModule
  import opened SimpleSpec
  import Facts = SimpleFacts
  import Theorems = SimpleTheorems

  /** How a stretch of `run` ends: on, broken off by a cancel, returned from, or left by an exception. */
  datatype Step = Onward | Broken | Returned | Escaping

  class SimpleExecutor {
    const session: Session
    const world: World
    const maxTokens: int
    var tally: Tally
    var loops: nat
    var runSeq: nat
    var iteration: nat
    var finalized: bool
    var cancelled: bool
    var checks: nat            // reads of the cancel flag so far

    constructor (session: Session, world: World, maxTokens: int)
      ensures this.session == session && this.world == world && this.maxTokens == maxTokens
      ensures !finalized && !cancelled && State() == FirstState(session.Now())
    {
      this.session, this.world, this.maxTokens := session, world, maxTokens;
      tally, loops, runSeq, iteration, checks := ZERO_TALLY, 0, 0, 0, 0;
      finalized, cancelled := false, false;
    }

    ghost function State(): State
      reads this, session
    {
      SimpleSpec.State(session.Now(), tally, loops, runSeq, checks, iteration)
    }

    /** The outcome the current variables stand for, given how the last stretch ended. */
    ghost function OutcomeNow(step: Step): Outcome
      reads this, session
    {
      match step
      case Returned => Settled(session.Now())
      case _ => Unsettled(session.Now(), tally, loops, step.Broken?)
    }

    // ----- exits and rows ------------------------------------------------------------------

    method Fail(reason: Reason)
      requires session.Valid()
      modifies this`finalized, session
      ensures session.Valid() && finalized && OutcomeNow(Returned) == FailedAt(old(State()), reason)
    {
      session.Close(Closing(Failed, Some(reason), None, tally, loops));
      finalized := true;
    }

    method AppendRow(row: StepRow)
      requires session.Valid()
      modifies this`runSeq, session
      ensures session.Valid() && State() == WithRow(old(State()), row)
    {
      runSeq := runSeq + 1;
      session.AppendRunStep(row);
    }

    /** `cancel_event.is_set()`. */
    method IsCancelled() returns (flag: bool)
      modifies this`checks
      ensures flag == Flag(world, old(checks)) && State() == Read(old(State()))
    {
      flag := Flag(world, checks);
      checks := checks + 1;
    }

    method YieldReasoning(r: ChatReply)
      requires session.Valid()
      modifies session
      ensures session.Valid() && State() == Reasoned(old(State()), r)
    {
      if !Blank(r.reasoning) {
        session.Yield(Working(Reasoning(Strip(r.reasoning))));
      }
    }

    // ----- batches -------------------------------------------------------------------------

    /** What a batch did, in terms of the specification. */
    ghost predicate Batched(b: Batch, step: Step)
      reads this, session
    {
      match b
      case Ran(s) => step.Onward? && s == State()
      case Stopped(s) => step.Broken? && s == State()
      case Overflowed(s) => step.Escaping? && s == State()
    }

    method StoreResult(call: ToolCall, payload: ToolPayload) returns (full: bool)
      requires session.Valid()
      modifies session
      ensures session.Valid() && full == Full(old(State()))
      ensures State() == if full then old(State()) else WithResult(old(State()), call, payload)
    {
      full := session.AppendMessage(ToolSpeaker, payload.content, [], Some(call.id));
    }

    /** `_invoke_tool`. */
    method InvokeTool(batch: nat, calls: seq<ToolCall>, i: nat) returns (payload: ToolPayload)
      requires session.Valid() && i < |calls|
      modifies session
      ensures session.Valid() && payload == Result(world, batch, calls, i, true)
      ensures State() == Invoked(old(State()), calls[i])
    {
      session.Tool(calls[i]);
      var result, _ := InvokeMcpTool(calls[i].name, TargetOf(world, calls[i].name), AttemptsOf(world, batch, i));
      payload := result;
    }

    /** One call of a fresh batch: invoked, then counted and recorded. */
    method Execute(batch: nat, calls: seq<ToolCall>, i: nat) returns (payload: ToolPayload)
      requires session.Valid() && i < |calls|
      modifies this`runSeq, session
      ensures session.Valid() && payload == Result(world, batch, calls, i, true)
      ensures State() == Called(old(State()), calls[i], payload, true)
    {
      payload := InvokeTool(batch, calls, i);
      CalledApproved(old(State()), calls[i], payload);
      AppendRow(ToolResultRow(runSeq + 1, calls[i], payload));
    }

    /** One saved call: counted first, then invoked or denied, and recorded. */
    method ExecuteSaved(calls: seq<ToolCall>, i: nat, approved: bool) returns (payload: ToolPayload)
      requires session.Valid() && i < |calls|
      modifies this`runSeq, session
      ensures session.Valid() && payload == Result(world, 0, calls, i, approved)
      ensures State() == Called(old(State()), calls[i], payload, approved)
    {
      runSeq := runSeq + 1;
      payload := InvokeSaved(calls, i, approved);
      session.AppendRunStep(ToolResultRow(runSeq, calls[i], payload));
      CalledIs(old(State()), calls[i], payload, approved);
    }

    method InvokeSaved(calls: seq<ToolCall>, i: nat, approved: bool) returns (payload: ToolPayload)
      requires session.Valid() && i < |calls|
      modifies session
      ensures session.Valid() && payload == Result(world, 0, calls, i, approved)
      ensures session.Now() == if approved then Do(old(session.Now()), Invoke(calls[i])) else old(session.Now())
    {
      if !approved {
        return ToolPayload(true, "user_denied");
      }
      payload := InvokeTool(0, calls, i);
    }

    /** The loop over the calls of a reply. */
    method RunCalls(batch: nat, calls: seq<ToolCall>) returns (step: Step)
      requires session.Valid()
      modifies this`runSeq, this`checks, session
      ensures session.Valid() && Batched(RunBatch(world, old(State()), batch, calls, 0, true), step)
    {
      for i := 0 to |calls|
        invariant session.Valid()
        invariant RunBatch(world, State(), batch, calls, i, true) == RunBatch(world, old(State()), batch, calls, 0, true)
      {
        BatchIs(world, State(), batch, calls, i, true);
        var flag := IsCancelled();
        if flag {
          return Broken;
        }
        var payload := Execute(batch, calls, i);
        var full := StoreResult(calls[i], payload);
        if full {
          return Escaping;
        }
      }
      return Onward;
    }

    /** The loop over the saved calls of a paused run. */
    method RunSavedCalls(calls: seq<ToolCall>, approved: bool) returns (step: Step)
      requires session.Valid()
      modifies this`runSeq, this`checks, session
      ensures session.Valid() && Batched(RunBatch(world, old(State()), 0, calls, 0, approved), step)
    {
      for i := 0 to |calls|
        invariant session.Valid()
        invariant RunBatch(world, State(), 0, calls, i, approved) == RunBatch(world, old(State()), 0, calls, 0, approved)
      {
        BatchIs(world, State(), 0, calls, i, approved);
        var flag := IsCancelled();
        if flag {
          return Broken;
        }
        var payload := ExecuteSaved(calls, i, approved);
        var full := StoreResult(calls[i], payload);
        if full {
          return Escaping;
        }
      }
      return Onward;
    }

    /** `_first_destructive`. */
    method FindDestructive(calls: seq<ToolCall>) returns (r: Option<ToolCall>)
      ensures r == FirstDestructive(world, calls)
    {
      for i := 0 to |calls|
        invariant FirstDestructive(world, calls[i..]) == FirstDestructive(world, calls)
      {
        assert calls[i..][0] == calls[i] && calls[i..][1..] == calls[i + 1..];
        if Destructive(world, calls[i]) {
          return Some(calls[i]);
        }
      }
      return None;
    }

    // ----- one iteration -------------------------------------------------------------------

    /** What an iteration did, in terms of the specification. */
    ghost predicate Did(t: Turn, step: Step)
      reads this, session
    {
      match t
      case Again(s) => step.Onward? && s == State() && !finalized
      case Over(o) => !step.Onward? && o == OutcomeNow(step) && (finalized <==> step.Returned?)
    }

    method Complete(answer: string) returns (step: Step)
      requires session.Valid() && !finalized
      modifies this`loops, this`finalized, session
      ensures session.Valid() && Did(Over(CompletedAt(old(State()), answer)), step)
    {
      var full := session.AppendMessage(AssistantSpeaker, answer, [], None);
      if full {
        return Escaping;
      }
      CloseCompleted(answer);
      return Returned;
    }

    method CloseCompleted(answer: string)
      requires session.Valid()
      modifies this`loops, this`finalized, session
      ensures session.Valid() && finalized
      ensures session.Now() == CloseView(old(session.Now()), Closing(Completed, None, Some(answer), tally, old(loops) + 1))
    {
      loops := loops + 1;
      session.Close(Closing(Completed, None, Some(answer), tally, loops));
      finalized := true;
    }

    method AnswerFinally(r: ChatReply) returns (step: Step)
      requires session.Valid() && !finalized
      modifies this`runSeq, this`loops, this`finalized, session
      ensures session.Valid() && Did(Over(FinalReply(old(State()), r)), step)
    {
      YieldReasoning(r);
      step := Conclude(r);
    }

    method Conclude(r: ChatReply) returns (step: Step)
      requires session.Valid() && !finalized
      modifies this`runSeq, this`loops, this`finalized, session
      ensures session.Valid() && Did(Over(Concluded(old(State()), r)), step)
    {
      var why := EmptyReason(r);
      if why.Some? {
        Fail(why.value);
        return Returned;
      }
      AppendRow(TextRow(runSeq + 1, Assistant, r.content, r.usage));
      step := Complete(r.content);
    }

    /** The snapshot, the pause, and the request for input. */
    method PauseFor(calls: seq<ToolCall>, call: ToolCall)
      requires session.Valid()
      modifies this`finalized, session
      ensures session.Valid() && finalized && OutcomeNow(Returned) == PausedAt(old(State()), calls, call)
    {
      session.PauseRun(Trace.Pending(calls, runSeq, loops, tally.usage));
      finalized := true;
      session.Yield(InputRequiredEvent(call));
    }

    /** The commit after a batch, and the budget check. */
    method FinishBatch() returns (step: Step)
      requires session.Valid() && !finalized
      modifies this`iteration, this`finalized, session
      ensures session.Valid() && Did(BatchEnd(maxTokens, old(State())), step)
    {
      session.CommitAll();
      iteration := iteration + 1;
      if tally.usage.tokensOut >= maxTokens {
        Fail(MaxTokens);
        return Returned;
      }
      return Onward;
    }

    method RunBatchOf(calls: seq<ToolCall>) returns (step: Step)
      requires session.Valid() && !finalized
      modifies this`runSeq, this`checks, this`iteration, this`finalized, session
      ensures session.Valid() && Did(AfterBatch(maxTokens, WholeBatch(world, old(State()), calls)), step)
    {
      step := RunCalls(iteration + 1, calls);
      if !step.Escaping? {
        step := FinishBatch();
      }
    }

    method ActOnCalls(calls: seq<ToolCall>) returns (step: Step)
      requires session.Valid() && !finalized
      modifies this`runSeq, this`checks, this`iteration, this`finalized, session
      ensures session.Valid() && Did(ActOn(world, maxTokens, old(State()), calls), step)
    {
      var destructive := FindDestructive(calls);
      if destructive.Some? {
        PauseFor(calls, destructive.value);
        return Returned;
      }
      step := RunBatchOf(calls);
    }

    method RecordCalls(r: ChatReply) returns (full: bool)
      requires session.Valid()
      modifies this`runSeq, this`loops, session
      ensures var s1 := WithRow(old(State()), CallsRow(old(runSeq) + 1, r));
              && session.Valid() && full == Full(s1)
              && State() == if full then s1 else Asked(s1, r)
    {
      AppendRow(CallsRow(runSeq + 1, r));
      full := session.AppendMessage(AssistantSpeaker, r.content, r.toolCalls, None);
      if !full {
        loops := loops + 1;
      }
    }

    method UseTools(r: ChatReply) returns (step: Step)
      requires session.Valid() && !finalized
      modifies this, session
      ensures session.Valid() && Did(ToolReply(world, maxTokens, old(State()), r), step)
    {
      var full := RecordCalls(r);
      if full {
        return Escaping;
      }
      step := ActOnCalls(r.toolCalls);
    }

    method React(r: ChatReply) returns (step: Step)
      requires session.Valid() && !finalized
      modifies this, session
      ensures session.Valid() && Did(Decide(world, maxTokens, old(State()), r), step)
    {
      if r.toolCalls == [] {
        step := AnswerFinally(r);
      } else {
        step := UseTools(r);
      }
    }

    method AfterReplyCheck(flag: bool, r: ChatReply) returns (step: Step)
      requires session.Valid() && !finalized
      modifies this, session
      ensures session.Valid()
      ensures Did(OnChecked(world, maxTokens, old(State()), flag, r), step)
    {
      if flag {
        return Broken;
      }
      step := UseReply(r);
    }

    method HandleReply(r: ChatReply) returns (step: Step)
      requires session.Valid() && !finalized
      modifies this, session
      ensures session.Valid() && Did(OnReply(world, maxTokens, old(State()), r), step)
    {
      var flag := IsCancelled();
      step := AfterReplyCheck(flag, r);
    }

    method UseReply(r: ChatReply) returns (step: Step)
      requires session.Valid() && !finalized
      modifies this, session
      ensures session.Valid() && Did(Decide(world, maxTokens, Charged(old(State()), r), r), step)
    {
      ChargeReply(r);
      step := React(r);
    }

    method ChargeReply(r: ChatReply)
      modifies this`tally
      ensures State() == Charged(old(State()), r)
    {
      tally := Charge(tally, r.usage, r.cost);
    }

    method CallProvider() returns (step: Step)
      requires session.Valid() && !finalized
      modifies this, session
      ensures session.Valid()
      ensures Did(OnOutcome(world, maxTokens, Chatted(old(State()))), step)
    {
      session.Chat();
      match world.chat(iteration) {
        case ProviderError =>
          Fail(LlmProviderError);
          return Returned;
        case Reply(r) => step := HandleReply(r);
      }
    }

    method AfterHeadCheck(flag: bool) returns (step: Step)
      requires session.Valid() && !finalized
      modifies this, session
      ensures session.Valid()
      ensures Did(OnHead(world, maxTokens, old(State()), flag), step)
    {
      if flag {
        return Broken;
      }
      if iteration >= MAX_ITERATIONS {
        Fail(GuardrailExceeded);
        return Returned;
      }
      step := CallProvider();
    }

    method Iteration() returns (step: Step)
      requires session.Valid() && !finalized
      modifies this, session
      ensures session.Valid() && Did(TurnOf(world, maxTokens, old(State())), step)
    {
      var flag := IsCancelled();
      step := AfterHeadCheck(flag);
    }

    /** The `for` loop inside the `try`. */
    method Loop() returns (step: Step)
      requires session.Valid() && !finalized
      modifies this, session
      ensures session.Valid() && Did(Over(Iterate(world, maxTokens, old(State()))), step)
    {
      ghost var s0 := State();
      while true
        invariant session.Valid() && !finalized
        invariant Iterate(world, maxTokens, State()) == Iterate(world, maxTokens, s0)
        decreases if iteration < MAX_ITERATIONS then MAX_ITERATIONS - iteration else 0
      {
        AgainAdvances(world, maxTokens, State());
        step := Iteration();
        if !step.Onward? {
          return;
        }
      }
    }

    // ----- the two ways in -----------------------------------------------------------------

    /** A fresh run stores the user's message first; a full context ends it at once. */
    method Begin(text: string) returns (full: bool)
      requires session.Valid() && session.Now() == View(session.start, session.start, []) && !finalized
      requires State() == FirstState(session.Now())
      modifies this`finalized, session
      ensures session.Valid() && (full <==> |session.start.messages| >= HARD_CAP) && finalized == full
      ensures if full then session.Now() == ContextFullView(View(session.start, session.start, []))
              else State() == FirstState(OpeningView(session.start, text))
    {
      full := session.AppendMessage(User, text, [], None);
      if full {
        session.FinalizeRun(Closing(Failed, Some(ContextFull), None, ZERO_TALLY, 0));
        finalized := true;
        session.Yield(Working(Plain));
        session.Yield(FailedEvent(ContextFull));
        return;
      }
      session.CommitAll();
      session.Yield(Working(Plain));
    }

    /** Restores the variables from the snapshot, if there is one. */
    method Restore()
      requires session.Valid() && session.Now() == View(session.start, session.start, [])
      requires State() == FirstState(session.Now())
      modifies this`tally, this`loops, this`runSeq, session
      ensures session.Valid() && State() == Restored(session.start) && session.run == session.start.run
    {
      session.Yield(Working(Plain));
      if session.run.pending.Some? {
        runSeq, loops := session.run.pending.value.runSeq, session.run.pending.value.loops;
        tally := Tally(session.run.pending.value.usage, None);
      }
    }

    method MarkResumed()
      requires session.Valid()
      modifies session
      ensures session.Valid() && State() == ResumedAt(old(State()))
    {
      session.ResumeRun();
      session.CommitAll();
    }

    /** A resume runs or denies the saved calls before it enters the `try`. */
    method Pickup(text: string) returns (step: Step)
      requires session.Valid() && session.Now() == View(session.start, session.start, []) && !finalized
      requires State() == FirstState(session.Now())
      modifies this`tally, this`loops, this`runSeq, this`checks, session
      ensures session.Valid()
      ensures var b := SavedBatch(world, session.start, text);
              && (b.Overflowed? <==> step.Escaping?)
              && (if step.Escaping? then State() == b.state else State() == ResumedAt(b.state))
    {
      Restore();
      var calls := if session.run.pending.Some? then session.run.pending.value.calls else [];
      step := RunSavedCalls(calls, IsApproval(text));
      if !step.Escaping? {
        MarkResumed();
      }
    }

    // ----- the run -------------------------------------------------------------------------

    /** Everything up to the `finally` block; `thrown` when it never got into the `try`. */
    method Body(text: string) returns (step: Step, thrown: bool)
      requires session.Valid() && session.Now() == View(session.start, session.start, []) && !finalized
      requires State() == FirstState(session.Now())
      modifies this, session
      ensures session.Valid() && (finalized <==> step.Returned?) && !step.Onward? && (thrown ==> step.Escaping?)
      ensures SimpleSpec.Execute(world, maxTokens, session.start, text) == if thrown then Thrown(session.Now()) else OutcomeNow(step)
    {
      thrown := false;
      if session.run.status == Paused {
        step := Pickup(text);
        if step.Escaping? {
          return step, true;
        }
      } else {
        var full := Begin(text);
        if full {
          return Returned, false;
        }
      }
      step := Loop();
    }

    /** The `finally` block, and the event after it. */
    method Finish(step: Step, thrown: bool, flagAtEnd: bool, ghost o: Outcome)
      requires session.Valid() && (finalized <==> step.Returned?) && !step.Onward? && (thrown ==> step.Escaping?)
      requires o == if thrown then Thrown(session.Now()) else OutcomeNow(step)
      requires o.Unsettled? ==> AllQuiet(o.view.log)
      modifies this`cancelled, session
      ensures session.committed == Theorems.StoredAfter(o, flagAtEnd, Crashed)
      ensures (cancelled <==> step.Broken?)
      ensures session.events == old(session.events) + if cancelled then [CanceledEvent] else []
    {
      cancelled := step.Broken?;
      if !thrown && !finalized {
        NotSettled(session.log);
        session.OrphanFinalize(cancelled || flagAtEnd, Crashed, tally, loops);
      }
      if cancelled {
        session.Yield(CanceledEvent);
      }
    }

    /** The execution with its `finally` block; `o` is what the specification makes of it. */
    method TryFinally(text: string, flagAtEnd: bool) returns (ghost o: Outcome)
      requires session.Valid() && session.Now() == View(session.start, session.start, []) && !finalized
      requires State() == FirstState(session.Now())
      requires SimpleSpec.Execute(world, maxTokens, session.start, text).Unsettled? ==>
                 AllQuiet(SimpleSpec.Execute(world, maxTokens, session.start, text).view.log)
      modifies this, session
      ensures o == SimpleSpec.Execute(world, maxTokens, session.start, text)
      ensures session.committed == Theorems.StoredAfter(o, flagAtEnd, Crashed)
      ensures (finalized <==> o.Settled?) && (cancelled <==> o.Unsettled? && o.cancelled)
      ensures session.events == Yielded(o)
    {
      var step, thrown := Body(text);
      o := if thrown then Thrown(session.Now()) else OutcomeNow(step);
      Finish(step, thrown, flagAtEnd, o);
    }

    /** `run`: whatever the world does, what it leaves is what the specification says, and is `Delivered`. */
    method Run(text: string, flagAtEnd: bool)
      requires session.Valid() && session.Now() == View(session.start, session.start, []) && !finalized
      requires State() == FirstState(session.Now())
      requires Theorems.FreshStart(session.start) || Facts.PausedOk(session.start)
      modifies this, session
      ensures session.committed == Theorems.StoredAfter(
                SimpleSpec.Execute(world, maxTokens, session.start, text), flagAtEnd, Crashed)
      ensures Delivered(session.start, session.committed, session.events, finalized, cancelled)
    {
      Promises(session.start, world, maxTokens, text, flagAtEnd);
      ghost var o := TryFinally(text, flagAtEnd);
    }
  }

  /** What an execution leaves: a paused run a resume can pick up, or a run that is over. One that settled inline has
      a stream that agrees with the stored row; one that was cancelled says so last. */
  ghost predicate Delivered(start: Db, db: Db, events: seq<Event>, settled: bool, cancelled: bool) {
    && (Facts.PausedOk(db) || Theorems.Ended(db)) && Theorems.PairsWith(start, db)
    && (settled ==> if db.run.status == Paused then Facts.PausedStream(events, db.run) else StreamAgrees(events, db.run))
    && (cancelled ==> db.run.status == Cancelled && events != [] && events[|events| - 1] == CanceledEvent)
  }

  /** The events an execution has yielded when it is over. */
  function Yielded(o: Outcome): seq<Event> {
    EventsOf(o.view.log) + if o.Unsettled? && o.cancelled then [CanceledEvent] else []
  }

  /** Every execution delivers. */
  lemma Promises(start: Db, w: World, maxTokens: int, text: string, flagAtEnd: bool)
    requires Theorems.FreshStart(start) || Facts.PausedOk(start)
    ensures var o := SimpleSpec.Execute(w, maxTokens, start, text);
            && Delivered(start, Theorems.StoredAfter(o, flagAtEnd, Crashed), Yielded(o), o.Settled?, o.Unsettled? && o.cancelled)
            && (o.Unsettled? ==> AllQuiet(o.view.log))
  {
    var o := SimpleSpec.Execute(w, maxTokens, start, text);
    Theorems.ExecutionEndsWell(start, w, maxTokens, text);
    Theorems.ThrownMeansPaused(start, w, maxTokens, text);
    OutcomeDelivers(start, w, o, flagAtEnd);
  }

  /** An interrupted execution: the `finally` block writes, and a cancel is said last. */
  lemma UnsettledDelivers(start: Db, o: Outcome, flagAtEnd: bool)
    requires o.Unsettled? && AllQuiet(o.view.log)
    requires Theorems.PairsWith(start, Theorems.StoredAfter(o, flagAtEnd, Crashed))
    requires Theorems.Ended(Theorems.StoredAfter(o, flagAtEnd, Crashed))
    ensures Delivered(start, Theorems.StoredAfter(o, flagAtEnd, Crashed), Yielded(o), false, o.cancelled)
  {
    NotSettled(o.view.log);
  }

  /** An interrupted execution is closed by the `finally` block, never left paused. */
  lemma UnsettledEnds(start: Db, w: World, o: Outcome, flagAtEnd: bool)
    requires Facts.OutcomeOk(start, w, o) && o.Unsettled?
    ensures AllQuiet(o.view.log) && Theorems.Ended(Theorems.StoredAfter(o, flagAtEnd, Crashed))
    ensures Theorems.PairsWith(start, Theorems.StoredAfter(o, flagAtEnd, Crashed))
  {
    Theorems.StoredAfterOk(start, w, o, flagAtEnd, Crashed);
    NotSettled(o.view.log);
  }

  /** An execution that settled inline: its stream agrees with the row it stored. */
  lemma SettledSays(start: Db, w: World, v: View)
    requires Facts.SettledOk(start, w, v)
    ensures if v.committed.run.status == Paused then Facts.PausedStream(EventsOf(v.log), v.committed.run)
            else StreamAgrees(EventsOf(v.log), v.committed.run)
  {
  }

  lemma SettledDelivers(start: Db, w: World, v: View, flagAtEnd: bool)
    requires Facts.SettledOk(start, w, v)
    ensures Delivered(start, Theorems.StoredAfter(Settled(v), flagAtEnd, Crashed), Yielded(Settled(v)), true, false)
  {
    Theorems.StoredAfterOk(start, w, Settled(v), flagAtEnd, Crashed);
    SettledSays(start, w, v);
    YieldedInline(Settled(v));
  }

  lemma YieldedInline(o: Outcome)
    requires !o.Unsettled?
    ensures Yielded(o) == EventsOf(o.view.log)
  {
  }

  lemma ThrownDelivers(start: Db, w: World, v: View, flagAtEnd: bool)
    requires Facts.OutcomeOk(start, w, Thrown(v)) && Facts.PausedOk(start)
    ensures Delivered(start, Theorems.StoredAfter(Thrown(v), flagAtEnd, Crashed), Yielded(Thrown(v)), false, false)
  {
    Theorems.StoredAfterOk(start, w, Thrown(v), flagAtEnd, Crashed);
  }

  lemma OutcomeDelivers(start: Db, w: World, o: Outcome, flagAtEnd: bool)
    requires Facts.OutcomeOk(start, w, o) && (o.Thrown? ==> Facts.PausedOk(start))
    ensures Delivered(start, Theorems.StoredAfter(o, flagAtEnd, Crashed), Yielded(o), o.Settled?, o.Unsettled? && o.cancelled)
    ensures o.Unsettled? ==> AllQuiet(o.view.log)
  {
    match o {
      case Settled(v) => SettledDelivers(start, w, v, flagAtEnd);
      case Unsettled(_, _, _, _) =>
        UnsettledEnds(start, w, o, flagAtEnd);
        UnsettledDelivers(start, o, flagAtEnd);
      case Thrown(v) => ThrownDelivers(start, w, v, flagAtEnd);
    }
  }
}
