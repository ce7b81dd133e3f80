/** The request's database session and event stream: the only place where a run changes the world. Every
    method performs one `Action`, which it also appends to the ghost log. */
module SessionModule {
  import opened Basics
  import opened Trace
  import opened Protocol

  class Session {
    ghost const start: Db
    ghost var log: seq<Action>
    var run: RunRow
    var rows: seq<StepRow>
    var messages: seq<Message>
    var committed: Db
    var events: seq<Event>

    ghost function Now(): View
      reads this
    {
      View(Db(run, rows, messages), committed, log)
    }

    ghost predicate Valid()
      reads this
    {
      events == EventsOf(log)
    }

    /** A request-scoped session over stored data, with nothing uncommitted. */
    constructor (db: Db)
      ensures Valid() && start == db && Now() == View(db, db, []) && events == []
    {
      start := db;
      log := [];
      run, rows, messages := db.run, db.rows, db.messages;
      committed := db;
      events := [];
    }

    /** `provider.chat` was called. */
    method Chat()
      requires Valid()
      modifies this
      ensures Valid() && Now() == Do(old(Now()), Ask)
    {
      EventsSnoc(log, Ask);
      log := log + [Ask];
    }

    /** A tool was invoked. */
    method Tool(call: ToolCall)
      requires Valid()
      modifies this
      ensures Valid() && Now() == Do(old(Now()), Invoke(call))
    {
      EventsSnoc(log, Invoke(call));
      log := log + [Invoke(call)];
    }

    /** `yield` of one encoded event. */
    method Yield(e: Event)
      requires Valid()
      modifies this
      ensures Valid() && Now() == Do(old(Now()), Emit(e))
      ensures events == old(events) + [e]
    {
      EventsSnoc(log, Emit(e));
      events := events + [e];
      log := log + [Emit(e)];
    }

    /** `append_run_step`: insert and flush. */
    method AppendRunStep(row: StepRow)
      requires Valid()
      modifies this
      ensures Valid() && Now() == Do(old(Now()), AddRow(row))
    {
      EventsSnoc(log, AddRow(row));
      rows := rows + [row];
      log := log + [AddRow(row)];
    }

    /** The UPDATE keyed by sequence number, row by row. */
    method UpdateRunStep(seqNo: nat, patch: Patch)
      requires Valid()
      modifies this
      ensures Valid() && Now() == Do(old(Now()), PatchRow(seqNo, patch))
    {
      EventsSnoc(log, PatchRow(seqNo, patch));
      ghost var before := rows;
      for i := 0 to |rows|
        invariant |rows| == |before| && rows[i..] == before[i..]
        invariant forall j :: 0 <= j < i ==> rows[j] == UpdateWhere(before, seqNo, patch)[j]
        invariant run == old(run) && messages == old(messages) && committed == old(committed)
        invariant log == old(log) && events == old(events)
      {
        assert rows[i] == before[i];
        if rows[i].seqNo == seqNo {
          rows := rows[i := Patched(rows[i], patch)];
        }
      }
      assert rows == UpdateWhere(before, seqNo, patch);
      log := log + [PatchRow(seqNo, patch)];
    }

    /** `append_message`; `full` stands for `ContextFullError`. */
    method AppendMessage(role: Speaker, content: string, calls: seq<ToolCall>, callId: Option<string>) returns (full: bool)
      requires Valid()
      modifies this
      ensures Valid() && (full <==> old(|messages|) >= HARD_CAP)
      ensures full ==> Now() == old(Now())
      ensures !full ==> Now() == Do(old(Now()), AddMessage(role, content, calls, callId))
    {
      var current := |messages|;
      if current >= HARD_CAP {
        return true;
      }
      ghost var a := AddMessage(role, content, calls, callId);
      EventsSnoc(log, a);
      messages := messages + [Message(role, content, calls, callId, current)];
      log := log + [a];
      return false;
    }

    /** `ctx.run.plan = payload` and the flush. */
    method StampPlan(payload: Json)
      requires Valid()
      modifies this
      ensures Valid() && Now() == Do(old(Now()), SetPlan(payload))
    {
      EventsSnoc(log, SetPlan(payload));
      run := run.(plan := Some(payload));
      log := log + [SetPlan(payload)];
    }

    method CommitAll()
      requires Valid()
      modifies this
      ensures Valid() && Now() == Do(old(Now()), Commit)
    {
      EventsSnoc(log, Commit);
      committed := Db(run, rows, messages);
      log := log + [Commit];
    }

    /** `finalize_run` and its commit. */
    method FinalizeRun(c: Closing)
      requires Valid()
      modifies this
      ensures Valid() && Now() == Do(old(Now()), Finalize(c))
    {
      EventsSnoc(log, Finalize(c));
      run := run.(status := c.status, reason := c.reason, answer := c.answer);
      run := run.(tally := c.tally, loops := c.loops, closed := true);
      committed := Db(run, rows, messages);
      log := log + [Finalize(c)];
    }

    /** `pause_run_for_input` and its commit. */
    method PauseRun(p: Pending)
      requires Valid()
      modifies this
      ensures Valid() && Now() == Do(old(Now()), Pause(p))
    {
      EventsSnoc(log, Pause(p));
      run := run.(status := Paused, reason := Some(InputRequired), pending := Some(p));
      committed := Db(run, rows, messages);
      log := log + [Pause(p)];
    }

    /** `resume_run`. */
    method ResumeRun()
      requires Valid()
      modifies this
      ensures Valid() && Now() == Do(old(Now()), Resume)
    {
      EventsSnoc(log, Resume);
      run := run.(status := Running, reason := None, pending := None);
      log := log + [Resume];
    }

    /** An inline exit: the terminal row, its commit, then the closing events. */
    method Close(c: Closing)
      requires Valid() && WellFormed(c)
      modifies this
      ensures Valid() && Now() == CloseView(old(Now()), c)
    {
      FinalizeRun(c);
      match c.status {
        case Completed =>
          Yield(Artifact(c.answer.value));
          Yield(CompletedEvent);
        case Failed => Yield(FailedEvent(c.reason.value));
        case Cancelled => Yield(CanceledEvent);
        case _ =>
      }
    }

    /** `schedule_orphan_finalize`: a fresh session reads and writes committed data; what this session had
        not committed is lost. */
    method OrphanFinalize(flagSet: bool, why: Interruption, tally: Tally, loops: nat)
      modifies this
      ensures committed == old(committed).(run := Finalized(old(committed).run, OrphanClosing(flagSet, why, tally, loops)))
      ensures events == old(events) && log == old(log)
    {
      var c := OrphanClosing(flagSet, why, tally, loops);
      committed := committed.(run := Finalized(committed.run, c));
    }
  }
}
