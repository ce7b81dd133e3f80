/** What one run leaves behind: its row, its step rows, its conversation, its event stream.
    Every effect is an `Action`; a `View` is the database (as the request's session sees it and
    as it is committed) together with the log of the actions so far. */
module Trace {
  import opened Basics
  import opened Sequences

  // ----- run row ---------------------------------------------------------------------------

  datatype Status = Running | Paused | Completed | Failed | Cancelled

  predicate Terminal(s: Status) {
    s.Completed? || s.Failed? || s.Cancelled?
  }

  datatype Reason =
    | ContextFull | LlmProviderError | PlanningFailed | StepFailed | ReplanExceeded
    | GuardrailNoSynthesis | GuardrailExceeded | MaxTokens | MaxLoops | ContentFilter | EmptyResponse
    | EmbeddingUnavailable | FinalAnswer | Similarity | CancelRequested | ClientDisconnected
    | InternalError | Abandoned | InputRequired

  /** Prompt and completion tokens; the two columns of a row are always written together. */
  datatype Usage = Usage(tokensIn: int, tokensOut: int)

  const NO_USAGE := Usage(0, 0)

  function Plus(a: Usage, b: Usage): Usage {
    Usage(a.tokensIn + b.tokensIn, a.tokensOut + b.tokensOut)
  }

  predicate NonNegative(u: Usage) {
    u.tokensIn >= 0 && u.tokensOut >= 0
  }

  predicate AtLeast(a: Usage, b: Usage) {
    a.tokensIn >= b.tokensIn && a.tokensOut >= b.tokensOut
  }

  lemma PlusNothing(u: Usage)
    ensures Plus(u, NO_USAGE) == u
  {
  }

  /** Running totals of a run: tokens, and a cost that stays absent until a reply carries one. */
  datatype Tally = Tally(usage: Usage, cost: Option<real>)

  const ZERO_TALLY := Tally(NO_USAGE, None)

  function AddCost(total: Option<real>, cost: Option<real>): Option<real> {
    match cost
    case None => total
    case Some(c) => Some((if total.Some? then total.value else 0.0) + c)
  }

  function Charge(t: Tally, usage: Usage, cost: Option<real>): Tally {
    Tally(Plus(t.usage, usage), AddCost(t.cost, cost))
  }

  function SumCosts(costs: seq<Option<real>>): real {
    if costs == [] then 0.0
    else SumCosts(costs[..|costs| - 1]) + if costs[|costs| - 1].Some? then costs[|costs| - 1].value else 0.0
  }

  /** A total is the sum of the costs reported, and absent exactly when none was. */
  predicate CostsAddUp(total: Option<real>, costs: seq<Option<real>>) {
    && (total.None? <==> forall i :: 0 <= i < |costs| ==> costs[i].None?)
    && (total.Some? ==> total.value == SumCosts(costs))
  }

  lemma {:induction false} NoCosts(costs: seq<Option<real>>)
    requires forall i :: 0 <= i < |costs| ==> costs[i].None?
    ensures SumCosts(costs) == 0.0
  {
    if costs != [] {
      NoCosts(costs[..|costs| - 1]);
    }
  }

  lemma {:induction false} CostsConcat(a: seq<Option<real>>, b: seq<Option<real>>)
    ensures SumCosts(a + b) == SumCosts(a) + SumCosts(b)
    decreases |b|
  {
    if b == [] {
      assert a + b == a;
    } else {
      CostsConcat(a, b[..|b| - 1]);
      Snoc(a + b[..|b| - 1], b[|b| - 1]);
      assert a + b == (a + b[..|b| - 1]) + [b[|b| - 1]];
    }
  }

  /** A total charged with another is the sum over both lists. */
  lemma CostsMerged(total: Option<real>, costs: seq<Option<real>>, more: Option<real>, list: seq<Option<real>>)
    requires CostsAddUp(total, costs) && CostsAddUp(more, list)
    ensures CostsAddUp(AddCost(total, more), costs + list)
  {
    var all := costs + list;
    CostsConcat(costs, list);
    assert forall i :: 0 <= i < |costs| ==> all[i] == costs[i];
    assert forall i :: 0 <= i < |list| ==> all[|costs| + i] == list[i];
    if total.None? {
      NoCosts(costs);
    }
    if more.None? {
      NoCosts(list);
    }
  }

  lemma OneCost(cost: Option<real>)
    ensures CostsAddUp(cost, [cost])
  {
    var none: seq<Option<real>> := [];
    Snoc(none, cost);
    assert none + [cost] == [cost] && SumCosts(none) == 0.0;
    assert [cost][0] == cost;
  }

  /** Charging one reply more keeps the total the sum of the costs reported. */
  lemma CostAdded(total: Option<real>, costs: seq<Option<real>>, cost: Option<real>)
    requires CostsAddUp(total, costs)
    ensures CostsAddUp(AddCost(total, cost), costs + [cost])
  {
    OneCost(cost);
    CostsMerged(total, costs, cost, [cost]);
  }

  /** The order of the two lists does not matter. */
  lemma CostsSwapped(total: Option<real>, a: seq<Option<real>>, b: seq<Option<real>>)
    requires CostsAddUp(total, a + b)
    ensures CostsAddUp(total, b + a)
  {
    CostsConcat(a, b);
    CostsConcat(b, a);
    if total.None? {
      forall i | 0 <= i < |b + a| ensures (b + a)[i].None? {
        assert (b + a)[i] == if i < |b| then (a + b)[|a| + i] else (a + b)[i - |b|];
      }
    } else {
      var k :| 0 <= k < |a + b| && (a + b)[k].Some?;
      assert (a + b)[k] == if k < |a| then (b + a)[|b| + k] else (b + a)[k - |a|];
    }
  }

  datatype ToolCall = ToolCall(id: string, name: string, arguments: string)

  datatype ToolPayload = ToolPayload(isError: bool, content: string)

  /** The snapshot a paused Simple run waits with. */
  datatype Pending = Pending(calls: seq<ToolCall>, runSeq: nat, loops: nat, usage: Usage)

  datatype RunRow = RunRow(
    status: Status,
    reason: Option<Reason>,
    answer: Option<string>,
    tally: Tally,
    loops: nat,
    closed: bool,               // completed_at is set
    plan: Option<Json>,
    pending: Option<Pending>)

  const FRESH_RUN := RunRow(Running, None, None, ZERO_TALLY, 0, false, None, None)

  // ----- step rows -------------------------------------------------------------------------

  datatype Role =
    | PlanRole | StepResult | Synthesis | Thought | ActionRole | Observation | ErrorRole | Assistant | ToolRole

  datatype StepStatus = Success | Failure | ReplanRequested

  datatype StepMark = StepMark(stage: int, id: int, status: StepStatus)

  datatype RowArgs = NoArgs | JsonArgs(json: Json) | CallArgs(calls: seq<ToolCall>)

  datatype StepRow = StepRow(
    seqNo: nat,
    role: Role,
    content: Option<string>,
    toolName: Option<string>,
    args: RowArgs,
    result: Option<ToolPayload>,
    usage: Option<Usage>,
    similarity: Option<real>,
    mark: Option<StepMark>)

  /** A row without tool data. */
  function TextRow(seqNo: nat, role: Role, content: string, usage: Usage): StepRow {
    StepRow(seqNo, role, Some(content), None, NoArgs, None, Some(usage), None, None)
  }

  /** The columns a keyed UPDATE writes after the insert. */
  datatype Patch = SetMark(mark: StepMark) | SetSimilarity(value: real)

  function Patched(row: StepRow, p: Patch): StepRow {
    match p
    case SetMark(mark) => row.(mark := Some(mark))
    case SetSimilarity(value) => row.(similarity := Some(value))
  }

  /** `UPDATE agent_run_steps SET ... WHERE run_id = :run AND seq = :seq`: every matching row. */
  function UpdateWhere(rows: seq<StepRow>, seqNo: nat, p: Patch): seq<StepRow> {
    seq(|rows|, i requires 0 <= i < |rows| => if rows[i].seqNo == seqNo then Patched(rows[i], p) else rows[i])
  }

  // ----- conversation ----------------------------------------------------------------------

  datatype Speaker = System | User | AssistantSpeaker | ToolSpeaker

  datatype Message = Message(role: Speaker, content: string, calls: seq<ToolCall>, callId: Option<string>, position: nat)

  const HARD_CAP: nat := 1000
  const SOFT_CAP: nat := 50

  // ----- events ----------------------------------------------------------------------------

  datatype Note =
    | Plain | Planning | Executing(stage: int, ids: seq<int>) | Synthesizing
    | Phase(loop: nat, phase: string) | Reasoning(text: string)

  datatype Event =
    | Working(note: Note)
    | Artifact(text: string)
    | CompletedEvent
    | FailedEvent(reason: Reason)
    | CanceledEvent
    | InputRequiredEvent(call: ToolCall)

  /** The `final` flag the emitter puts on a status update. */
  predicate IsFinal(e: Event) {
    e.CompletedEvent? || e.FailedEvent? || e.CanceledEvent?
  }

  /** Task states of the A2A protocol. */
  datatype TaskState = StateWorking | StateInputRequired | StateCompleted | StateFailed | StateCanceled

  function TaskStateOf(s: Status): TaskState {
    match s
    case Running => StateWorking
    case Paused => StateInputRequired
    case Completed => StateCompleted
    case Failed => StateFailed
    case Cancelled => StateCanceled
  }

  function EventState(e: Event): TaskState {
    match e
    case Working(_) => StateWorking
    case Artifact(_) => StateWorking
    case CompletedEvent => StateCompleted
    case FailedEvent(_) => StateFailed
    case CanceledEvent => StateCanceled
    case InputRequiredEvent(_) => StateInputRequired
  }

  // ----- actions ---------------------------------------------------------------------------

  datatype Closing = Closing(status: Status, reason: Option<Reason>, answer: Option<string>, tally: Tally, loops: nat)

  datatype Action =
    | Ask                                   // one provider.chat call
    | Invoke(call: ToolCall)                // one tool invocation
    | Emit(event: Event)
    | AddRow(row: StepRow)
    | PatchRow(seqNo: nat, patch: Patch)
    | AddMessage(role: Speaker, content: string, calls: seq<ToolCall>, callId: Option<string>)
    | SetPlan(payload: Json)
    | Commit
    | Finalize(closing: Closing)            // finalize_run and the commit after it
    | Pause(pending: Pending)               // pause_run_for_input and the commit after it
    | Resume                                // resume_run

  datatype Db = Db(run: RunRow, rows: seq<StepRow>, messages: seq<Message>)

  function Finalized(run: RunRow, c: Closing): RunRow {
    run.(status := c.status, reason := c.reason, answer := c.answer, tally := c.tally, loops := c.loops, closed := true)
  }

  /** The row of a run that waits for input, and of one that goes on. */
  function PausedRow(run: RunRow, p: Pending): RunRow {
    run.(status := Paused, reason := Some(InputRequired), pending := Some(p))
  }

  function ResumedRow(run: RunRow): RunRow {
    run.(status := Running, reason := None, pending := None)
  }

  function Apply(db: Db, a: Action): Db {
    match a
    case Ask => db
    case Invoke(_) => db
    case Emit(_) => db
    case AddRow(row) => db.(rows := db.rows + [row])
    case PatchRow(seqNo, patch) => db.(rows := UpdateWhere(db.rows, seqNo, patch))
    case AddMessage(role, content, calls, callId) =>
      db.(messages := db.messages + [Message(role, content, calls, callId, |db.messages|)])
    case SetPlan(payload) => db.(run := db.run.(plan := Some(payload)))
    case Commit => db
    case Finalize(c) => db.(run := Finalized(db.run, c))
    case Pause(p) => db.(run := PausedRow(db.run, p))
    case Resume => db.(run := ResumedRow(db.run))
  }

  predicate Commits(a: Action) {
    a.Commit? || a.Finalize? || a.Pause?
  }

  datatype View = View(db: Db, committed: Db, log: seq<Action>)

  function Do(v: View, a: Action): View {
    var db := Apply(v.db, a);
    View(db, if Commits(a) then db else v.committed, v.log + [a])
  }

  function DoAll(v: View, actions: seq<Action>): View
    decreases |actions|
  {
    if actions == [] then v else DoAll(Do(v, actions[0]), actions[1..])
  }

  /** The view a log leads to from a database with nothing uncommitted. */
  function Replay(start: Db, log: seq<Action>): View {
    if log == [] then View(start, start, []) else Do(Replay(start, log[..|log| - 1]), log[|log| - 1])
  }

  /** An UPDATE of a row comes right after the insert of that row. */
  predicate MayFollow(log: seq<Action>, a: Action) {
    a.PatchRow? ==> log != [] && log[|log| - 1].AddRow? && log[|log| - 1].row.seqNo == a.seqNo
  }

  predicate PatchesFollow(log: seq<Action>) {
    log == [] || (PatchesFollow(log[..|log| - 1]) && MayFollow(log[..|log| - 1], log[|log| - 1]))
  }

  /** The view is exactly what its own log produces, and no row is updated but the one just inserted. */
  predicate Genuine(start: Db, v: View) {
    v == Replay(start, v.log) && PatchesFollow(v.log)
  }

  function EventsOf(log: seq<Action>): seq<Event> {
    if log == [] then []
    else
      EventsOf(log[..|log| - 1]) + (if log[|log| - 1].Emit? then [log[|log| - 1].event] else [])
  }

  /** Number of provider calls in a log. */
  function Asks(log: seq<Action>): nat {
    if log == [] then 0 else Asks(log[..|log| - 1]) + (if log[|log| - 1].Ask? then 1 else 0)
  }

  // ----- row books -------------------------------------------------------------------------

  /** Row sequence numbers are exactly 1..n, in order. */
  predicate Numbered(rows: seq<StepRow>) {
    forall i :: 0 <= i < |rows| ==> rows[i].seqNo == i + 1
  }

  function UsageOf(row: StepRow): Usage {
    if row.usage.Some? then row.usage.value else NO_USAGE
  }

  function SumUsage(rows: seq<StepRow>): Usage {
    if rows == [] then NO_USAGE else Plus(SumUsage(rows[..|rows| - 1]), UsageOf(rows[|rows| - 1]))
  }

  // ----- lemmas ----------------------------------------------------------------------------

  lemma GenuineDo(start: Db, v: View, a: Action)
    requires Genuine(start, v) && MayFollow(v.log, a)
    ensures Genuine(start, Do(v, a))
  {
    Snoc(v.log, a);
  }

  lemma AsksSnoc(log: seq<Action>, a: Action)
    ensures Asks(log + [a]) == Asks(log) + if a.Ask? then 1 else 0
  {
    Snoc(log, a);
  }

  lemma EventsSnoc(log: seq<Action>, a: Action)
    ensures EventsOf(log + [a]) == EventsOf(log) + if a.Emit? then [a.event] else []
  {
    Snoc(log, a);
  }

  lemma SumSnoc(rows: seq<StepRow>, row: StepRow)
    ensures SumUsage(rows + [row]) == Plus(SumUsage(rows), UsageOf(row))
  {
    Snoc(rows, row);
  }

  lemma {:induction false} SumConcat(a: seq<StepRow>, b: seq<StepRow>)
    ensures SumUsage(a + b) == Plus(SumUsage(a), SumUsage(b))
    decreases |b|
  {
    if b == [] {
      assert a + b == a;
    } else {
      var init, last := b[..|b| - 1], b[|b| - 1];
      SumConcat(a, init);
      SumSnoc(a + init, last);
      InitLast(b);
      Assoc(a, init, [last]);
    }
  }

  /** With rows numbered 1..n, an insert at n + 1 followed by the UPDATE keyed by that number changes
      the new row and no other. */
  lemma PatchHitsOnlyTheNewRow(v: View, row: StepRow, p: Patch)
    requires Numbered(v.db.rows) && row.seqNo == |v.db.rows| + 1
    ensures Do(Do(v, AddRow(row)), PatchRow(row.seqNo, p)).db.rows == v.db.rows + [Patched(row, p)]
    ensures Numbered(v.db.rows + [Patched(row, p)])
  {
    var after := Do(Do(v, AddRow(row)), PatchRow(row.seqNo, p)).db.rows;
    assert |after| == |v.db.rows| + 1;
    forall i | 0 <= i < |after| ensures after[i] == (v.db.rows + [Patched(row, p)])[i] {
    }
  }
}
