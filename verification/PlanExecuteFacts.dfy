/** What a Plan & Execute run keeps: the trace, the totals, the recorded outputs, the dataflow. */
module PlanExecuteFacts {
  import opened Basics
  import opened Sequences
  import opened Trace
  import opened Protocol
  import opened Invariants
  import opened Tools
  import opened PlanValidator
  import opened Stages
  import opened Substitution
  import opened StepRunner
  import opened PlanExecuteSpec

  // ----- the trace language ----------------------------------------------------------------

  /** Reading a trace left to right: (plan step_result*)+ synthesis?, where within one plan segment the pairs
      (stage, id) strictly increase. */
  datatype TracePhase = AtStart | InPlan(stage: int, id: int) | AfterSynthesis | Broken

  function NextPhase(p: TracePhase, row: StepRow): TracePhase {
    match row.role
    case PlanRole => if p.AtStart? || p.InPlan? then InPlan(0, 0) else Broken
    case StepResult =>
      if p.InPlan? && row.mark.Some?
         && (p.stage < row.mark.value.stage || (p.stage == row.mark.value.stage && p.id < row.mark.value.id))
      then InPlan(row.mark.value.stage, row.mark.value.id)
      else Broken
    case Synthesis => if p.InPlan? then AfterSynthesis else Broken
    case _ => Broken
  }

  function PhaseOf(rows: seq<StepRow>): TracePhase {
    if rows == [] then AtStart else NextPhase(PhaseOf(rows[..|rows| - 1]), rows[|rows| - 1])
  }

  function PlanRows(rows: seq<StepRow>): nat {
    if rows == [] then 0 else PlanRows(rows[..|rows| - 1]) + (if rows[|rows| - 1].role.PlanRole? then 1 else 0)
  }

  lemma PhaseSnoc(rows: seq<StepRow>, row: StepRow)
    ensures PhaseOf(rows + [row]) == NextPhase(PhaseOf(rows), row)
    ensures PlanRows(rows + [row]) == PlanRows(rows) + if row.role.PlanRole? then 1 else 0
  {
    Snoc(rows, row);
  }

  // ----- recorded outputs ------------------------------------------------------------------

  predicate HasStatus(row: StepRow, s: StepStatus) {
    row.mark.Some? && row.mark.value.status == s
  }

  /** No step id has two success rows. */
  predicate OneSuccessPerId(rows: seq<StepRow>) {
    forall i, j :: 0 <= i < j < |rows| && HasStatus(rows[i], Success) && HasStatus(rows[j], Success) ==>
      rows[i].mark.value.id != rows[j].mark.value.id
  }

  /** Some success row of this step holds this text. */
  predicate SuccessRow(rows: seq<StepRow>, id: int, text: string) {
    exists i :: 0 <= i < |rows| && HasStatus(rows[i], Success) && rows[i].mark.value.id == id && rows[i].content == Some(text)
  }

  /** Every recorded output is the content of a success row. */
  predicate OutputsRecorded(rows: seq<StepRow>, outputs: map<int, string>) {
    forall id :: id in outputs ==> SuccessRow(rows, id, outputs[id])
  }

  /** Success rows and recorded outputs are the same thing. */
  predicate Recorded(rows: seq<StepRow>, outputs: map<int, string>) {
    && OneSuccessPerId(rows)
    && OutputsRecorded(rows, outputs)
    && forall i :: 0 <= i < |rows| && HasStatus(rows[i], Success) ==> rows[i].mark.value.id in outputs
  }

  predicate Submap(a: map<int, string>, b: map<int, string>) {
    forall k :: k in a ==> k in b && b[k] == a[k]
  }

  // ----- dataflow --------------------------------------------------------------------------

  /** A step begins with an output at hand for each of its dependencies, and those outputs are never changed. */
  predicate Flows(starts: seq<Start>, outputs: map<int, string>) {
    forall i :: 0 <= i < |starts| ==>
      (forall d :: d in starts[i].step.dependsOn ==> d in starts[i].outputs) && Submap(starts[i].outputs, outputs)
  }

  /** The row is the result of that start: its id and tool, and its arguments resolved at that moment. */
  predicate RowOfStart(row: StepRow, st: Start) {
    && row.mark.Some? && row.mark.value.id == st.step.id && row.mark.value.stage == st.step.stage
    && row.toolName == Some(st.step.tool)
    && row.args == JsonArgs(JObj(SubstituteArgs(st.step.args, st.outputs)))
  }

  predicate Started(row: StepRow, starts: seq<Start>) {
    exists j :: 0 <= j < |starts| && RowOfStart(row, starts[j])
  }

  predicate FromStarts(rows: seq<StepRow>, starts: seq<Start>) {
    forall i :: 0 <= i < |rows| && rows[i].role.StepResult? ==> Started(rows[i], starts)
  }

  predicate NoFailures(rows: seq<StepRow>) {
    forall i :: 0 <= i < |rows| ==> !HasStatus(rows[i], Failure)
  }

  // ----- what holds at every exit of the executing phase -----------------------------------

  predicate Sane(start: Db, b: Books) {
    && Calm(start, b.view)
    && Balanced(b.view, b.tally.usage, b.runSeq, 0)
    && b.outputs.Keys == b.completed
    && OneSuccessPerId(b.view.db.rows)
    && OutputsRecorded(b.view.db.rows, b.outputs)
    && FromStarts(b.view.db.rows, b.starts)
    && Flows(b.starts, b.outputs)
    && PhaseOf(b.view.db.rows).InPlan?
    && PlanRows(b.view.db.rows) <= MAX_REPLANS + 1
  }

  /** What holds between stages. */
  predicate Good(start: Db, b: Books, replans: nat) {
    && Sane(start, b)
    && Recorded(b.view.db.rows, b.outputs)
    && NoFailures(b.view.db.rows)
    && PlanRows(b.view.db.rows) == replans + 1
  }

  // ----- one row at a time -----------------------------------------------------------------

  function MarkedRow(seqNo: nat, o: StepOutcome): StepRow {
    Patched(RowFor(seqNo, o), SetMark(MarkOf(o)))
  }

  function MarkedRows(n: nat, outs: seq<StepOutcome>): seq<StepRow>
    decreases |outs|
  {
    if outs == [] then [] else [MarkedRow(n + 1, outs[0])] + MarkedRows(n + 1, outs[1..])
  }

  lemma PersistOneRow(start: Db, b: Books, o: StepOutcome)
    requires Calm(start, b.view) && Balanced(b.view, b.tally.usage, b.runSeq, 0)
    ensures Calm(start, PersistOne(b, o).view)
    ensures Balanced(PersistOne(b, o).view, PersistOne(b, o).tally.usage, PersistOne(b, o).runSeq, 0)
    ensures PersistOne(b, o).view.db.rows == b.view.db.rows + [MarkedRow(b.runSeq + 1, o)]
    ensures PersistOne(b, o).view.db.run == b.view.db.run
  {
    var n := b.runSeq + 1;
    var a1, a2 := AddRow(RowFor(n, o)), PatchRow(n, SetMark(MarkOf(o)));
    CalmDo(start, b.view, a1);
    CalmDo(start, Do(b.view, a1), a2);
    PatchHitsOnlyTheNewRow(b.view, RowFor(n, o), SetMark(MarkOf(o)));
    SumSnoc(b.view.db.rows, MarkedRow(n, o));
  }

  lemma {:induction false} PersistAllRows(start: Db, b: Books, outs: seq<StepOutcome>)
    requires Calm(start, b.view) && Balanced(b.view, b.tally.usage, b.runSeq, 0)
    ensures var b' := PersistAll(b, outs);
            && Calm(start, b'.view) && Balanced(b'.view, b'.tally.usage, b'.runSeq, 0)
            && b'.view.db.rows == b.view.db.rows + MarkedRows(b.runSeq, outs)
            && b'.outputs == b.outputs && b'.completed == b.completed && b'.starts == b.starts
    decreases |outs|
  {
    if outs == [] {
      assert b.view.db.rows + [] == b.view.db.rows;
    } else {
      PersistOneRow(start, b, outs[0]);
      PersistAllRows(start, PersistOne(b, outs[0]), outs[1..]);
      Assoc(b.view.db.rows, [MarkedRow(b.runSeq + 1, outs[0])], MarkedRows(b.runSeq + 1, outs[1..]));
    }
  }

  /** The outputs after recording the successes among some outcomes. */
  function Merge(outputs: map<int, string>, outs: seq<StepOutcome>): map<int, string>
    decreases |outs|
  {
    if outs == [] then outputs
    else Merge(if outs[0].status.Success? then outputs[outs[0].step.id := outs[0].output] else outputs, outs[1..])
  }

  lemma {:induction false} RecordSuccessesMerges(b: Books, outs: seq<StepOutcome>)
    requires b.outputs.Keys == b.completed
    ensures var b' := RecordSuccesses(b, outs);
            && b'.outputs == Merge(b.outputs, outs) && b'.outputs.Keys == b'.completed
            && b'.view == b.view && b'.tally == b.tally && b'.runSeq == b.runSeq && b'.starts == b.starts
    decreases |outs|
  {
    if outs != [] {
      if outs[0].status.Success? {
        var b1 := b.(completed := b.completed + {outs[0].step.id}, outputs := b.outputs[outs[0].step.id := outs[0].output]);
        RecordSuccessesMerges(b1, outs[1..]);
      } else {
        RecordSuccessesMerges(b, outs[1..]);
      }
    }
  }

  /** Outcomes of one stage in id order, none of them recorded before. */
  predicate StageOutcomes(outs: seq<StepOutcome>, stage: int, outputs: map<int, string>) {
    && (forall i :: 0 <= i < |outs| ==> outs[i].step.stage == stage && outs[i].step.id !in outputs)
    && (forall i, j :: 0 <= i < j < |outs| ==> outs[i].step.id < outs[j].step.id)
  }

  lemma RecordedSnoc(rows: seq<StepRow>, outputs: map<int, string>, n: nat, o: StepOutcome)
    requires Recorded(rows, outputs) && o.step.id !in outputs
    ensures Recorded(rows + [MarkedRow(n, o)],
                     if o.status.Success? then outputs[o.step.id := o.output] else outputs)
  {
    var row := MarkedRow(n, o);
    var rows' := rows + [row];
    var outputs' := if o.status.Success? then outputs[o.step.id := o.output] else outputs;
    forall id | id in outputs' ensures SuccessRow(rows', id, outputs'[id]) {
      if id in outputs {
        var i :| 0 <= i < |rows| && HasStatus(rows[i], Success) && rows[i].mark.value.id == id && rows[i].content == Some(outputs[id]);
        assert rows'[i] == rows[i];
      } else {
        assert rows'[|rows|] == row;
      }
    }
  }

  /** Recording a stage: the success rows are again exactly the recorded outputs. */
  lemma {:induction false} RecordedStage(rows: seq<StepRow>, outputs: map<int, string>, n: nat, outs: seq<StepOutcome>, stage: int)
    requires Recorded(rows, outputs) && StageOutcomes(outs, stage, outputs)
    ensures Recorded(rows + MarkedRows(n, outs), Merge(outputs, outs))
    ensures Submap(outputs, Merge(outputs, outs))
    decreases |outs|
  {
    if outs == [] {
      assert rows + [] == rows;
    } else {
      RecordedSnoc(rows, outputs, n + 1, outs[0]);
      var rows1 := rows + [MarkedRow(n + 1, outs[0])];
      var outputs1 := if outs[0].status.Success? then outputs[outs[0].step.id := outs[0].output] else outputs;
      RecordedStage(rows1, outputs1, n + 1, outs[1..], stage);
      Assoc(rows, [MarkedRow(n + 1, outs[0])], MarkedRows(n + 1, outs[1..]));
    }
  }

  /** A phase from which rows of this stage may follow, with ids above `id`. */
  predicate Before(p: TracePhase, stage: int, id: int) {
    p.InPlan? && (p.stage < stage || (p.stage == stage && p.id < id))
  }

  lemma {:induction false} PhaseStage(rows: seq<StepRow>, n: nat, outs: seq<StepOutcome>, stage: int, outputs: map<int, string>)
    requires StageOutcomes(outs, stage, outputs)
    requires PhaseOf(rows).InPlan? && PhaseOf(rows).stage <= stage
    requires outs != [] ==> Before(PhaseOf(rows), stage, outs[0].step.id)
    ensures PhaseOf(rows + MarkedRows(n, outs)).InPlan? && PhaseOf(rows + MarkedRows(n, outs)).stage <= stage
    ensures PlanRows(rows + MarkedRows(n, outs)) == PlanRows(rows)
    decreases |outs|
  {
    if outs == [] {
      assert rows + [] == rows;
    } else {
      PhaseSnoc(rows, MarkedRow(n + 1, outs[0]));
      PhaseStage(rows + [MarkedRow(n + 1, outs[0])], n + 1, outs[1..], stage, outputs);
      Assoc(rows, [MarkedRow(n + 1, outs[0])], MarkedRows(n + 1, outs[1..]));
    }
  }

  lemma {:induction false} MarkedRowsAt(n: nat, outs: seq<StepOutcome>)
    ensures |MarkedRows(n, outs)| == |outs|
    ensures forall i :: 0 <= i < |outs| ==> MarkedRows(n, outs)[i] == MarkedRow(n + 1 + i, outs[i])
    decreases |outs|
  {
    if outs != [] {
      MarkedRowsAt(n + 1, outs[1..]);
      forall i | 0 <= i < |outs| ensures MarkedRows(n, outs)[i] == MarkedRow(n + 1 + i, outs[i]) {
        if i > 0 { assert outs[1..][i - 1] == outs[i]; }
      }
    }
  }

  lemma {:induction false} MergeHolds(outputs: map<int, string>, outs: seq<StepOutcome>)
    ensures forall i :: 0 <= i < |outs| && outs[i].status.Success? ==> outs[i].step.id in Merge(outputs, outs)
    ensures forall id :: id in Merge(outputs, outs) ==> id in outputs || exists i :: 0 <= i < |outs| && outs[i].step.id == id
    ensures outputs.Keys <= Merge(outputs, outs).Keys
    decreases |outs|
  {
    if outs != [] {
      var outputs1 := if outs[0].status.Success? then outputs[outs[0].step.id := outs[0].output] else outputs;
      MergeHolds(outputs1, outs[1..]);
      forall i | 0 <= i < |outs| && outs[i].status.Success? ensures outs[i].step.id in Merge(outputs, outs) {
        if i > 0 { assert outs[1..][i - 1] == outs[i]; }
      }
      forall id | id in Merge(outputs, outs)
        ensures id in outputs || exists i :: 0 <= i < |outs| && outs[i].step.id == id
      {
        if id !in outputs1 {
          var i :| 0 <= i < |outs[1..]| && outs[1..][i].step.id == id;
          assert outs[i + 1].step.id == id;
        } else if id !in outputs {
          assert outs[0].step.id == id;
        }
      }
    }
  }
}
