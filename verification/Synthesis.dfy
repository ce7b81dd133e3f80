/** The budget check in front of a forced synthesis, and the text blobs it is fed. */
module Synthesis {
  import opened Basics
  import opened Stages

  /** `estimate_synthesis_extra_tokens`. */
  function EstimateExtraTokens(chars: int): (r: int) {
    (if chars < 0 then 0 else chars) / 4
  }

  /** `should_skip_synthesis`; `int(max_tokens * 1.5)` of a positive budget is three halves, rounded down. */
  predicate SkipSynthesis(cumulative: int, maxTokens: int, chars: int) {
    maxTokens > 0 && cumulative + EstimateExtraTokens(chars) > 3 * maxTokens / 2
  }

  /** Synthesis goes ahead exactly while twice the projected total stays within three budgets. */
  lemma SkipMeansOverBudget(cumulative: int, maxTokens: int, chars: nat)
    requires maxTokens >= 1
    ensures SkipSynthesis(cumulative, maxTokens, chars) <==> 2 * (cumulative + chars / 4) > 3 * maxTokens
  {
  }

  function OutputLine(id: int, output: string): string {
    "step_" + Decimal(id) + ".output: " + output
  }

  function OutputLines(keys: seq<int>, outputs: map<int, string>): seq<string>
    requires forall i :: 0 <= i < |keys| ==> keys[i] in outputs
  {
    seq(|keys|, i requires 0 <= i < |keys| => OutputLine(keys[i], outputs[keys[i]]))
  }

  /** `_format_step_outputs`: one line per recorded step, in id order. */
  ghost function FormatOutputs(outputs: map<int, string>): string {
    var keys := AscendingKeys(outputs.Keys);
    assert forall i :: 0 <= i < |keys| ==> keys[i] in keys;
    JoinLines(OutputLines(keys, outputs))
  }

  method FormatStepOutputs(outputs: map<int, string>) returns (text: string)
    ensures text == FormatOutputs(outputs)
  {
    var keys := SortKeys(outputs.Keys);
    AscendingUnique(keys, AscendingKeys(outputs.Keys));
    var lines: seq<string> := [];
    for i := 0 to |keys|
      invariant |lines| == i && forall j :: 0 <= j < i ==> keys[j] in outputs && lines[j] == OutputLine(keys[j], outputs[keys[j]])
    {
      assert keys[i] in keys;
      lines := lines + [OutputLine(keys[i], outputs[keys[i]])];
    }
    assert lines == OutputLines(keys, outputs);
    text := JoinLines(lines);
  }
}
