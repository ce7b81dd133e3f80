/** Ordering of plan steps: grouping by stage, and the id order in which a stage is recorded. */
module Stages {
  import opened Basics
  import opened PlanValidator

  // ----- strictly ascending sequences ------------------------------------------------------

  predicate Ascending(keys: seq<int>) {
    forall i, j :: 0 <= i < j < |keys| ==> keys[i] < keys[j]
  }

  /** A set of keys has only one strictly ascending listing. */
  lemma {:induction false} AscendingUnique(a: seq<int>, b: seq<int>)
    requires Ascending(a) && Ascending(b)
    requires forall k :: k in a <==> k in b
    ensures a == b
    decreases |a|
  {
    assert a != [] ==> a[0] in a && a[0] in b;
    assert b != [] ==> b[0] in b && b[0] in a;
    if a != [] && b != [] {
      assert a[0] == b[0];
      forall k ensures k in a[1..] <==> k in b[1..] {
        if k in a[1..] { assert k in a && k != a[0]; assert k in b; }
        if k in b[1..] { assert k in b && k != b[0]; assert k in a; }
      }
      AscendingUnique(a[1..], b[1..]);
      assert a == [a[0]] + a[1..] && b == [b[0]] + b[1..];
    }
  }

  function InsertKey(k: int, keys: seq<int>): seq<int> {
    if keys == [] || k < keys[0] then [k] + keys
    else if k == keys[0] then keys
    else [keys[0]] + InsertKey(k, keys[1..])
  }

  lemma {:induction false} InsertKeyElements(k: int, keys: seq<int>)
    ensures forall x :: x in InsertKey(k, keys) <==> x == k || x in keys
  {
    if keys != [] && k > keys[0] {
      assert forall x :: x in keys <==> x == keys[0] || x in keys[1..];
      InsertKeyElements(k, keys[1..]);
    }
  }

  lemma ConsAscending(k: int, keys: seq<int>)
    requires Ascending(keys) && forall x :: x in keys ==> k < x
    ensures Ascending([k] + keys)
  {
    assert forall j :: 0 <= j < |keys| ==> keys[j] in keys;
  }

  lemma {:induction false} InsertKeyAscending(k: int, keys: seq<int>)
    requires Ascending(keys)
    ensures Ascending(InsertKey(k, keys))
  {
    if keys == [] || k < keys[0] {
      ConsAscending(k, keys);
    } else if k > keys[0] {
      InsertKeyAscending(k, keys[1..]);
      InsertKeyElements(k, keys[1..]);
      ConsAscending(keys[0], InsertKey(k, keys[1..]));
    }
  }

  predicate HasStage(steps: seq<PlanStep>, k: int) {
    exists s :: s in steps && s.stage == k
  }

  /** The distinct stages of some steps, ascending. */
  function StageNumbers(steps: seq<PlanStep>): seq<int> {
    if steps == [] then [] else InsertKey(steps[0].stage, StageNumbers(steps[1..]))
  }

  lemma {:induction false} StageNumbersAre(steps: seq<PlanStep>)
    ensures Ascending(StageNumbers(steps)) && forall k :: k in StageNumbers(steps) <==> HasStage(steps, k)
  {
    if steps != [] {
      assert forall s :: s in steps <==> s == steps[0] || s in steps[1..];
      StageNumbersAre(steps[1..]);
      InsertKeyAscending(steps[0].stage, StageNumbers(steps[1..]));
      InsertKeyElements(steps[0].stage, StageNumbers(steps[1..]));
    }
  }

  /** The steps of one stage, in plan order. */
  function OfStage(steps: seq<PlanStep>, k: int): seq<PlanStep> {
    if steps == [] then []
    else OfStage(steps[..|steps| - 1], k)
         + (if steps[|steps| - 1].stage == k then [steps[|steps| - 1]] else [])
  }

  lemma {:induction false} OfStageElements(steps: seq<PlanStep>, k: int)
    ensures forall s :: s in OfStage(steps, k) <==> s in steps && s.stage == k
  {
    if steps != [] {
      OfStageElements(steps[..|steps| - 1], k);
      assert forall s :: s in steps <==> s == steps[|steps| - 1] || s in steps[..|steps| - 1];
    }
  }

  datatype Group = Group(stage: int, steps: seq<PlanStep>)

  function Groups(steps: seq<PlanStep>): seq<Group> {
    GroupsOf(steps, StageNumbers(steps))
  }

  function GroupsOf(steps: seq<PlanStep>, ks: seq<int>): seq<Group> {
    seq(|ks|, i requires 0 <= i < |ks| => Group(ks[i], OfStage(steps, ks[i])))
  }

  /** Grouping is a stable partition: stages strictly ascend, no group is empty, each group is exactly its
      stage's steps in plan order, and every step is in the group of its stage. */
  predicate StablePartition(steps: seq<PlanStep>, groups: seq<Group>) {
    && (forall i, j :: 0 <= i < j < |groups| ==> groups[i].stage < groups[j].stage)
    && (forall i :: 0 <= i < |groups| ==> groups[i].steps == OfStage(steps, groups[i].stage) && groups[i].steps != [])
    && (forall s :: s in steps ==> exists i :: 0 <= i < |groups| && groups[i].stage == s.stage && s in groups[i].steps)
  }

  lemma GroupsPartition(steps: seq<PlanStep>)
    ensures StablePartition(steps, Groups(steps))
  {
    var ks := StageNumbers(steps);
    var groups := Groups(steps);
    StageNumbersAre(steps);
    forall i | 0 <= i < |groups| ensures groups[i].steps != [] {
      assert ks[i] in ks;
      var s :| s in steps && s.stage == ks[i];
      OfStageElements(steps, ks[i]);
      assert s in OfStage(steps, ks[i]);
    }
    forall s | s in steps
      ensures exists i :: 0 <= i < |groups| && groups[i].stage == s.stage && s in groups[i].steps
    {
      assert HasStage(steps, s.stage);
      var i :| 0 <= i < |ks| && ks[i] == s.stage;
      OfStageElements(steps, ks[i]);
      assert s in groups[i].steps;
    }
  }

  /** `sorted(by_stage)`: repeatedly takes the least remaining key. */
  method SortKeys(keys: set<int>) returns (r: seq<int>)
    ensures Ascending(r) && forall k :: k in r <==> k in keys
  {
    r := [];
    var left := keys;
    while left != {}
      invariant Ascending(r) && left <= keys
      invariant forall k :: k in keys <==> k in r || k in left
      invariant forall i, k :: 0 <= i < |r| && k in left ==> r[i] < k
      decreases left
    {
      var least := LeastKey(left);
      r := r + [least];
      left := left - {least};
    }
  }

  lemma SomeKey(keys: set<int>)
    ensures keys == {} || exists k :: k in keys
  {
    if forall k :: k !in keys {
      assert keys == {};
    }
  }

  method LeastKey(keys: set<int>) returns (least: int)
    requires keys != {}
    ensures least in keys && forall k :: k in keys ==> least <= k
  {
    SomeKey(keys);
    least :| least in keys;
    var left := keys - {least};
    while left != {}
      invariant least in keys && left <= keys
      invariant forall k :: k in keys && k !in left ==> least <= k
      decreases left
    {
      SomeKey(left);
      var k :| k in left;
      if k < least { least := k; }
      left := left - {k};
    }
  }

  /** The `setdefault(...).append(...)` loop. */
  method FillByStage(steps: seq<PlanStep>) returns (byStage: map<int, seq<PlanStep>>)
    ensures ByStage(byStage, steps)
  {
    byStage := map[];
    for i := 0 to |steps|
      invariant ByStage(byStage, steps[..i])
    {
      var step := steps[i];
      var soFar := if step.stage in byStage then byStage[step.stage] else [];
      byStage := byStage[step.stage := soFar + [step]];
      if !HasStage(steps[..i], step.stage) { OfStageEmpty(steps[..i], step.stage); }
      ByStageSnoc(byStage, steps[..i], step, soFar);
      assert steps[..i + 1] == steps[..i] + [step];
    }
    assert steps[..|steps|] == steps;
  }

  /** `_group_by_stage`: fills a dictionary of lists, then reads it in key order. */
  method GroupByStage(steps: seq<PlanStep>) returns (groups: seq<Group>)
    ensures groups == Groups(steps)
  {
    var byStage := FillByStage(steps);
    var keys := SortKeys(byStage.Keys);
    StageNumbersAre(steps);
    AscendingUnique(keys, StageNumbers(steps));
    groups := [];
    for i := 0 to |keys|
      invariant |groups| == i && forall j :: 0 <= j < i ==> groups[j] == Groups(steps)[j]
    {
      assert keys[i] in keys;
      groups := groups + [Group(keys[i], byStage[keys[i]])];
    }
  }

  /** The dictionary holds exactly the stages of the steps read so far, each with its steps. */
  ghost predicate ByStage(byStage: map<int, seq<PlanStep>>, steps: seq<PlanStep>) {
    && (forall k :: k in byStage <==> HasStage(steps, k))
    && (forall k :: k in byStage ==> byStage[k] == OfStage(steps, k))
  }

  lemma ByStageSnoc(after: map<int, seq<PlanStep>>, steps: seq<PlanStep>, step: PlanStep, soFar: seq<PlanStep>)
    requires step.stage in after && after[step.stage] == soFar + [step] && soFar == OfStage(steps, step.stage)
    requires forall k :: k in after && k != step.stage ==> after[k] == OfStage(steps, k)
    requires forall k :: k != step.stage ==> (k in after <==> HasStage(steps, k))
    ensures ByStage(after, steps + [step])
  {
    var all := steps + [step];
    assert all[..|all| - 1] == steps && all[|all| - 1] == step;
    assert forall s :: s in all <==> s == step || s in steps;
    assert step in all;
    forall k ensures k in after <==> HasStage(all, k) {
    }
  }

  lemma OfStageEmpty(steps: seq<PlanStep>, k: int)
    requires !HasStage(steps, k)
    ensures OfStage(steps, k) == []
  {
    var r := OfStage(steps, k);
    OfStageElements(steps, k);
    assert forall i :: 0 <= i < |r| ==> r[i] in r;
  }

  // ----- id order --------------------------------------------------------------------------

  predicate AscendingIds(steps: seq<PlanStep>) {
    forall i, j :: 0 <= i < j < |steps| ==> steps[i].id < steps[j].id
  }

  function InsertById(s: PlanStep, steps: seq<PlanStep>): seq<PlanStep> {
    if steps == [] || s.id < steps[0].id then [s] + steps else [steps[0]] + InsertById(s, steps[1..])
  }

  /** The steps of a stage in id order. */
  function ById(steps: seq<PlanStep>): seq<PlanStep> {
    if steps == [] then [] else InsertById(steps[0], ById(steps[1..]))
  }

  lemma {:induction false} InsertByIdElements(s: PlanStep, steps: seq<PlanStep>)
    ensures |InsertById(s, steps)| == |steps| + 1 && forall x :: x in InsertById(s, steps) <==> x == s || x in steps
  {
    if steps != [] && s.id >= steps[0].id {
      assert forall x :: x in steps <==> x == steps[0] || x in steps[1..];
      InsertByIdElements(s, steps[1..]);
    }
  }

  lemma {:induction false} ByIdElements(steps: seq<PlanStep>)
    ensures |ById(steps)| == |steps| && forall x :: x in ById(steps) <==> x in steps
  {
    if steps != [] {
      assert forall x :: x in steps <==> x == steps[0] || x in steps[1..];
      ByIdElements(steps[1..]);
      InsertByIdElements(steps[0], ById(steps[1..]));
    }
  }

  lemma PrependAscending(s: PlanStep, rest: seq<PlanStep>)
    requires AscendingIds(rest) && forall x :: x in rest ==> x.id > s.id
    ensures AscendingIds([s] + rest)
  {
    assert forall j :: 0 <= j < |rest| ==> rest[j] in rest;
  }

  lemma HeadLeast(steps: seq<PlanStep>)
    requires AscendingIds(steps) && steps != []
    ensures AscendingIds(steps[1..]) && forall x :: x in steps[1..] ==> x.id > steps[0].id
  {
  }

  lemma {:induction false} InsertByIdAscending(s: PlanStep, steps: seq<PlanStep>)
    requires AscendingIds(steps) && forall x :: x in steps ==> x.id != s.id
    ensures AscendingIds(InsertById(s, steps))
  {
    if steps != [] {
      HeadLeast(steps);
      assert steps[0] in steps;
      if s.id > steps[0].id {
        InsertByIdAscending(s, steps[1..]);
        InsertByIdElements(s, steps[1..]);
        PrependAscending(steps[0], InsertById(s, steps[1..]));
      } else {
        assert forall x :: x in steps <==> x == steps[0] || x in steps[1..];
        PrependAscending(s, steps);
      }
    }
  }

  lemma {:induction false} ByIdAscending(steps: seq<PlanStep>)
    requires DistinctIds(steps)
    ensures AscendingIds(ById(steps))
  {
    if steps != [] {
      ByIdAscending(steps[1..]);
      ByIdElements(steps[1..]);
      InsertByIdAscending(steps[0], ById(steps[1..]));
    }
  }

  /** Total number of steps of some stages never exceeds the number of steps. */
  function StageTotal(groups: seq<Group>): nat {
    if groups == [] then 0 else |groups[0].steps| + StageTotal(groups[1..])
  }

  lemma {:induction false} OfStageDistinct(steps: seq<PlanStep>, k: int)
    requires DistinctIds(steps)
    ensures DistinctIds(OfStage(steps, k))
  {
    if steps != [] {
      var init := steps[..|steps| - 1];
      OfStageDistinct(init, k);
      OfStageElements(init, k);
      forall s | s in OfStage(init, k) ensures s.id != steps[|steps| - 1].id {
        var j :| 0 <= j < |init| && init[j] == s;
      }
    }
  }

  lemma {:induction false} OfStageShort(steps: seq<PlanStep>, k: int)
    ensures |OfStage(steps, k)| <= |steps|
  {
    if steps != [] { OfStageShort(steps[..|steps| - 1], k); }
  }

  /** Ids listed ascending; the dictionary keys in `sorted` order. */
  ghost function AscendingKeys(keys: set<int>): (r: seq<int>)
    ensures Ascending(r) && forall k :: k in r <==> k in keys
  {
    if keys == {} then []
    else
      LeastExists(keys);
      var least :| least in keys && forall k :: k in keys ==> least <= k;
      var rest := AscendingKeys(keys - {least});
      assert forall i :: 0 <= i < |rest| ==> rest[i] in rest && rest[i] > least;
      [least] + rest
  }

  lemma LeastExists(keys: set<int>)
    requires keys != {}
    ensures exists least :: least in keys && forall k :: k in keys ==> least <= k
  {
    SomeKey(keys);
    var x :| x in keys;
    var rest := keys - {x};
    if rest == {} {
      assert forall k :: k in keys ==> k == x || k in rest;
    } else {
      LeastExists(rest);
      var y :| y in rest && forall k :: k in rest ==> y <= k;
      var least := if x < y then x else y;
      assert forall k :: k in keys ==> k == x || k in rest;
      assert least in keys && forall k :: k in keys ==> least <= k;
    }
  }
}
