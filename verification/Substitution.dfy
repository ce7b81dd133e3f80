/** `${step_N.output}` placeholders in step arguments. The scanner is stated twice: as the replacement the
    code performs, and as a segmentation of the string whose uniqueness is proved. */
module Substitution {
  import opened Basics
  import opened Sequences

  const PREFIX := "${step_"
  const SUFFIX := ".output}"

  predicate IsDigit(c: char) {
    '0' <= c <= '9'
  }

  /** Length of the longest run of digits at the start of `s` (a greedy `\d+`). */
  function DigitRun(s: string): (n: nat)
    ensures n <= |s|
    ensures forall i :: 0 <= i < n ==> IsDigit(s[i])
    ensures n < |s| ==> !IsDigit(s[n])
  {
    if s != "" && IsDigit(s[0]) then 1 + DigitRun(s[1..]) else 0
  }

  /** Length of the placeholder the pattern matches at the start of `s`; 0 when it does not match there. */
  function MatchAt(s: string): nat {
    if StartsWith(s, PREFIX) then
      var rest := s[|PREFIX|..];
      var d := DigitRun(rest);
      if d > 0 && StartsWith(rest[d..], SUFFIX) then |PREFIX| + d + |SUFFIX| else 0
    else 0
  }

  /** A whole string that is one placeholder (`fullmatch`). */
  predicate IsPlaceholder(t: string) {
    && |t| > |PREFIX| + |SUFFIX|
    && t[..|PREFIX|] == PREFIX
    && t[|t| - |SUFFIX|..] == SUFFIX
    && forall i :: |PREFIX| <= i < |t| - |SUFFIX| ==> IsDigit(t[i])
  }

  function DigitsValue(digits: string): int {
    if digits == "" then 0
    else 10 * DigitsValue(digits[..|digits| - 1]) + (digits[|digits| - 1] as int - '0' as int)
  }

  /** `int(match.group(1))`. */
  function StepIdOf(t: string): int
    requires IsPlaceholder(t)
  {
    DigitsValue(t[|PREFIX|..|t| - |SUFFIX|])
  }

  // ----- the code --------------------------------------------------------------------------

  /** `_repl`: the recorded output, or the placeholder itself when its step has none. */
  function Lookup(t: string, outputs: map<int, string>): string
    requires IsPlaceholder(t)
  {
    if StepIdOf(t) in outputs then outputs[StepIdOf(t)] else t
  }

  /** `_PLACEHOLDER.sub`: left to right, continuing after each match. */
  function SubAll(s: string, outputs: map<int, string>): string
    decreases |s|
  {
    if s == "" then ""
    else if MatchAt(s) > 0 then
      MatchIsPlaceholder(s);
      Lookup(s[..MatchAt(s)], outputs) + SubAll(s[MatchAt(s)..], outputs)
    else [s[0]] + SubAll(s[1..], outputs)
  }

  /** `_replace_in_str`, with its fast path for a string that is one placeholder. */
  function ReplaceInStr(s: string, outputs: map<int, string>): string {
    if IsPlaceholder(s) then Lookup(s, outputs) else SubAll(s, outputs)
  }

  /** `_walk`. */
  function Walk(v: Json, outputs: map<int, string>): Json
    decreases v
  {
    match v
    case JStr(s) => JStr(ReplaceInStr(s, outputs))
    case JArr(items) => JArr(seq(|items|, i requires 0 <= i < |items| => Walk(items[i], outputs)))
    case JObj(fields) => JObj(map k | k in fields :: Walk(fields[k], outputs))
    case _ => v
  }

  /** `substitute_args`. */
  function SubstituteArgs(args: map<string, Json>, outputs: map<int, string>): map<string, Json> {
    match Walk(JObj(args), outputs)
    case JObj(fields) => fields
    case _ => map[]
  }

  // ----- segmentation ----------------------------------------------------------------------

  datatype Segment = Chr(c: char) | Tok(text: string)

  function Text(g: Segment): string {
    match g
    case Chr(c) => [c]
    case Tok(text) => text
  }

  function Print(segments: seq<Segment>): string {
    if segments == [] then "" else Text(segments[0]) + Print(segments[1..])
  }

  function Scan(s: string): seq<Segment>
    decreases |s|
  {
    if s == "" then []
    else if MatchAt(s) > 0 then
      MatchIsPlaceholder(s);
      [Tok(s[..MatchAt(s)])] + Scan(s[MatchAt(s)..])
    else [Chr(s[0])] + Scan(s[1..])
  }

  /** Every token is a placeholder and no placeholder starts at a character left as a literal. */
  predicate Leftmost(segments: seq<Segment>) {
    segments == [] ||
    (&& (segments[0].Tok? ==> IsPlaceholder(segments[0].text))
     && (segments[0].Chr? ==> MatchAt(Print(segments)) == 0)
     && Leftmost(segments[1..]))
  }

  predicate TokensValid(segments: seq<Segment>) {
    forall i :: 0 <= i < |segments| && segments[i].Tok? ==> IsPlaceholder(segments[i].text)
  }

  /** Prints a segmentation with each known token replaced, once, by its step's output. */
  function Render(segments: seq<Segment>, outputs: map<int, string>): string
    requires TokensValid(segments)
  {
    if segments == [] then ""
    else
      (if segments[0].Tok? then Lookup(segments[0].text, outputs) else Text(segments[0]))
      + Render(segments[1..], outputs)
  }

  lemma MatchIsPlaceholder(s: string)
    requires MatchAt(s) > 0
    ensures MatchAt(s) <= |s| && IsPlaceholder(s[..MatchAt(s)])
  {
    var n := MatchAt(s);
    var rest := s[|PREFIX|..];
    var d := DigitRun(rest);
    var t := s[..n];
    assert t[..|PREFIX|] == s[..|PREFIX|];
    assert t[|t| - |SUFFIX|..] == rest[d..][..|SUFFIX|];
    forall i | |PREFIX| <= i < |t| - |SUFFIX| ensures IsDigit(t[i]) {
      assert t[i] == rest[i - |PREFIX|];
    }
  }

  /** A placeholder matches at its own start whatever follows it, and matches exactly itself. */
  lemma PlaceholderMatches(t: string, rest: string)
    requires IsPlaceholder(t)
    ensures MatchAt(t + rest) == |t|
  {
    var s := t + rest;
    var tail := s[|PREFIX|..];
    var d := |t| - |PREFIX| - |SUFFIX|;
    assert s[..|PREFIX|] == t[..|PREFIX|];
    assert forall i :: 0 <= i < d ==> tail[i] == t[|PREFIX| + i];
    assert tail[d..][..|SUFFIX|] == t[|t| - |SUFFIX|..];
    assert tail[d] == SUFFIX[0];
    assert DigitRun(tail) == d;
  }

  lemma {:induction false} ScanTokensValid(s: string)
    ensures TokensValid(Scan(s))
    decreases |s|
  {
    if s != "" {
      if MatchAt(s) > 0 {
        MatchIsPlaceholder(s);
        ScanTokensValid(s[MatchAt(s)..]);
      } else {
        ScanTokensValid(s[1..]);
      }
    }
  }

  /** Splitting a string into literals and placeholders and printing them back is the identity. */
  lemma {:induction false} PrintScan(s: string)
    ensures Print(Scan(s)) == s
    decreases |s|
  {
    if s != "" {
      if MatchAt(s) > 0 {
        MatchIsPlaceholder(s);
        PrintScan(s[MatchAt(s)..]);
        assert Scan(s)[1..] == Scan(s[MatchAt(s)..]);
      } else {
        PrintScan(s[1..]);
        assert Scan(s)[1..] == Scan(s[1..]);
      }
    }
  }

  lemma {:induction false} ScanLeftmost(s: string)
    ensures Leftmost(Scan(s))
    decreases |s|
  {
    if s != "" {
      PrintScan(s);
      if MatchAt(s) > 0 {
        MatchIsPlaceholder(s);
        ScanLeftmost(s[MatchAt(s)..]);
        assert Scan(s)[1..] == Scan(s[MatchAt(s)..]);
      } else {
        ScanLeftmost(s[1..]);
        assert Scan(s)[1..] == Scan(s[1..]);
      }
    }
  }

  lemma ScanToken(text: string, tail: string)
    requires IsPlaceholder(text)
    ensures Scan(text + tail) == [Tok(text)] + Scan(tail)
  {
    PlaceholderMatches(text, tail);
    var s := text + tail;
    assert s[..|text|] == text && s[|text|..] == tail;
  }

  lemma ScanCharacter(c: char, tail: string)
    requires MatchAt([c] + tail) == 0
    ensures Scan([c] + tail) == [Chr(c)] + Scan(tail)
  {
    var s := [c] + tail;
    assert s[0] == c && s[1..] == tail;
  }

  lemma HeadScanned(segments: seq<Segment>)
    requires segments != [] && Leftmost(segments)
    ensures Scan(Print(segments)) == [segments[0]] + Scan(Print(segments[1..]))
  {
    match segments[0] {
      case Tok(text) => ScanToken(text, Print(segments[1..]));
      case Chr(c) => ScanCharacter(c, Print(segments[1..]));
    }
  }

  /** The scan is the only leftmost segmentation of its string. */
  lemma {:induction false} ScanUnique(segments: seq<Segment>)
    requires Leftmost(segments)
    ensures Scan(Print(segments)) == segments
  {
    if segments != [] {
      HeadScanned(segments);
      ScanUnique(segments[1..]);
      assert [segments[0]] + segments[1..] == segments;
    }
  }

  lemma {:induction false} SubAllIsRender(s: string, outputs: map<int, string>)
    ensures TokensValid(Scan(s)) && SubAll(s, outputs) == Render(Scan(s), outputs)
    decreases |s|
  {
    ScanTokensValid(s);
    if s != "" {
      if MatchAt(s) > 0 {
        MatchIsPlaceholder(s);
        SubAllIsRender(s[MatchAt(s)..], outputs);
        assert Scan(s)[1..] == Scan(s[MatchAt(s)..]);
      } else {
        SubAllIsRender(s[1..], outputs);
        assert Scan(s)[1..] == Scan(s[1..]);
      }
    }
  }

  /** Replacement is one rendering of the scan: outputs are never scanned again, unknown steps stay as they
      are, and the fast path for a whole-string placeholder agrees with the general path. */
  lemma ReplaceIsOneRendering(s: string, outputs: map<int, string>)
    ensures TokensValid(Scan(s)) && ReplaceInStr(s, outputs) == Render(Scan(s), outputs)
  {
    SubAllIsRender(s, outputs);
    if IsPlaceholder(s) {
      PlaceholderMatches(s, "");
      assert s + "" == s && s[..|s|] == s && s[|s|..] == "";
      assert Scan(s) == [Tok(s)];
      assert Render(Scan(s)[1..], outputs) == "";
      assert Lookup(s, outputs) + "" == Lookup(s, outputs);
    }
  }

  // ----- the step a placeholder names ------------------------------------------------------

  function Zeros(z: nat): string {
    if z == 0 then "" else Zeros(z - 1) + "0"
  }

  /** The placeholder of a step, its number with so many leading zeros. */
  function Token(z: nat, id: nat): string {
    "${step_" + Zeros(z) + Decimal(id) + ".output}"
  }

  /** The text is a placeholder of this step. */
  ghost predicate Names(t: string, id: int) {
    id >= 0 && exists z: nat :: t == Token(z, id)
  }

  predicate AllDigits(d: string) {
    forall i :: 0 <= i < |d| ==> IsDigit(d[i])
  }

  lemma ValueSnoc(d: string, c: char)
    ensures DigitsValue(d + [c]) == 10 * DigitsValue(d) + (c as int - '0' as int)
  {
    assert (d + [c])[..|d + [c]| - 1] == d;
  }

  lemma DigitsSnoc(d: string, c: char)
    requires AllDigits(d) && IsDigit(c)
    ensures AllDigits(d + [c])
  {
  }

  lemma {:induction false} ZerosAreZero(z: nat)
    ensures AllDigits(Zeros(z)) && DigitsValue(Zeros(z)) == 0
  {
    if z > 0 {
      var init, zero := Zeros(z - 1), '0';
      ZerosAreZero(z - 1);
      ValueSnoc(init, zero);
      DigitsSnoc(init, zero);
      assert Zeros(z) == init + [zero];
    }
  }

  function DigitOf(k: nat): char
    requires k < 10
  {
    ('0' as int + k) as char
  }

  lemma DecimalSnoc(n: nat)
    requires n >= 10
    ensures Decimal(n) == Decimal(n / 10) + [DigitOf(n % 10)]
  {
  }

  lemma {:induction false} ValueOfDecimal(z: nat, n: nat)
    ensures AllDigits(Zeros(z) + Decimal(n)) && DigitsValue(Zeros(z) + Decimal(n)) == n && Decimal(n) != ""
    decreases n
  {
    ZerosAreZero(z);
    if n < 10 {
      ValueSnoc(Zeros(z), DigitOf(n));
      DigitsSnoc(Zeros(z), DigitOf(n));
      assert Decimal(n) == [DigitOf(n)];
    } else {
      var init, c := Zeros(z) + Decimal(n / 10), DigitOf(n % 10);
      ValueOfDecimal(z, n / 10);
      ValueSnoc(init, c);
      DigitsSnoc(init, c);
      DecimalSnoc(n);
      Assoc(Zeros(z), Decimal(n / 10), [c]);
    }
  }

  /** A run of digits is the number it reads as, behind leading zeros. */
  lemma {:induction false} DigitsSpelled(d: string) returns (z: nat)
    requires d != "" && AllDigits(d)
    ensures DigitsValue(d) >= 0 && d == Zeros(z) + Decimal(DigitsValue(d))
  {
    var init, c := d[..|d| - 1], d[|d| - 1];
    var k := c as int - '0' as int;
    assert d == init + [c];
    ValueSnoc(init, c);
    if init == "" {
      z := 0;
      assert d == Decimal(k);
    } else {
      z := DigitsSpelled(init);
      if DigitsValue(init) == 0 {
        z := z + 1;
        assert d == Zeros(z) + Decimal(k);
      } else {
        assert Decimal(10 * DigitsValue(init) + k) == Decimal(DigitsValue(init)) + [c];
      }
    }
  }

  lemma TokenIsPlaceholder(z: nat, id: nat)
    ensures IsPlaceholder(Token(z, id)) && StepIdOf(Token(z, id)) == id
  {
    var d := Zeros(z) + Decimal(id);
    ValueOfDecimal(z, id);
    TokenIs(z, id, d);
    DigitsInside(d);
  }

  lemma DigitsInside(d: string)
    requires d != "" && AllDigits(d)
    ensures var t := "${step_" + d + ".output}"; IsPlaceholder(t) && t[|PREFIX|..|t| - |SUFFIX|] == d
  {
    var t := PREFIX + d + SUFFIX;
    assert t[|PREFIX|..|t| - |SUFFIX|] == d;
    assert forall i :: |PREFIX| <= i < |t| - |SUFFIX| ==> t[i] == d[i - |PREFIX|];
  }

  /** The digits of a placeholder, and the placeholder put together from them. */
  lemma PlaceholderSplits(t: string)
    requires IsPlaceholder(t)
    ensures var d := t[|PREFIX|..|t| - |SUFFIX|]; d != "" && AllDigits(d) && t == "${step_" + d + ".output}"
  {
    var d := t[|PREFIX|..|t| - |SUFFIX|];
    assert forall i :: 0 <= i < |d| ==> d[i] == t[|PREFIX| + i];
    assert t == PREFIX + d + SUFFIX;
  }

  lemma TokenIs(z: nat, id: nat, d: string)
    requires d == Zeros(z) + Decimal(id)
    ensures Token(z, id) == "${step_" + d + ".output}"
  {
    Assoc("${step_", Zeros(z), Decimal(id));
  }

  lemma PlaceholderNames(t: string)
    requires IsPlaceholder(t)
    ensures Names(t, StepIdOf(t))
  {
    var d := t[|PREFIX|..|t| - |SUFFIX|];
    PlaceholderSplits(t);
    var z := DigitsSpelled(d);
    TokenIs(z, DigitsValue(d), d);
  }

  lemma NamesOne(t: string, id: int)
    requires Names(t, id)
    ensures IsPlaceholder(t) && StepIdOf(t) == id
  {
    var z: nat :| t == Token(z, id);
    TokenIsPlaceholder(z, id);
  }

  /** Every placeholder names a step, and only one. */
  lemma NamedOnce(t: string)
    ensures IsPlaceholder(t) <==> exists id :: Names(t, id)
    ensures forall a, b :: Names(t, a) && Names(t, b) ==> a == b
  {
    if IsPlaceholder(t) {
      PlaceholderNames(t);
    }
    forall id | Names(t, id) ensures IsPlaceholder(t) && id == StepIdOf(t) {
      NamesOne(t, id);
    }
  }

  /** The step a placeholder names. */
  ghost function NamedStep(t: string): int
    requires IsPlaceholder(t)
  {
    NamedOnce(t);
    var id :| Names(t, id);
    id
  }

  lemma NamedIsRead(t: string)
    requires IsPlaceholder(t)
    ensures NamedStep(t) == StepIdOf(t)
  {
    NamedOnce(t);
    NamesOne(t, NamedStep(t));
  }

  // ----- a placeholder among other text ----------------------------------------------------

  lemma {:induction false} DigitRunSplit(a: string, c: string)
    requires c == "" || !IsDigit(c[0])
    ensures DigitRun(a + c) == DigitRun(a)
  {
    if a == "" {
      assert a + c == c;
    } else {
      assert (a + c)[1..] == a[1..] + c;
      DigitRunSplit(a[1..], c);
    }
  }

  lemma StartsWithSplit(a: string, c: string, p: string)
    requires c == "" || c[0] == '$'
    requires forall i :: 0 <= i < |p| && (i > 0 || a == "") ==> p[i] != '$'
    requires a == "" ==> p != ""
    ensures StartsWith(a + c, p) <==> StartsWith(a, p)
  {
    if |p| <= |a| {
      assert (a + c)[..|p|] == a[..|p|];
    } else if |p| <= |a + c| {
      assert (a + c)[|a|] == '$' && (a + c)[..|p|][|a|] == '$';
      assert p[|a|] != '$';
    }
  }

  lemma EndSplit(rest: string, c: string)
    requires c == "" || c[0] == '$'
    ensures DigitRun(rest + c) == DigitRun(rest)
    ensures StartsWith((rest + c)[DigitRun(rest)..], SUFFIX) <==> StartsWith(rest[DigitRun(rest)..], SUFFIX)
  {
    var d := DigitRun(rest);
    DigitRunSplit(rest, c);
    assert (rest + c)[d..] == rest[d..] + c;
    StartsWithSplit(rest[d..], c, SUFFIX);
  }

  /** A match never reaches into a `$` behind it. */
  lemma MatchSplit(a: string, c: string)
    requires a != "" && (c == "" || c[0] == '$')
    ensures MatchAt(a + c) == MatchAt(a)
  {
    StartsWithSplit(a, c, PREFIX);
    if StartsWith(a, PREFIX) {
      var rest := a[|PREFIX|..];
      assert (a + c)[|PREFIX|..] == rest + c;
      EndSplit(rest, c);
    }
  }

  /** How much of a string the substitution deals with first, and what it puts there. */
  function Width(s: string): (n: nat)
    requires s != ""
    ensures 0 < n <= |s|
  {
    MatchFits(s);
    if MatchAt(s) > 0 then MatchAt(s) else 1
  }

  lemma MatchFits(s: string)
    ensures MatchAt(s) <= |s|
  {
    if MatchAt(s) > 0 {
      MatchIsPlaceholder(s);
    }
  }

  function Piece(s: string, outputs: map<int, string>): string
    requires s != ""
  {
    if MatchAt(s) > 0 then
      MatchIsPlaceholder(s);
      Lookup(s[..MatchAt(s)], outputs)
    else [s[0]]
  }

  lemma SubAllIs(s: string, outputs: map<int, string>)
    requires s != ""
    ensures SubAll(s, outputs) == Piece(s, outputs) + SubAll(s[Width(s)..], outputs)
  {
  }

  lemma PieceSplit(a: string, c: string, outputs: map<int, string>)
    requires a != "" && (c == "" || c[0] == '$')
    ensures Width(a + c) == Width(a) && Piece(a + c, outputs) == Piece(a, outputs)
  {
    MatchSplit(a, c);
    MatchFits(a);
    assert (a + c)[..MatchAt(a)] == a[..MatchAt(a)];
  }

  lemma Tail(a: string, c: string, n: nat)
    requires n <= |a|
    ensures (a + c)[n..] == a[n..] + c
  {
  }

  lemma {:induction false} SubAllSplit(a: string, c: string, outputs: map<int, string>)
    requires c == "" || c[0] == '$'
    ensures SubAll(a + c, outputs) == SubAll(a, outputs) + SubAll(c, outputs)
    decreases |a|
  {
    if a == "" {
      assert a + c == c;
      assert SubAll(a, outputs) + SubAll(c, outputs) == SubAll(c, outputs);
    } else {
      var n := Width(a);
      PieceSplit(a, c, outputs);
      Tail(a, c, n);
      SubAllIs(a, outputs);
      SubAllIs(a + c, outputs);
      SubAllSplit(a[n..], c, outputs);
      Assoc(Piece(a, outputs), SubAll(a[n..], outputs), SubAll(c, outputs));
    }
  }

  lemma ReplaceIsSubAll(s: string, outputs: map<int, string>)
    ensures ReplaceInStr(s, outputs) == SubAll(s, outputs)
  {
    ReplaceIsOneRendering(s, outputs);
    SubAllIsRender(s, outputs);
  }

  /** What a placeholder becomes: the output of its step, or itself when there is none. */
  function Resolved(z: nat, id: nat, outputs: map<int, string>): string {
    if id in outputs then outputs[id] else Token(z, id)
  }

  /** The placeholder of a step, written out with its number and any leading zeros, alone or anywhere in a string, is
      replaced by the output of that step, and left as it is when there is none; what is around it is replaced as if it
      stood alone. */
  lemma TokenResolved(before: string, z: nat, id: nat, after: string, outputs: map<int, string>)
    ensures ReplaceInStr(Token(z, id), outputs) == Resolved(z, id, outputs)
    ensures ReplaceInStr(before + Token(z, id) + after, outputs) ==
            ReplaceInStr(before, outputs) + Resolved(z, id, outputs) + ReplaceInStr(after, outputs)
  {
    var t := Token(z, id);
    TokenIsPlaceholder(z, id);
    assert before + t + after == before + (t + after);
    assert (t + after)[0] == '$';
    SubAllSplit(before, t + after, outputs);
    PlaceholderMatches(t, after);
    assert (t + after)[..|t|] == t && (t + after)[|t|..] == after;
    assert SubAll(t + after, outputs) == Resolved(z, id, outputs) + SubAll(after, outputs);
    ReplaceIsSubAll(before + t + after, outputs);
    ReplaceIsSubAll(before, outputs);
    ReplaceIsSubAll(after, outputs);
  }

  // ----- trees -----------------------------------------------------------------------------

  /** Same constructors, lengths, keys and non-string leaves. */
  predicate SameShape(v: Json, w: Json)
    decreases v
  {
    match v
    case JStr(_) => w.JStr?
    case JArr(items) =>
      w.JArr? && |w.items| == |items| && forall i :: 0 <= i < |items| ==> SameShape(items[i], w.items[i])
    case JObj(fields) =>
      w.JObj? && w.fields.Keys == fields.Keys && forall k :: k in fields ==> SameShape(fields[k], w.fields[k])
    case _ => w == v
  }

  lemma {:induction false} WalkKeepsShape(v: Json, outputs: map<int, string>)
    ensures SameShape(v, Walk(v, outputs))
    decreases v
  {
    match v {
      case JArr(items) =>
        forall i | 0 <= i < |items| ensures SameShape(items[i], Walk(items[i], outputs)) {
          WalkKeepsShape(items[i], outputs);
        }
      case JObj(fields) =>
        forall k | k in fields ensures SameShape(fields[k], Walk(fields[k], outputs)) {
          WalkKeepsShape(fields[k], outputs);
        }
      case _ =>
    }
  }

  /** The placeholders of a JSON tree name these steps only. */
  ghost predicate MentionsOnly(v: Json, ids: set<int>)
    decreases v
  {
    match v
    case JStr(s) =>
      forall i :: 0 <= i < |Scan(s)| && Scan(s)[i].Tok? ==>
        IsPlaceholder(Scan(s)[i].text) && NamedStep(Scan(s)[i].text) in ids
    case JArr(items) => forall i :: 0 <= i < |items| ==> MentionsOnly(items[i], ids)
    case JObj(fields) => forall k :: k in fields ==> MentionsOnly(fields[k], ids)
    case _ => true
  }

  /** A segment with its token, if it is one, replaced by the output of the step it names. */
  ghost function Filled(g: Segment, outputs: map<int, string>): string
    requires g.Tok? ==> IsPlaceholder(g.text) && NamedStep(g.text) in outputs
  {
    if g.Tok? then outputs[NamedStep(g.text)] else Text(g)
  }

  ghost function FillAll(segments: seq<Segment>, outputs: map<int, string>): string
    requires forall i :: 0 <= i < |segments| && segments[i].Tok? ==>
               IsPlaceholder(segments[i].text) && NamedStep(segments[i].text) in outputs
  {
    if segments == [] then "" else Filled(segments[0], outputs) + FillAll(segments[1..], outputs)
  }

  /** `w` is `v` with every placeholder of every string replaced by its step's output. */
  ghost predicate FullyResolved(v: Json, w: Json, outputs: map<int, string>)
    decreases v
  {
    match v
    case JStr(s) => MentionsOnly(v, outputs.Keys) && w == JStr(FillAll(Scan(s), outputs))
    case JArr(items) =>
      w.JArr? && |w.items| == |items| && forall i :: 0 <= i < |items| ==> FullyResolved(items[i], w.items[i], outputs)
    case JObj(fields) =>
      w.JObj? && w.fields.Keys == fields.Keys && forall k :: k in fields ==> FullyResolved(fields[k], w.fields[k], outputs)
    case _ => w == v
  }

  lemma {:induction false} RenderFills(segments: seq<Segment>, outputs: map<int, string>)
    requires forall i :: 0 <= i < |segments| && segments[i].Tok? ==>
               IsPlaceholder(segments[i].text) && NamedStep(segments[i].text) in outputs
    ensures Render(segments, outputs) == FillAll(segments, outputs)
  {
    if segments != [] {
      if segments[0].Tok? {
        NamedIsRead(segments[0].text);
      }
      RenderFills(segments[1..], outputs);
    }
  }

  /** When every mentioned step has an output, no placeholder is left: each is its step's recorded output. */
  lemma {:induction false} KnownStepsResolve(v: Json, outputs: map<int, string>)
    requires MentionsOnly(v, outputs.Keys)
    ensures FullyResolved(v, Walk(v, outputs), outputs)
    decreases v
  {
    match v {
      case JStr(s) =>
        ReplaceIsOneRendering(s, outputs);
        RenderFills(Scan(s), outputs);
      case JArr(items) =>
        forall i | 0 <= i < |items| ensures FullyResolved(items[i], Walk(items[i], outputs), outputs) {
          KnownStepsResolve(items[i], outputs);
        }
      case JObj(fields) =>
        forall k | k in fields ensures FullyResolved(fields[k], Walk(fields[k], outputs), outputs) {
          KnownStepsResolve(fields[k], outputs);
        }
      case _ =>
    }
  }

  lemma {:induction false} MentionsMore(v: Json, ids: set<int>, more: set<int>)
    requires MentionsOnly(v, ids) && ids <= more
    ensures MentionsOnly(v, more)
    decreases v
  {
    match v {
      case JArr(items) =>
        forall i | 0 <= i < |items| ensures MentionsOnly(items[i], more) { MentionsMore(items[i], ids, more); }
      case JObj(fields) =>
        forall k | k in fields ensures MentionsOnly(fields[k], more) { MentionsMore(fields[k], ids, more); }
      case _ =>
    }
  }

  /** An argument that is the placeholder of a step becomes that step's output. */
  lemma ArgumentResolved(args: map<string, Json>, outputs: map<int, string>, key: string, z: nat, id: nat)
    requires key in args && args[key] == JStr(Token(z, id)) && id in outputs
    ensures var resolved := SubstituteArgs(args, outputs); key in resolved && resolved[key] == JStr(outputs[id])
  {
    var t := args[key];
    TokenResolved("", z, id, "", outputs);
    assert Walk(t, outputs) == JStr(ReplaceInStr(t.s, outputs));
    var walked := Walk(JObj(args), outputs);
    assert walked.JObj? && key in walked.fields && walked.fields[key] == Walk(t, outputs);
  }
}
