/** Stock datatypes and the text and JSON values every other module shares. */
module Basics {

  datatype Option<+T> = None | Some(value: T)

  /** A decoded JSON document, as `json.loads` hands it over. */
  datatype Json =
    | JNull
    | JBool(b: bool)
    | JInt(n: int)
    | JReal(x: real)
    | JStr(s: string)
    | JArr(items: seq<Json>)
    | JObj(fields: map<string, Json>)

  /** `data.get(key)`; a missing key reads as null. */
  function Field(fields: map<string, Json>, key: string): Json {
    if key in fields then fields[key] else JNull
  }

  /** `data.get(key, fallback)`. */
  function FieldOr(fields: map<string, Json>, key: string, fallback: Json): Json {
    if key in fields then fields[key] else fallback
  }

  /** Python truthiness of a decoded JSON value. */
  predicate Truthy(v: Json) {
    match v
    case JNull => false
    case JBool(b) => b
    case JInt(n) => n != 0
    case JReal(x) => x != 0.0
    case JStr(s) => s != ""
    case JArr(items) => items != []
    case JObj(fields) => fields != map[]
  }

  /** `str.isspace` for one character. */
  predicate IsSpace(c: char) {
    || '\U{0009}' <= c <= '\U{000D}'
    || '\U{001C}' <= c <= '\U{0020}'
    || '\U{2000}' <= c <= '\U{200A}'
    || c in {'\U{0085}', '\U{00A0}', '\U{1680}', '\U{2028}', '\U{2029}', '\U{202F}', '\U{205F}', '\U{3000}'}
  }

  function StripLeft(s: string): string {
    if s != "" && IsSpace(s[0]) then StripLeft(s[1..]) else s
  }

  function StripRight(s: string): string {
    if s != "" && IsSpace(s[|s| - 1]) then StripRight(s[..|s| - 1]) else s
  }

  /** `str.strip()`. */
  function Strip(s: string): string {
    StripRight(StripLeft(s))
  }

  /** `not s.strip()`: nothing but white space. */
  predicate Blank(s: string) {
    Strip(s) == ""
  }

  predicate StartsWith(s: string, prefix: string) {
    |prefix| <= |s| && s[..|prefix|] == prefix
  }

  /** `str(n)`. */
  function Decimal(n: int): string
    decreases if n < 0 then 1 else 0, if n < 0 then -n else n
  {
    if n < 0 then "-" + Decimal(-n)
    else if n < 10 then [('0' as int + n) as char]
    else Decimal(n / 10) + [('0' as int + n % 10) as char]
  }

  /** `"\n".join(lines)`. */
  function JoinLines(lines: seq<string>): string {
    if lines == [] then ""
    else if |lines| == 1 then lines[0]
    else lines[0] + "\n" + JoinLines(lines[1..])
  }

  /** A string is blank exactly when every one of its characters is white space. */
  lemma {:induction false} BlankMeansAllSpace(s: string)
    ensures Blank(s) <==> forall i :: 0 <= i < |s| ==> IsSpace(s[i])
  {
    StripLeftEmpty(s);
    if StripLeft(s) != "" {
      StripLeftHead(s);
      StripRightKeepsHead(StripLeft(s));
    }
  }

  lemma {:induction false} StripLeftEmpty(s: string)
    ensures StripLeft(s) == "" <==> forall i :: 0 <= i < |s| ==> IsSpace(s[i])
  {
    if s != "" && IsSpace(s[0]) {
      StripLeftEmpty(s[1..]);
      assert forall i :: 0 < i < |s| ==> s[i] == s[1..][i - 1];
    }
  }

  lemma {:induction false} StripLeftHead(s: string)
    requires StripLeft(s) != ""
    ensures !IsSpace(StripLeft(s)[0])
  {
    if s != "" && IsSpace(s[0]) {
      StripLeftHead(s[1..]);
    }
  }

  lemma {:induction false} StripRightKeepsHead(s: string)
    requires s != "" && !IsSpace(s[0])
    ensures StripRight(s) != "" && StripRight(s)[0] == s[0]
  {
    if IsSpace(s[|s| - 1]) {
      StripRightKeepsHead(s[..|s| - 1]);
    }
  }

  // ----- what stripping leaves -------------------------------------------------------------

  predicate AllSpace(s: string) {
    forall i :: 0 <= i < |s| ==> IsSpace(s[i])
  }

  /** Neither end is white space. */
  predicate Tight(t: string) {
    t == "" || (!IsSpace(t[0]) && !IsSpace(t[|t| - 1]))
  }

  /** `t` is what is left of `s` without the white space at its ends. */
  ghost predicate TrimmedTo(s: string, t: string) {
    Tight(t) && exists a: string, b: string :: AllSpace(a) && AllSpace(b) && s == a + t + b
  }

  lemma {:induction false} StripLeftSplits(s: string) returns (a: string)
    ensures AllSpace(a) && s == a + StripLeft(s)
  {
    if s != "" && IsSpace(s[0]) {
      var rest := StripLeftSplits(s[1..]);
      a := [s[0]] + rest;
    } else {
      a := "";
    }
  }

  lemma {:induction false} StripRightSplits(s: string) returns (b: string)
    ensures AllSpace(b) && s == StripRight(s) + b
    ensures StripRight(s) != "" ==> !IsSpace(StripRight(s)[|StripRight(s)| - 1])
  {
    if s != "" && IsSpace(s[|s| - 1]) {
      var rest := StripRightSplits(s[..|s| - 1]);
      b := rest + [s[|s| - 1]];
    } else {
      b := "";
    }
  }

  /** Stripping takes away white space at the ends, all of it, and nothing else. */
  lemma StripTrims(s: string)
    ensures TrimmedTo(s, Strip(s))
  {
    var l := StripLeft(s);
    var a := StripLeftSplits(s);
    var b := StripRightSplits(l);
    if l != "" {
      StripLeftHead(s);
      StripRightKeepsHead(l);
    }
    assert s == a + Strip(s) + b;
  }

  lemma {:induction false} StripLeftOf(a: string, t: string)
    requires AllSpace(a) && (t == "" || !IsSpace(t[0]))
    ensures StripLeft(a + t) == t
  {
    if a == "" {
      assert a + t == t;
    } else {
      assert (a + t)[1..] == a[1..] + t;
      StripLeftOf(a[1..], t);
    }
  }

  lemma {:induction false} StripRightOf(t: string, b: string)
    requires AllSpace(b) && (t == "" || !IsSpace(t[|t| - 1]))
    ensures StripRight(t + b) == t
    decreases |b|
  {
    if b == "" {
      assert t + b == t;
    } else {
      assert (t + b)[..|t + b| - 1] == t + b[..|b| - 1];
      StripRightOf(t, b[..|b| - 1]);
    }
  }

  /** And only that. */
  lemma TrimIsStrip(a: string, t: string, b: string)
    requires AllSpace(a) && AllSpace(b) && Tight(t)
    ensures Strip(a + t + b) == t
  {
    assert a + t + b == a + (t + b);
    if t == "" {
      assert t + b == b && a + (t + b) == (a + b) + t;
      assert AllSpace(a + b);
      StripLeftOf(a + b, t);
      assert (a + b) + t == a + t + b;
    } else {
      StripLeftOf(a, t + b);
      StripRightOf(t, b);
    }
  }
}
