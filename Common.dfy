/** Shared vocabulary: optional values, the outcome of a call that may raise,
    JSON values, and the few Python string operations the pipeline relies on
    (`str.lower`, `str.strip`, the `in` substring test, `sep.join`, `s.split`,
    and decimal formatting of integers). */
module Common {

  datatype Option<+T> = None | Some(value: T) {
    function GetOr(default: T): T {
      match this
      case Some(v) => v
      case None => default
    }
  }

  /** The result of a Python call that either returns a value or raises. */
  datatype Outcome<+T> = Ok(value: T) | Raised

  /** A decoded JSON document (objects as maps: key order is not modelled). */
  datatype Json =
    | JNull
    | JBool(b: bool)
    | JNum(n: int)
    | JStr(s: string)
    | JArr(items: seq<Json>)
    | JObj(fields: map<string, Json>)

  // ---------------------------------------------------------------- lower-case

  function LowerChar(c: char): (r: char)
    ensures 'A' <= c <= 'Z' ==> r as int == c as int + 32
    ensures !('A' <= c <= 'Z') ==> r == c
  {
    if 'A' <= c <= 'Z' then (c as int + 32) as char else c
  }

  /** `s.lower()` restricted to the ASCII letters. */
  function Lower(s: string): (r: string)
    ensures |r| == |s|
    ensures forall i :: 0 <= i < |s| ==> r[i] == LowerChar(s[i])
    ensures forall i :: 0 <= i < |r| ==> !('A' <= r[i] <= 'Z')
  {
    seq(|s|, i requires 0 <= i < |s| => LowerChar(s[i]))
  }

  lemma LowerNoCapitals(s: string)
    requires forall i :: 0 <= i < |s| ==> !('A' <= s[i] <= 'Z')
    ensures Lower(s) == s
  {
  }

  lemma LowerIdempotent(s: string)
    ensures Lower(Lower(s)) == Lower(s)
  {
    assert forall i :: 0 <= i < |s| ==> LowerChar(LowerChar(s[i])) == LowerChar(s[i]);
  }

  // ---------------------------------------------------------------- substrings

  predicate StartsWith(s: string, prefix: string) {
    |prefix| <= |s| && s[..|prefix|] == prefix
  }

  /** Python's `sub in s`. */
  predicate Contains(s: string, sub: string)
    decreases |s|
  {
    StartsWith(s, sub) || (|s| > 0 && Contains(s[1..], sub))
  }

  lemma {:induction false} ContainsAt(s: string, sub: string, i: nat)
    requires i + |sub| <= |s| && s[i..i + |sub|] == sub
    ensures Contains(s, sub)
    decreases i
  {
    if i > 0 {
      assert s[1..][i - 1..i - 1 + |sub|] == sub;
      ContainsAt(s[1..], sub, i - 1);
    } else {
      assert s[..|sub|] == sub;
    }
  }

  lemma {:induction false} ContainsWitness(s: string, sub: string) returns (i: nat)
    requires Contains(s, sub)
    ensures i + |sub| <= |s| && s[i..i + |sub|] == sub
    decreases |s|
  {
    if StartsWith(s, sub) {
      i := 0;
    } else {
      var j := ContainsWitness(s[1..], sub);
      assert s[1..][j..j + |sub|] == s[j + 1..j + 1 + |sub|];
      i := j + 1;
    }
  }

  lemma {:induction false} NotContainsFirst(s: string, sub: string)
    requires |sub| > 0 && sub[0] !in s
    ensures !Contains(s, sub)
    decreases |s|
  {
    if |sub| <= |s| {
      assert s[..|sub|][0] == s[0];
    }
    if |s| > 0 {
      assert sub[0] !in s[1..];
      NotContainsFirst(s[1..], sub);
    }
  }

  // ---------------------------------------------------------------- whitespace

  /** The characters Python's `str.isspace()` accepts. */
  predicate IsSpace(c: char) {
    ('\t' <= c <= '\r') || ('\U{1C}' <= c <= ' ')
    || c == '\U{85}' || c == '\U{A0}' || c == '\U{1680}'
    || ('\U{2000}' <= c <= '\U{200A}') || c == '\U{2028}' || c == '\U{2029}'
    || c == '\U{202F}' || c == '\U{205F}' || c == '\U{3000}'
  }

  function StripLeft(s: string): (r: string)
    ensures |r| <= |s| && r == s[|s| - |r|..]
    ensures r == [] || !IsSpace(r[0])
    ensures forall i :: 0 <= i < |s| - |r| ==> IsSpace(s[i])
  {
    if s != [] && IsSpace(s[0]) then StripLeft(s[1..]) else s
  }

  function StripRight(s: string): (r: string)
    ensures |r| <= |s| && r == s[..|r|]
    ensures r == [] || !IsSpace(r[|r| - 1])
    ensures forall i :: |r| <= i < |s| ==> IsSpace(s[i])
  {
    if s != [] && IsSpace(s[|s| - 1]) then StripRight(s[..|s| - 1]) else s
  }

  /** `s.strip()`: what `StripLeft` and then `StripRight` leave. */
  function Strip(s: string): string {
    StripRight(StripLeft(s))
  }

  /** One blank on each side of an unpadded text is removed. */
  lemma StripPadded(s: string)
    requires s != [] && !IsSpace(s[0]) && !IsSpace(s[|s| - 1])
    ensures Strip(" " + s + " ") == s
  {
    var p := " " + s + " ";
    assert p[1..] == s + " ";
    assert StripLeft(s + " ") == s + " ";
    assert StripLeft(p) == s + " ";
    assert (s + " ")[..|s|] == s;
    assert StripRight(s) == s;
  }

  // ---------------------------------------------------------------- join/split

  lemma ConcatAssoc<T>(x: seq<T>, y: seq<T>, z: seq<T>)
    ensures x + (y + z) == (x + y) + z
  {
  }

  /** `sep.join(parts)`. */
  function Join(parts: seq<string>, sep: string): string
    decreases |parts|
  {
    if |parts| == 0 then ""
    else if |parts| == 1 then parts[0]
    else parts[0] + sep + Join(parts[1..], sep)
  }

  /** `s.split("\n")`: the pieces between newline characters. */
  function SplitLines(s: string): (r: seq<string>)
    ensures |r| >= 1
    decreases |s|
  {
    if s == [] then [""]
    else
      var rest := SplitLines(s[1..]);
      if s[0] == '\n' then [""] + rest else [[s[0]] + rest[0]] + rest[1..]
  }

  lemma {:induction false} SplitLinesPlain(p: string)
    requires '\n' !in p
    ensures SplitLines(p) == [p]
    decreases |p|
  {
    if p != [] {
      assert '\n' !in p[1..];
      SplitLinesPlain(p[1..]);
      assert [p[0]] + p[1..] == p;
    }
  }

  lemma {:induction false} SplitLinesAfter(p: string, t: string)
    requires '\n' !in p
    ensures SplitLines(p + "\n" + t) == [p] + SplitLines(t)
    decreases |p|
  {
    if p == [] {
      assert p + "\n" + t == ['\n'] + t;
      assert (['\n'] + t)[1..] == t;
    } else {
      var s := p + "\n" + t;
      assert s[1..] == p[1..] + "\n" + t;
      assert '\n' !in p[1..];
      SplitLinesAfter(p[1..], t);
      assert [p[0]] + p[1..] == p;
    }
  }

  /** Joining lines that hold no newline and splitting the text again gives
      the lines back. */
  lemma {:induction false} SplitJoinLines(lines: seq<string>)
    requires |lines| >= 1
    requires forall k :: 0 <= k < |lines| ==> '\n' !in lines[k]
    ensures SplitLines(Join(lines, "\n")) == lines
    decreases |lines|
  {
    if |lines| == 1 {
      SplitLinesPlain(lines[0]);
    } else {
      SplitJoinLines(lines[1..]);
      SplitLinesAfter(lines[0], Join(lines[1..], "\n"));
      assert [lines[0]] + lines[1..] == lines;
    }
  }

  // ---------------------------------------------------------------- integers

  function DigitChar(d: nat): (c: char)
    requires d < 10
    ensures '0' <= c <= '9' && c as int - '0' as int == d
  {
    (d + '0' as int) as char
  }

  /** Decimal notation of a natural number, as Python's `str(n)` writes it. */
  function NatToString(n: nat): (r: string)
    ensures |r| >= 1
    ensures forall i :: 0 <= i < |r| ==> '0' <= r[i] <= '9'
    ensures |r| > 1 ==> r[0] != '0'
    decreases n
  {
    if n < 10 then [DigitChar(n)] else NatToString(n / 10) + [DigitChar(n % 10)]
  }

  /** Reading the digits back. */
  function DigitsValue(s: string): int
    decreases |s|
  {
    if s == [] then 0 else DigitsValue(s[..|s| - 1]) * 10 + (s[|s| - 1] as int - '0' as int)
  }

  lemma {:induction false} NatToStringRoundTrip(n: nat)
    ensures DigitsValue(NatToString(n)) == n
    decreases n
  {
    if n >= 10 {
      NatToStringRoundTrip(n / 10);
      var s := NatToString(n);
      assert s[..|s| - 1] == NatToString(n / 10);
    }
  }
}
