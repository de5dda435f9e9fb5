/**
 * The few pieces of the JavaScript runtime that the modelled code leans on:
 * ASCII case folding (standing in for `toLowerCase` and the `/.../i` flag),
 * substring search (`includes`, an unanchored regex literal), `trim`,
 * `parseInt(s, 16)` and the `%` operator, which truncates toward zero.
 */
module JsText {
  import opened Wrappers

  predicate IsUpperAscii(c: char) { 'A' <= c <= 'Z' }

  function LowerChar(c: char): char {
    if IsUpperAscii(c) then (c as int + 32) as char else c
  }

  /** ASCII lower-casing; every other character is kept. */
  function Lower(s: string): (r: string)
    ensures |r| == |s|
    ensures forall i :: 0 <= i < |s| ==> r[i] == LowerChar(s[i])
  {
    seq(|s|, i requires 0 <= i < |s| => LowerChar(s[i]))
  }

  lemma LowerOfLowerCase(s: string)
    requires forall i :: 0 <= i < |s| ==> !IsUpperAscii(s[i])
    ensures Lower(s) == s
  {
  }

  /** `s.includes(sub)`: `sub` occurs somewhere in `s`. */
  predicate Contains(s: string, sub: string)
    decreases |s|
  {
    sub <= s || (|s| > 0 && Contains(s[1..], sub))
  }

  /** `sub` occurs in `s` starting at index `i`. */
  predicate OccursAt(s: string, sub: string, i: nat) {
    i + |sub| <= |s| && s[i..i + |sub|] == sub
  }

  /** The position-wise reading of `Contains`, in both directions. */
  lemma {:induction false} ContainsAt(s: string, sub: string)
    ensures Contains(s, sub) <==> exists i: nat :: OccursAt(s, sub, i)
  {
    if Contains(s, sub) {
      var i := ContainsPosition(s, sub);
    }
    forall i: nat | OccursAt(s, sub, i) ensures Contains(s, sub) {
      OccursContained(s, sub, i);
    }
  }

  lemma {:induction false} ContainsPosition(s: string, sub: string) returns (i: nat)
    requires Contains(s, sub)
    ensures OccursAt(s, sub, i)
    decreases |s|
  {
    if sub <= s {
      i := 0;
      assert s[..|sub|] == sub;
    } else {
      var j := ContainsPosition(s[1..], sub);
      i := j + 1;
      assert s[i..i + |sub|] == s[1..][j..j + |sub|];
    }
  }

  lemma {:induction false} OccursContained(s: string, sub: string, i: nat)
    requires OccursAt(s, sub, i)
    ensures Contains(s, sub)
    decreases i
  {
    if i == 0 {
      assert sub <= s;
    } else {
      assert s[1..][i - 1..i - 1 + |sub|] == s[i..i + |sub|];
      OccursContained(s[1..], sub, i - 1);
    }
  }

  lemma ContainsWitness(s: string, sub: string, i: nat)
    requires OccursAt(s, sub, i)
    ensures Contains(s, sub)
  {
    ContainsAt(s, sub);
  }

  lemma ContainsLength(s: string, sub: string)
    requires Contains(s, sub)
    ensures |sub| <= |s|
  {
    ContainsAt(s, sub);
  }

  /** A `/k1|k2|.../i` test on `s`: some keyword occurs in the lower-cased text. */
  predicate MatchesAny(s: string, keywords: seq<string>) {
    exists k :: 0 <= k < |keywords| && Contains(Lower(s), keywords[k])
  }

  /**
   * The characters `String.prototype.trim` removes: the ECMAScript
   * WhiteSpace and LineTerminator code points.
   */
  predicate IsJsWhitespace(c: char) {
    c == '\t' || c == '\n' || c == '\U{000B}' || c == '\U{000C}' || c == '\r' || c == ' '
    || c == '\U{00A0}' || c == '\U{1680}' || ('\U{2000}' <= c <= '\U{200A}')
    || c == '\U{2028}' || c == '\U{2029}' || c == '\U{202F}' || c == '\U{205F}'
    || c == '\U{3000}' || c == '\U{FEFF}'
  }

  function TrimStart(s: string): string {
    if |s| > 0 && IsJsWhitespace(s[0]) then TrimStart(s[1..]) else s
  }

  /** `TrimStart` removes exactly the leading white space. */
  lemma {:induction false} TrimStartShape(s: string)
    ensures |TrimStart(s)| <= |s| && TrimStart(s) == s[|s| - |TrimStart(s)|..]
    ensures TrimStart(s) == [] || !IsJsWhitespace(TrimStart(s)[0])
    ensures forall i :: 0 <= i < |s| - |TrimStart(s)| ==> IsJsWhitespace(s[i])
  {
    if |s| > 0 && IsJsWhitespace(s[0]) {
      TrimStartShape(s[1..]);
      forall i | 0 <= i < |s| - |TrimStart(s)| ensures IsJsWhitespace(s[i]) {
        if i > 0 { assert s[i] == s[1..][i - 1]; }
      }
    }
  }

  function TrimEnd(s: string): (r: string)
    ensures |r| <= |s| && r == s[..|r|]
    ensures r == [] || !IsJsWhitespace(r[|r| - 1])
    ensures forall i :: |r| <= i < |s| ==> IsJsWhitespace(s[i])
  {
    if |s| > 0 && IsJsWhitespace(s[|s| - 1]) then TrimEnd(s[..|s| - 1]) else s
  }

  /** `s.trim()`. */
  function Trim(s: string): string {
    TrimEnd(TrimStart(s))
  }

  lemma TrimOfUnpadded(s: string)
    requires s == [] || (!IsJsWhitespace(s[0]) && !IsJsWhitespace(s[|s| - 1]))
    ensures Trim(s) == s
  {
  }

  /** `%` on numbers that are integers, divisor positive: the sign follows the dividend. */
  function JsRem(a: int, b: int): (r: int)
    requires b > 0
    ensures a >= 0 ==> 0 <= r < b
    ensures a < 0 ==> -b < r <= 0
  {
    if a >= 0 then a % b else -((-a) % b)
  }

  predicate IsHexDigit(c: char) {
    ('0' <= c <= '9') || ('a' <= c <= 'f') || ('A' <= c <= 'F')
  }

  function HexDigitValue(c: char): (v: nat)
    requires IsHexDigit(c)
    ensures v < 16
  {
    if '0' <= c <= '9' then c as int - '0' as int
    else if 'a' <= c <= 'f' then c as int - 'a' as int + 10
    else c as int - 'A' as int + 10
  }

  /** The number spelled by a string of hex digits, most significant first. */
  function HexValue(s: string): nat
    requires forall i :: 0 <= i < |s| ==> IsHexDigit(s[i])
  {
    if s == [] then 0 else HexDigitValue(s[0]) * Pow16(|s| - 1) + HexValue(s[1..])
  }

  function Pow16(n: nat): (p: nat)
    ensures p > 0
  {
    if n == 0 then 1 else 16 * Pow16(n - 1)
  }

  lemma {:induction false} HexValueBound(s: string)
    requires forall i :: 0 <= i < |s| ==> IsHexDigit(s[i])
    ensures HexValue(s) < Pow16(|s|)
  {
    if s != [] {
      HexValueBound(s[1..]);
      DigitStep(HexDigitValue(s[0]), Pow16(|s| - 1), HexValue(s[1..]));
    }
  }

  lemma DigitStep(d: nat, p: nat, r: nat)
    requires d < 16 && r < p
    ensures d * p + r < 16 * p
  {
    assert (15 - d) * p >= 0;
    assert 16 * p == d * p + (15 - d) * p + p;
  }

  /** Read the leading hex digits one by one, as `parseInt` does: `acc * 16 + digit`. */
  function HexAccumulate(s: string, acc: nat): nat {
    if |s| > 0 && IsHexDigit(s[0]) then HexAccumulate(s[1..], 16 * acc + HexDigitValue(s[0])) else acc
  }

  lemma {:induction false} HexAccumulateValue(s: string, acc: nat)
    requires forall i :: 0 <= i < |s| ==> IsHexDigit(s[i])
    ensures HexAccumulate(s, acc) == acc * Pow16(|s|) + HexValue(s)
  {
    if s != [] {
      var d := HexDigitValue(s[0]);
      var p := Pow16(|s| - 1);
      HexAccumulateValue(s[1..], 16 * acc + d);
      assert HexAccumulate(s, acc) == (16 * acc + d) * p + HexValue(s[1..]);
      assert Pow16(|s|) == 16 * p;
      assert HexValue(s) == d * p + HexValue(s[1..]);
      DigitShift(acc, d, p);
    }
  }

  lemma DigitShift(acc: nat, d: nat, p: nat)
    ensures (16 * acc + d) * p == acc * (16 * p) + d * p
  {
  }

  /** After the optional sign: drop a `0x`/`0X` prefix, then read the hex digits. */
  function ParseUnsignedHex(s: string): Option<nat> {
    var body := if |s| >= 2 && s[0] == '0' && (s[1] == 'x' || s[1] == 'X') then s[2..] else s;
    if |body| > 0 && IsHexDigit(body[0]) then Some(HexAccumulate(body, 0)) else None
  }

  /**
   * `parseInt(s, 16)` for the inputs it is given here: leading white space is
   * skipped, one sign is read, a `0x` prefix is dropped, and the longest run of
   * hex digits is read. `None` stands for `NaN` (no digit at all).
   */
  function ParseHex(s: string): Option<int> {
    var t := TrimStart(s);
    if |t| > 0 && t[0] == '-' then
      match ParseUnsignedHex(t[1..])
      case None => None
      case Some(v) => Some(0 - v)
    else if |t| > 0 && t[0] == '+' then
      match ParseUnsignedHex(t[1..])
      case None => None
      case Some(v) => Some(v)
    else
      match ParseUnsignedHex(t)
      case None => None
      case Some(v) => Some(v)
  }

  predicate IsHexString(s: string) {
    forall i :: 0 <= i < |s| ==> IsHexDigit(s[i])
  }

  /** On a non-empty string of hex digits (an abbreviated commit hash), `parseInt(s, 16)` is its value. */
  lemma ParseHexOfHexString(s: string)
    requires |s| > 0 && IsHexString(s)
    ensures ParseHex(s) == Some(HexValue(s))
    ensures HexValue(s) < Pow16(|s|)
  {
    assert !IsJsWhitespace(s[0]) && s[0] != '-' && s[0] != '+';
    assert TrimStart(s) == s;
    assert !(|s| >= 2 && s[0] == '0' && (s[1] == 'x' || s[1] == 'X'));
    HexAccumulateValue(s, 0);
    HexValueBound(s);
  }

  lemma {:induction false} Pow16Mono(a: nat, b: nat)
    requires a <= b
    ensures Pow16(a) <= Pow16(b)
    decreases b
  {
    if a < b {
      Pow16Mono(a, b - 1);
    }
  }
}
