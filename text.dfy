/** The string operations the scripts use: `str.lower`, the `in` substring test,
    `startswith`, `replace`, `split`, `join` and integer formatting. Case mapping
    is ASCII only. */
module Text {
  import opened Wrappers

  function LowerChar(c: char): char {
    if 'A' <= c <= 'Z' then (c as int + 32) as char else c
  }

  /** Python `s.lower()` on ASCII text. */
  function Lower(s: string): (r: string)
    ensures |r| == |s|
  {
    seq(|s|, i requires 0 <= i < |s| => LowerChar(s[i]))
  }

  lemma LowerIdempotent(s: string)
    ensures Lower(Lower(s)) == Lower(s)
  {
  }

  lemma LowerAppend(s: string, t: string)
    ensures Lower(s + t) == Lower(s) + Lower(t)
  {
  }

  predicate StartsWith(s: string, prefix: string) {
    |prefix| <= |s| && s[..|prefix|] == prefix
  }

  /** `t` sits at offset `i` of `s`. */
  predicate OccursAt(s: string, t: string, i: int) {
    0 <= i <= |s| - |t| && s[i..i + |t|] == t
  }

  /** Python `t in s` for strings: `t` occurs somewhere in `s` (the empty string occurs everywhere). */
  predicate Contains(s: string, t: string) {
    exists i :: 0 <= i <= |s| - |t| && OccursAt(s, t, i)
  }

  /** An occurrence at any offset makes `Contains` true. */
  lemma OccursAtContains(s: string, t: string, i: int)
    requires OccursAt(s, t, i)
    ensures Contains(s, t)
  {
  }

  /** `Contains` is witnessed by an offset. */
  lemma ContainsWitness(s: string, t: string) returns (i: int)
    requires Contains(s, t)
    ensures OccursAt(s, t, i)
  {
    i :| OccursAt(s, t, i);
  }

  lemma ContainsSelf(s: string)
    ensures Contains(s, s)
  {
    assert OccursAt(s, s, 0);
  }

  lemma ContainsEmpty(s: string)
    ensures Contains(s, "")
  {
    assert OccursAt(s, "", 0);
  }

  /** `t in s` can only hold when `t` is no longer than `s`. */
  lemma ContainsShorter(s: string, t: string)
    requires Contains(s, t)
    ensures |t| <= |s|
  {
  }

  /** A string that contains `t` and is contained in `t` is `t`. */
  lemma ContainsAntisymmetric(s: string, t: string)
    requires Contains(s, t) && Contains(t, s)
    ensures s == t
  {
    var i := ContainsWitness(s, t);
  }

  /** Occurrences survive appending on either side. */
  lemma ContainsInfix(a: string, t: string, b: string)
    ensures Contains(a + t + b, t)
  {
    assert OccursAt(a + t + b, t, |a|);
  }

  /** Python `s.replace(c, d)` for single characters. */
  function ReplaceChar(s: string, c: char, d: char): (r: string)
    ensures |r| == |s|
    ensures forall i :: 0 <= i < |s| ==> r[i] == (if s[i] == c then d else s[i])
  {
    seq(|s|, i requires 0 <= i < |s| => if s[i] == c then d else s[i])
  }

  function DigitChar(d: nat): char
    requires d < 10
  {
    "0123456789"[d]
  }

  /** Decimal digits of a natural number, no leading zeros. */
  function NatToString(n: nat): (r: string)
    ensures |r| >= 1
    ensures forall i :: 0 <= i < |r| ==> '0' <= r[i] <= '9'
    decreases n
  {
    if n < 10 then [DigitChar(n)] else NatToString(n / 10) + [DigitChar(n % 10)]
  }

  /** Python `str(n)` for an int. */
  function IntToString(n: int): string {
    if n < 0 then "-" + NatToString(-n) else NatToString(n)
  }

  /** `sep.join(parts)`. */
  function Join(sep: string, parts: seq<string>): string
    decreases |parts|
  {
    if |parts| == 0 then ""
    else if |parts| == 1 then parts[0]
    else parts[0] + sep + Join(sep, parts[1..])
  }

  predicate IsDigit(c: char) {
    '0' <= c <= '9'
  }

  /** ASCII whitespace as `str.strip()` and `int()` see it. */
  predicate IsSpace(c: char) {
    c == ' ' || '\t' <= c <= '\r' || 28 <= c as int <= 31
  }

  function LeftStrip(s: string): (r: string)
    ensures |r| <= |s|
    ensures |r| > 0 ==> !IsSpace(r[0])
    decreases |s|
  {
    if |s| > 0 && IsSpace(s[0]) then LeftStrip(s[1..]) else s
  }

  function RightStrip(s: string): (r: string)
    ensures |r| <= |s|
    ensures |r| > 0 ==> !IsSpace(r[|r| - 1])
    decreases |s|
  {
    if |s| > 0 && IsSpace(s[|s| - 1]) then RightStrip(s[..|s| - 1]) else s
  }

  /** Python `s.strip()`. */
  function Strip(s: string): string {
    RightStrip(LeftStrip(s))
  }

  /** The digit part `int()` accepts: digits, with single underscores only between digits. */
  predicate DigitGroups(s: string) {
    |s| > 0 && IsDigit(s[0]) && IsDigit(s[|s| - 1]) &&
    (forall i :: 0 <= i < |s| ==> IsDigit(s[i]) || s[i] == '_') &&
    (forall i :: 0 <= i < |s| - 1 ==> s[i] == '_' ==> s[i + 1] != '_')
  }

  /** The number a digit string spells, underscores ignored. */
  function DigitsValue(s: string): nat
    decreases |s|
  {
    if |s| == 0 then 0
    else if IsDigit(s[|s| - 1]) then DigitsValue(s[..|s| - 1]) * 10 + (s[|s| - 1] as int - '0' as int)
    else DigitsValue(s[..|s| - 1])
  }

  /** Python `int(s)` on a string: `None` where `int` raises `ValueError`.
      Only ASCII digits and ASCII whitespace are recognised. */
  function ParseInt(s: string): Option<int> {
    var t := Strip(s);
    var signed := |t| > 0 && (t[0] == '+' || t[0] == '-');
    var digits := if signed then t[1..] else t;
    var v: int := DigitsValue(digits);
    if !DigitGroups(digits) then None
    else if signed && t[0] == '-' then Some(-v)
    else Some(v)
  }

  /** `int` never accepts a string without a digit in it. */
  lemma ParseIntNeedsDigit(s: string)
    requires ParseInt(s).Some?
    ensures exists i :: 0 <= i < |s| && IsDigit(s[i])
  {
    var t := Strip(s);
    var j := if |t| > 0 && (t[0] == '+' || t[0] == '-') then 1 else 0;
    assert IsDigit(t[j]);
    var a := StripOffset(s);
    assert s[a + j] == t[j];
  }

  /** `Strip(s)` is a slice of `s`. */
  lemma StripOffset(s: string) returns (a: nat)
    ensures OccursAt(s, Strip(s), a)
  {
    var l := LeftStrip(s);
    a := LeftStripOffset(s);
    var r := RightStrip(l);
    RightStripPrefix(l);
    assert s[a..a + |r|] == r by {
      assert l == s[a..];
      assert r == l[..|r|];
    }
  }

  lemma {:induction false} LeftStripOffset(s: string) returns (a: nat)
    ensures a + |LeftStrip(s)| == |s| && LeftStrip(s) == s[a..]
    decreases |s|
  {
    if |s| > 0 && IsSpace(s[0]) {
      var b := LeftStripOffset(s[1..]);
      a := b + 1;
    } else {
      a := 0;
    }
  }

  lemma {:induction false} RightStripPrefix(s: string)
    ensures RightStrip(s) == s[..|RightStrip(s)|]
    decreases |s|
  {
    if |s| > 0 && IsSpace(s[|s| - 1]) {
      RightStripPrefix(s[..|s| - 1]);
    }
  }

  lemma NatToStringDigits(n: nat)
    ensures DigitGroups(NatToString(n))
    ensures DigitsValue(NatToString(n)) == n
  {
    AllDigitsGroups(NatToString(n));
    NatToStringValue(n);
  }

  /** A non-empty string of digits alone is a digit group. */
  lemma AllDigitsGroups(s: string)
    requires |s| > 0 && forall i :: 0 <= i < |s| ==> IsDigit(s[i])
    ensures DigitGroups(s)
  {
  }

  lemma {:induction false} NatToStringValue(n: nat)
    ensures DigitsValue(NatToString(n)) == n
    decreases n
  {
    var r := NatToString(n);
    var d := DigitChar(n % 10);
    assert d as int - '0' as int == n % 10;
    if n >= 10 {
      NatToStringValue(n / 10);
      assert r[..|r| - 1] == NatToString(n / 10);
      assert r[|r| - 1] == d;
    }
  }

  /** `int(str(n)) == n`: parsing undoes formatting. */
  lemma ParseIntToString(n: int)
    ensures ParseInt(IntToString(n)) == Some(n)
  {
    var s := IntToString(n);
    NatToStringDigits(if n < 0 then -n else n);
    StripClean(s);
    if n < 0 {
      assert s[1..] == NatToString(-n);
    }
  }

  lemma StripClean(s: string)
    requires |s| > 0 && !IsSpace(s[0]) && !IsSpace(s[|s| - 1])
    ensures Strip(s) == s
  {
  }

  /** Python `s.split(c)` for a one-character separator: always at least one piece. */
  function Split(s: string, c: char): (r: seq<string>)
    ensures |r| >= 1
    decreases |s|
  {
    if |s| == 0 then [""]
    else if s[0] == c then [""] + Split(s[1..], c)
    else var rest := Split(s[1..], c); [[s[0]] + rest[0]] + rest[1..]
  }

  /** `c * n` for a one-character text: empty when `n` is not positive. */
  function Repeat(c: char, n: int): (r: string)
    ensures |r| == if n <= 0 then 0 else n
    ensures forall i :: 0 <= i < |r| ==> r[i] == c
    decreases n
  {
    if n <= 0 then [] else [c] + Repeat(c, n - 1)
  }
}
