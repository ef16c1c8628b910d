/**
 * The few Python `str` operations the servers rely on: `startswith`, `in`,
 * `replace`, `split`, `strip`, `lower`, `str(int)` and `int(str)`.
 */
module Strings {
  import opened Wrappers

  predicate StartsWith(s: string, prefix: string) {
    |prefix| <= |s| && s[..|prefix|] == prefix
  }

  /** `sub` occurs in `s` starting at index `i`. */
  predicate OccursAt(s: string, sub: string, i: int) {
    0 <= i && i + |sub| <= |s| && s[i..i + |sub|] == sub
  }

  /** Python's `sub in s`. */
  function Contains(s: string, sub: string): (b: bool)
    ensures b <==> exists i :: OccursAt(s, sub, i)
    decreases |s|
  {
    if |sub| > |s| then
      assert forall i :: !OccursAt(s, sub, i);
      false
    else if s[..|sub|] == sub then
      assert OccursAt(s, sub, 0);
      true
    else
      var rest := Contains(s[1..], sub);
      assert forall i :: OccursAt(s, sub, i) && i > 0 ==> OccursAt(s[1..], sub, i - 1) by {
        forall i | OccursAt(s, sub, i) && i > 0 ensures OccursAt(s[1..], sub, i - 1) {
          assert s[1..][i - 1..i - 1 + |sub|] == s[i..i + |sub|];
        }
      }
      assert forall i :: OccursAt(s[1..], sub, i) ==> OccursAt(s, sub, i + 1) by {
        forall i | OccursAt(s[1..], sub, i) ensures OccursAt(s, sub, i + 1) {
          assert s[1..][i..i + |sub|] == s[i + 1..i + 1 + |sub|];
        }
      }
      assert !OccursAt(s, sub, 0);
      rest
  }

  /** Python's `s.replace(pat, rep)`: every non-overlapping occurrence, left to right. */
  function ReplaceAll(s: string, pat: string, rep: string): string
    requires pat != []
    decreases |s|
  {
    if s == [] then []
    else if StartsWith(s, pat) then rep + ReplaceAll(s[|pat|..], pat, rep)
    else [s[0]] + ReplaceAll(s[1..], pat, rep)
  }

  /** Every character of a replacement's result comes from the input or from the replacement text. */
  lemma {:induction false} ReplaceAllChars(s: string, pat: string, rep: string, c: char)
    requires pat != []
    requires c !in s && c !in rep
    ensures c !in ReplaceAll(s, pat, rep)
    decreases |s|
  {
    if s == [] {
    } else if StartsWith(s, pat) {
      ReplaceAllChars(s[|pat|..], pat, rep, c);
    } else {
      ReplaceAllChars(s[1..], pat, rep, c);
    }
  }

  /** Replacing a one-character pattern removes that character entirely. */
  lemma {:induction false} ReplaceAllRemovesChar(s: string, p: char, rep: string)
    requires p !in rep
    ensures p !in ReplaceAll(s, [p], rep)
    decreases |s|
  {
    if s == [] {
    } else if StartsWith(s, [p]) {
      ReplaceAllRemovesChar(s[1..], p, rep);
    } else {
      assert s[0] != p;
      ReplaceAllRemovesChar(s[1..], p, rep);
    }
  }

  lemma ContainsTail(s: string, sub: string)
    requires s != []
    ensures Contains(s[1..], sub) ==> Contains(s, sub)
  {
    if Contains(s[1..], sub) {
      var i :| OccursAt(s[1..], sub, i);
      assert s[1..][i..i + |sub|] == s[i + 1..i + 1 + |sub|];
      assert OccursAt(s, sub, i + 1);
    }
  }

  /** A pattern that does not occur leaves the text unchanged. */
  lemma {:induction false} ReplaceAllAbsent(s: string, pat: string, rep: string)
    requires pat != [] && !Contains(s, pat)
    ensures ReplaceAll(s, pat, rep) == s
    decreases |s|
  {
    if s != [] {
      assert !OccursAt(s, pat, 0);
      assert !StartsWith(s, pat);
      ContainsTail(s, pat);
      ReplaceAllAbsent(s[1..], pat, rep);
    }
  }

  /** Index of the first occurrence of `c` in `s`, if any. */
  function IndexOf(s: string, c: char): (r: Option<nat>)
    ensures r.None? <==> c !in s
    ensures r.Some? ==> r.value < |s| && s[r.value] == c && c !in s[..r.value]
  {
    if s == [] then None
    else if s[0] == c then Some(0)
    else match IndexOf(s[1..], c)
      case None => None
      case Some(k) =>
        assert s[..k + 1] == [s[0]] + s[1..][..k];
        Some(k + 1)
  }

  /** Python's `s.split(c, 1)`: the text before the first `c` and, when there is one, the text after it. */
  function SplitFirst(s: string, c: char): (r: (string, Option<string>))
    ensures r.1.None? ==> c !in s && r.0 == s
    ensures r.1.Some? ==> s == r.0 + [c] + r.1.value && c !in r.0
  {
    match IndexOf(s, c)
      case None => (s, None)
      case Some(k) =>
        assert s == s[..k] + [c] + s[k + 1..];
        (s[..k], Some(s[k + 1..]))
  }

  lemma {:induction false} IndexOfAfter(a: string, c: char, b: string)
    requires c !in a
    ensures IndexOf(a + [c] + b, c) == Some(|a|)
  {
    if a != [] {
      assert (a + [c] + b)[1..] == a[1..] + [c] + b;
      IndexOfAfter(a[1..], c, b);
    }
  }

  /** Splitting at the first separator of `a + [c] + b`, when `a` has none, gives `a` and `b`. */
  lemma SplitFirstAt(a: string, c: char, b: string)
    requires c !in a
    ensures SplitFirst(a + [c] + b, c) == (a, Some(b))
  {
    IndexOfAfter(a, c, b);
    var s := a + [c] + b;
    assert s[..|a|] == a && s[|a| + 1..] == b;
  }

  /** Python's `s.split(c)` for a one-character separator. */
  function Split(s: string, c: char): (parts: seq<string>)
    ensures |parts| >= 1
    ensures forall i :: 0 <= i < |parts| ==> c !in parts[i]
    decreases |s|
  {
    match SplitFirst(s, c)
      case (head, None) => [head]
      case (head, Some(tail)) => [head] + Split(tail, c)
  }

  lemma SplitCons(a: string, c: char, b: string)
    requires c !in a
    ensures Split(a + [c] + b, c) == [a] + Split(b, c)
  {
    SplitFirstAt(a, c, b);
  }

  /** `c.join(parts)`. */
  function Join(parts: seq<string>, c: char): string
    requires |parts| >= 1
  {
    if |parts| == 1 then parts[0] else parts[0] + [c] + Join(parts[1..], c)
  }

  lemma {:induction false} JoinSplit(s: string, c: char)
    ensures Join(Split(s, c), c) == s
    decreases |s|
  {
    match SplitFirst(s, c)
      case (head, None) =>
      case (head, Some(tail)) =>
        JoinSplit(tail, c);
        assert Split(s, c) == [head] + Split(tail, c);
        assert Split(s, c)[1..] == Split(tail, c);
  }

  /** The characters Python's `str.isspace` accepts; `strip()` and `int()` remove them. */
  predicate IsSpace(c: char) {
    var n := c as int;
    (9 <= n <= 13) || (28 <= n <= 32) || n == 0x85 || n == 0xA0 || n == 0x1680
    || (0x2000 <= n <= 0x200A) || n == 0x2028 || n == 0x2029 || n == 0x202F || n == 0x205F
    || n == 0x3000
  }

  function StripLeft(s: string): (r: string)
    ensures |r| <= |s| && r == s[|s| - |r|..]
    ensures r == [] || !IsSpace(r[0])
    ensures forall i :: 0 <= i < |s| - |r| ==> IsSpace(s[i])
  {
    if s != [] && IsSpace(s[0]) then
      var r := StripLeft(s[1..]);
      assert s[1..][|s| - 1 - |r|..] == s[|s| - |r|..];
      assert forall i :: 1 <= i < |s| - |r| ==> s[i] == s[1..][i - 1];
      r
    else s
  }

  function StripRight(s: string): (r: string)
    ensures |r| <= |s| && r == s[..|r|]
    ensures r == [] || !IsSpace(r[|r| - 1])
    ensures forall i :: |r| <= i < |s| ==> IsSpace(s[i])
  {
    if s != [] && IsSpace(s[|s| - 1]) then StripRight(s[..|s| - 1]) else s
  }

  /** Python's `s.strip()`. */
  function Strip(s: string): string {
    StripRight(StripLeft(s))
  }

  /** `s.strip()` is empty exactly when every character of `s` is whitespace. */
  lemma StripEmptyIffBlank(s: string)
    ensures Strip(s) == [] <==> forall i :: 0 <= i < |s| ==> IsSpace(s[i])
  {
    var l := StripLeft(s);
    if l != [] {
      assert !IsSpace(s[|s| - |l|]);
    }
  }

  /** Python's `s.strip(c)` for one character. */
  function StripChar(s: string, c: char): (r: string)
    ensures r == [] || (r[0] != c && r[|r| - 1] != c)
    ensures forall x :: x in r ==> x in s
    decreases |s|
  {
    if s == [] then []
    else if s[0] == c then StripChar(s[1..], c)
    else if s[|s| - 1] == c then StripChar(s[..|s| - 1], c)
    else s
  }

  /** `r` is `s[i..]` less a tail, and what lies outside it on either side is all `c`. */
  predicate StrippedAt(s: string, r: string, c: char, i: int) {
    0 <= i <= |s| - |r| && r == s[i..i + |r|]
    && (forall k :: 0 <= k < i ==> s[k] == c) && (forall k :: i + |r| <= k < |s| ==> s[k] == c)
  }

  /** What `strip` removes is a run of `c` at each end: the result is the middle of `s`. */
  lemma {:induction false} StripCharInfix(s: string, c: char)
    ensures exists i :: StrippedAt(s, StripChar(s, c), c, i)
    decreases |s|
  {
    var r := StripChar(s, c);
    if s == [] {
      assert StrippedAt(s, r, c, 0);
    } else if s[0] == c {
      StripCharInfix(s[1..], c);
      var i :| StrippedAt(s[1..], r, c, i);
      assert s[1..][i..i + |r|] == s[i + 1..i + 1 + |r|];
      assert r == s[i + 1..i + 1 + |r|];
      forall k | 0 <= k < i + 1 ensures s[k] == c {
        if k > 0 { assert s[k] == s[1..][k - 1]; }
      }
      forall k | i + 1 + |r| <= k < |s| ensures s[k] == c {
        assert s[k] == s[1..][k - 1];
      }
      assert StrippedAt(s, r, c, i + 1);
    } else if s[|s| - 1] == c {
      var t := s[..|s| - 1];
      StripCharInfix(t, c);
      var i :| StrippedAt(t, r, c, i);
      assert r == s[i..i + |r|];
      forall k | i + |r| <= k < |s| ensures s[k] == c {
        if k < |t| { assert s[k] == t[k]; }
      }
      assert StrippedAt(s, r, c, i);
    } else {
      assert r == s[0..|s|];
      assert StrippedAt(s, r, c, 0);
    }
  }

  function LowerChar(c: char): char {
    if 'A' <= c <= 'Z' then (c as int + 32) as char else c
  }

  /** `s.lower()` on the ASCII letters. */
  function LowerAscii(s: string): (r: string)
    ensures |r| == |s| && forall i :: 0 <= i < |s| ==> r[i] == LowerChar(s[i])
  {
    if s == [] then [] else [LowerChar(s[0])] + LowerAscii(s[1..])
  }

  predicate IsDigit(c: char) {
    '0' <= c <= '9'
  }

  predicate AllDigits(s: string) {
    forall i :: 0 <= i < |s| ==> IsDigit(s[i])
  }

  function DigitChar(d: nat): char
    requires d < 10
  {
    (48 + d) as char
  }

  function DigitValue(c: char): nat
    requires IsDigit(c)
  {
    c as int - 48
  }

  /** `str(n)` for a natural number. */
  function NatToDecimal(n: nat): (s: string)
    ensures |s| >= 1 && AllDigits(s)
    ensures s[0] == '0' ==> n == 0
  {
    if n < 10 then [DigitChar(n)] else NatToDecimal(n / 10) + [DigitChar(n % 10)]
  }

  /** `str(i)` for any integer. */
  function IntToDecimal(i: int): string {
    if i < 0 then "-" + NatToDecimal(-i) else NatToDecimal(i)
  }

  /** The value of a string of decimal digits. */
  function DigitsValue(s: string): nat
    requires AllDigits(s)
  {
    if s == [] then 0 else DigitsValue(s[..|s| - 1]) * 10 + DigitValue(s[|s| - 1])
  }

  lemma {:induction false} DecimalRoundTrip(n: nat)
    ensures DigitsValue(NatToDecimal(n)) == n
  {
    if n >= 10 {
      DecimalRoundTrip(n / 10);
      var s := NatToDecimal(n);
      assert s[..|s| - 1] == NatToDecimal(n / 10);
    }
  }

  /** Digits with single underscores between them, as Python's `int()` accepts. */
  predicate IsDigitGroup(s: string) {
    |s| >= 1 && IsDigit(s[0]) && IsDigit(s[|s| - 1])
    && (forall i :: 0 <= i < |s| ==> IsDigit(s[i]) || s[i] == '_')
    && NoDoubleUnderscore(s)
  }

  predicate NoDoubleUnderscore(s: string) {
    |s| < 2 || (!(s[0] == '_' && s[1] == '_') && NoDoubleUnderscore(s[1..]))
  }

  lemma DigitsNoDoubleUnderscore(s: string)
    requires AllDigits(s)
    ensures NoDoubleUnderscore(s)
  {
    if |s| >= 2 {
      assert AllDigits(s[1..]);
      DigitsNoDoubleUnderscore(s[1..]);
    }
  }

  function RemoveUnderscores(s: string): (r: string)
    requires forall i :: 0 <= i < |s| ==> IsDigit(s[i]) || s[i] == '_'
    ensures AllDigits(r)
    ensures AllDigits(s) ==> r == s
  {
    if s == [] then [] else (if s[0] == '_' then [] else [s[0]]) + RemoveUnderscores(s[1..])
  }

  /** Python's `int(s)` on text in base 10; `None` where Python raises `ValueError`. */
  function PyInt(s: string): Option<int> {
    var t := Strip(s);
    if t == [] then None
    else
      var (negative, body) := Signed(t);
      if !IsDigitGroup(body) then None
      else
        var v: int := DigitsValue(RemoveUnderscores(body));
        Some(if negative then -v else v)
  }

  /** Whether a stripped literal is negative, and the text after its sign. */
  function Signed(t: string): (bool, string)
    requires t != []
  {
    if t[0] == '-' then (true, t[1..]) else if t[0] == '+' then (false, t[1..]) else (false, t)
  }

  lemma StripDigits(s: string)
    requires |s| >= 1 && (IsDigit(s[0]) || s[0] == '-') && IsDigit(s[|s| - 1])
    ensures Strip(s) == s
  {
    assert !IsSpace(s[0]);
    assert StripLeft(s) == s;
    assert !IsSpace(s[|s| - 1]);
  }

  lemma DigitsAreGroup(s: string)
    requires |s| >= 1 && AllDigits(s)
    ensures IsDigitGroup(s) && RemoveUnderscores(s) == s
  {
    DigitsNoDoubleUnderscore(s);
  }

  /** `int(s)` of a non-empty run of ASCII digits is their decimal value, leading zeros and all. */
  lemma PyIntDigits(s: string)
    requires |s| >= 1 && AllDigits(s)
    ensures PyInt(s) == Some(DigitsValue(s))
  {
    StripDigits(s);
    assert Signed(s) == (false, s);
    DigitsAreGroup(s);
    PyIntOfGroup(s, false, s);
  }

  /** `int` of a stripped literal whose text after the sign is a digit group. */
  lemma PyIntOfGroup(s: string, negative: bool, body: string)
    requires s != [] && Strip(s) == s && Signed(s) == (negative, body)
    requires IsDigitGroup(body)
    ensures PyInt(s) == Some(if negative then -(DigitsValue(RemoveUnderscores(body)) as int)
                             else DigitsValue(RemoveUnderscores(body)))
  {
  }

  /** `int` of a digit run with a leading minus. */
  lemma PyIntNegative(s: string)
    requires |s| >= 2 && s[0] == '-' && AllDigits(s[1..])
    ensures PyInt(s) == Some(-(DigitsValue(s[1..]) as int))
  {
    assert s[|s| - 1] == s[1..][|s| - 2];
    StripDigits(s);
    assert Signed(s) == (true, s[1..]);
    DigitsAreGroup(s[1..]);
    PyIntOfGroup(s, true, s[1..]);
  }

  /** `int(str(i)) == i`. */
  lemma PyIntRoundTrip(i: int)
    ensures PyInt(IntToDecimal(i)) == Some(i)
  {
    var n: nat := if i < 0 then -i else i;
    DecimalRoundTrip(n);
    if i < 0 {
      var s := IntToDecimal(i);
      assert s[1..] == NatToDecimal(n);
      PyIntNegative(s);
    } else {
      PyIntDigits(NatToDecimal(n));
    }
  }
}
