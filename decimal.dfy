/**
 * Decimal text of integers: the formatting Go's fmt uses for %d and %v on an
 * integer, a reference parser that reads such text back, and strconv.Atoi as
 * the calculator uses it (optional sign, decimal digits, clamped to 64 bits).
 */
module Decimal {
  import opened Results
  import opened MachineInt

  predicate IsDigit(c: char) {
    '0' <= c <= '9'
  }

  predicate AllDigits(s: string) {
    forall i :: 0 <= i < |s| ==> IsDigit(s[i])
  }

  function DigitChar(d: nat): (c: char)
    requires d < 10
    ensures IsDigit(c)
  {
    (('0' as int) + d) as char
  }

  function DigitValue(c: char): (d: nat)
    requires IsDigit(c)
    ensures d < 10 && DigitChar(d) == c
  {
    (c as int) - ('0' as int)
  }

  /** The shortest decimal text of n: at least one digit, no leading zero. */
  function NatToString(n: nat): (s: string)
    ensures |s| >= 1 && AllDigits(s)
    ensures (s[0] == '0') == (n == 0)
    decreases n
  {
    if n < 10 then [DigitChar(n)] else NatToString(n / 10) + [DigitChar(n % 10)]
  }

  /** %d of an int: a minus sign before the digits of a negative number. */
  function IntToString(n: int): (s: string)
    ensures |s| >= 1
    ensures (s[0] == '-') == (n < 0)
  {
    if n < 0 then "-" + NatToString(-n) else NatToString(n)
  }

  /** The number a string of decimal digits denotes (the empty string denotes 0). */
  function DigitsValue(s: string): nat
    requires AllDigits(s)
    decreases |s|
  {
    if |s| == 0 then 0 else DigitsValue(s[..|s| - 1]) * 10 + DigitValue(s[|s| - 1])
  }

  /** Reference reader of decimal text: an optional sign, then one or more digits. */
  function ParseInt(s: string): Option<int> {
    if |s| >= 2 && (s[0] == '-' || s[0] == '+') && AllDigits(s[1..]) then
      Some(if s[0] == '-' then 0 - DigitsValue(s[1..]) else DigitsValue(s[1..]) as int)
    else if |s| >= 1 && AllDigits(s) then
      Some(DigitsValue(s))
    else
      None
  }

  lemma {:induction false} NatToStringRoundTrip(n: nat)
    ensures DigitsValue(NatToString(n)) == n
    decreases n
  {
    if n >= 10 {
      var prefix := NatToString(n / 10);
      var s := prefix + [DigitChar(n % 10)];
      assert s[..|s| - 1] == prefix;
      NatToStringRoundTrip(n / 10);
    }
  }

  /** Reading back the printed text of any integer gives that integer. */
  lemma IntToStringRoundTrip(n: int)
    ensures ParseInt(IntToString(n)) == Some(n)
  {
    var digits := NatToString(if n < 0 then -n else n);
    NatToStringRoundTrip(if n < 0 then -n else n);
    if n < 0 {
      var s := "-" + digits;
      assert s[1..] == digits;
    }
  }

  /** Different integers print differently. */
  lemma IntToStringInjective(a: int, b: int)
    requires IntToString(a) == IntToString(b)
    ensures a == b
  {
    IntToStringRoundTrip(a);
    IntToStringRoundTrip(b);
  }

  /** The length of the longest prefix of s made of digits. */
  function DigitRun(s: string): (n: nat)
    ensures n <= |s| && AllDigits(s[..n])
    ensures n < |s| ==> !IsDigit(s[n])
    decreases |s|
  {
    if |s| == 0 || !IsDigit(s[0]) then 0
    else
      var n := 1 + DigitRun(s[1..]);
      assert forall i :: 1 <= i < n ==> s[..n][i] == s[1..][..n - 1][i - 1];
      n
  }

  /** The text after an optional leading sign. */
  function Unsigned(s: string): string {
    if |s| > 0 && (s[0] == '-' || s[0] == '+') then s[1..] else s
  }

  /**
   * strconv.ParseUint's early exit: the digits that open the unsigned part
   * already exceed 2^64 - 1, whatever characters follow them.
   */
  predicate OverflowsEarly(s: string) {
    var u := Unsigned(s);
    DigitsValue(u[..DigitRun(u)]) > MaxOf(Uint64)
  }

  /** ParseInt's range check for a 64-bit int: a value outside is clamped to the nearer end. */
  function ClampInt64(v: int): (r: int)
    ensures InRange(Int64, r)
    ensures InRange(Int64, v) ==> r == v
    ensures v > MaxOf(Int64) ==> r == MaxOf(Int64)
    ensures v < MinOf(Int64) ==> r == MinOf(Int64)
  {
    if v < MinOf(Int64) then MinOf(Int64) else if v > MaxOf(Int64) then MaxOf(Int64) else v
  }

  /**
   * strconv.Atoi with its error ignored. Well-formed decimal text gives its
   * value, clamped to the int64 range when it overflows. Text whose leading
   * digits overflow 64 bits gives the clamped end of the range for its sign,
   * even when a bad character follows them, because ParseUint stops at the
   * overflow before it sees that character. Any other text gives 0.
   */
  function Atoi(s: string): (r: int)
    ensures InRange(Int64, r)
    ensures ParseInt(s).Some? ==> r == ClampInt64(ParseInt(s).value)
    ensures ParseInt(s).None? && !OverflowsEarly(s) ==> r == 0
    ensures OverflowsEarly(s) ==> |s| > 0 && r == if s[0] == '-' then MinOf(Int64) else MaxOf(Int64)
  {
    if OverflowsEarly(s) then
      ParsedOverflow(s);
      if s[0] == '-' then MinOf(Int64) else MaxOf(Int64)
    else
      match ParseInt(s)
      case None => 0
      case Some(v) => ClampInt64(v)
  }

  /** When the whole text parses and its digits overflow, ParseInt's value lies beyond the int64 range in the sign's direction. */
  lemma ParsedOverflow(s: string)
    requires OverflowsEarly(s)
    ensures |s| > 0
    ensures ParseInt(s).Some? ==> if s[0] == '-' then ParseInt(s).value < MinOf(Int64) else ParseInt(s).value > MaxOf(Int64)
  {
    var u := Unsigned(s);
    if ParseInt(s).Some? {
      var k := DigitRun(u);
      if |s| >= 2 && (s[0] == '-' || s[0] == '+') && AllDigits(s[1..]) {
        assert u == s[1..];
      } else {
        assert u == s;
      }
      assert k == |u|;
      assert u[..k] == u;
    }
  }

  /** The value of a digit string does not decrease when digits are appended. */
  lemma {:induction false} DigitsValueGrows(a: string, b: string)
    requires AllDigits(a + b)
    ensures AllDigits(a) && DigitsValue(a + b) >= DigitsValue(a)
    decreases |b|
  {
    assert forall i :: 0 <= i < |a| ==> a[i] == (a + b)[i];
    if |b| > 0 {
      var c := a + b;
      var b' := b[..|b| - 1];
      assert c[..|c| - 1] == a + b';
      assert forall i :: 0 <= i < |a + b'| ==> (a + b')[i] == c[i];
      DigitsValueGrows(a, b');
      assert DigitsValue(c) == DigitsValue(a + b') * 10 + DigitValue(c[|c| - 1]);
    } else {
      assert a + b == a;
    }
  }

  /** Digits that overflow 64 bits overflow early whatever follows them, and whatever sign precedes them. */
  lemma {:induction false} OverflowsEarlyPrefix(t: string, rest: string)
    requires |t| >= 1 && AllDigits(t) && DigitsValue(t) > MaxOf(Uint64)
    ensures OverflowsEarly(t + rest) && OverflowsEarly("+" + t + rest) && OverflowsEarly("-" + t + rest)
  {
    var u := t + rest;
    var k := DigitRun(u);
    assert u[..k] == t + u[..k][|t|..];
    DigitsValueGrows(t, u[..k][|t|..]);
    assert Unsigned(u) == u by {
      assert u[0] == t[0];
    }
    assert ("+" + t + rest)[1..] == u;
    assert ("-" + t + rest)[1..] == u;
  }

  /**
   * Digits that overflow 64 bits decide Atoi whatever follows them:
   * 99999999999999999999x gives the largest int64, and with a minus sign the smallest.
   */
  lemma AtoiOverflowFirst(t: string, rest: string)
    requires |t| >= 1 && AllDigits(t) && DigitsValue(t) > MaxOf(Uint64)
    ensures Atoi(t + rest) == MaxOf(Int64) && Atoi("+" + t + rest) == MaxOf(Int64)
    ensures Atoi("-" + t + rest) == MinOf(Int64)
  {
    OverflowsEarlyPrefix(t, rest);
    assert (t + rest)[0] == t[0];
  }

  /** A text with a character that is not a digit after its sign, and no overflow before it, gives 0. */
  lemma AtoiMalformed(s: string)
    requires ParseInt(s).None? && DigitsValue(Unsigned(s)[..DigitRun(Unsigned(s))]) <= MaxOf(Uint64)
    ensures Atoi(s) == 0
  {
  }

  /** Atoi reads back the %d text of every 64-bit integer. */
  lemma AtoiRoundTrip(n: int)
    requires InRange(Int64, n)
    ensures Atoi(IntToString(n)) == n
  {
    IntToStringRoundTrip(n);
  }
}
