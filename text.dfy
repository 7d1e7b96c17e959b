/**
 * The few Python string operations the ingestion code relies on:
 * `str.lower`, `str.upper`, `str.replace`, `str(int)`, `int(str)` and
 * `int(float(str))`, restricted to ASCII text.
 */
module Text {
  import opened Wrappers

  predicate IsUpperAscii(c: char) {
    'A' <= c <= 'Z'
  }

  predicate IsLowerAscii(c: char) {
    'a' <= c <= 'z'
  }

  predicate IsDigit(c: char) {
    '0' <= c <= '9'
  }

  /** No character of `s` is an upper-case letter. */
  predicate IsLower(s: string) {
    forall i :: 0 <= i < |s| ==> !IsUpperAscii(s[i])
  }

  function LowerChar(c: char): char {
    if IsUpperAscii(c) then (c as int - 'A' as int + 'a' as int) as char else c
  }

  function UpperChar(c: char): char {
    if IsLowerAscii(c) then (c as int - 'a' as int + 'A' as int) as char else c
  }

  /**
   * `s.lower()`: the same length, each upper-case letter replaced by its
   * lower-case letter (32 code points on), other characters kept.
   */
  function Lower(s: string): (r: string)
    ensures |r| == |s| && IsLower(r)
    ensures forall i :: 0 <= i < |s| && IsUpperAscii(s[i]) ==> r[i] == (s[i] as int + 32) as char
    ensures forall i :: 0 <= i < |s| && !IsUpperAscii(s[i]) ==> r[i] == s[i]
  {
    seq(|s|, i requires 0 <= i < |s| => LowerChar(s[i]))
  }

  /**
   * `s.upper()`: the same length, each lower-case letter replaced by its
   * upper-case letter (32 code points back), other characters kept.
   */
  function Upper(s: string): (r: string)
    ensures |r| == |s|
    ensures forall i :: 0 <= i < |r| ==> !IsLowerAscii(r[i])
    ensures forall i :: 0 <= i < |s| && IsLowerAscii(s[i]) ==> r[i] == (s[i] as int - 32) as char
    ensures forall i :: 0 <= i < |s| && !IsLowerAscii(s[i]) ==> r[i] == s[i]
  {
    seq(|s|, i requires 0 <= i < |s| => UpperChar(s[i]))
  }

  /** Lower-casing text that is already lower-case changes nothing. */
  lemma LowerOfLower(s: string)
    requires IsLower(s)
    ensures Lower(s) == s
  {
  }

  /** Lower-casing is idempotent. */
  lemma LowerIdempotent(s: string)
    ensures Lower(Lower(s)) == Lower(s)
  {
    LowerOfLower(Lower(s));
  }

  /**
   * `s.replace(c, t)` for a single-character pattern `c`: an occurrence of
   * `c` becomes `t`, any other character stays; with `ReplaceCharConcat`
   * this fixes the result on every string.
   */
  function ReplaceChar(s: string, c: char, t: string): (r: string)
    ensures s == [] ==> r == []
    ensures s == [c] ==> r == t
    ensures |s| == 1 && s[0] != c ==> r == s
    ensures c !in t ==> c !in r
    ensures c !in s ==> r == s
  {
    if s == [] then []
    else (if s[0] == c then t else [s[0]]) + ReplaceChar(s[1..], c, t)
  }

  /** Replacing works character by character: it distributes over concatenation. */
  lemma {:induction false} ReplaceCharConcat(a: string, b: string, c: char, t: string)
    ensures ReplaceChar(a + b, c, t) == ReplaceChar(a, c, t) + ReplaceChar(b, c, t)
  {
    if a == [] {
      assert a + b == b;
    } else {
      assert (a + b)[0] == a[0] && (a + b)[1..] == a[1..] + b;
      ReplaceCharConcat(a[1..], b, c, t);
    }
  }

  predicate AllDigits(s: string) {
    forall i :: 0 <= i < |s| ==> IsDigit(s[i])
  }

  function DigitValue(c: char): nat
    requires IsDigit(c)
  {
    c as int - '0' as int
  }

  function DigitChar(d: nat): (c: char)
    requires d < 10
    ensures IsDigit(c) && DigitValue(c) == d
  {
    ('0' as int + d) as char
  }

  /** The number a string of decimal digits denotes (most significant first). */
  function DigitsValue(s: string): nat
    requires AllDigits(s)
  {
    if s == [] then 0 else DigitsValue(s[..|s| - 1]) * 10 + DigitValue(s[|s| - 1])
  }

  /** The decimal digits of `n`, without leading zeros. */
  function NatToString(n: nat): (s: string)
    ensures |s| > 0 && AllDigits(s)
  {
    if n < 10 then [DigitChar(n)] else NatToString(n / 10) + [DigitChar(n % 10)]
  }

  /** `str(n)` for a Python int. */
  function IntToString(n: int): string {
    if n < 0 then "-" + NatToString(-n) else NatToString(n)
  }

  lemma {:induction false} NatToStringValue(n: nat)
    ensures DigitsValue(NatToString(n)) == n
  {
    var s := NatToString(n);
    if n >= 10 {
      NatToStringValue(n / 10);
      assert s[..|s| - 1] == NatToString(n / 10);
    }
  }

  /** An optional sign split off the front of a numeral. */
  function SignOf(s: string): (r: (int, string))
    ensures r.0 == 1 || r.0 == -1
  {
    if |s| > 0 && s[0] == '-' then (-1, s[1..])
    else if |s| > 0 && s[0] == '+' then (1, s[1..])
    else (1, s)
  }

  /**
   * `int(s)` for a string: an optional sign followed by one or more
   * decimal digits; anything else raises (None here).
   */
  function ParseInt(s: string): (r: Option<int>)
    ensures r.Some? <==> |SignOf(s).1| > 0 && AllDigits(SignOf(s).1)
  {
    var (sign, digits) := SignOf(s);
    if |digits| > 0 && AllDigits(digits) then Some(sign * DigitsValue(digits)) else None
  }

  /** `int(str(n)) == n`: printing and parsing an integer round-trips. */
  lemma IntToStringRoundTrip(n: int)
    ensures ParseInt(IntToString(n)) == Some(n)
  {
    var s := IntToString(n);
    if n < 0 {
      NatToStringValue(-n);
      assert SignOf(s).1 == NatToString(-n);
    } else {
      NatToStringValue(n);
      assert SignOf(s).1 == NatToString(n);
    }
  }

  /** The position of the first `c` in `s`, if any. */
  function IndexOf(s: string, c: char): (r: Option<nat>)
    ensures r.Some? ==> r.value < |s| && s[r.value] == c && c !in s[..r.value]
    ensures r.None? ==> c !in s
  {
    if s == [] then None
    else if s[0] == c then Some(0)
    else match IndexOf(s[1..], c)
      case None => None
      case Some(k) => assert s[1..][..k] == s[1..k + 1]; Some(k + 1)
  }

  /**
   * `int(float(s))` for a plain decimal numeral: an optional sign, digits,
   * optionally a point and more digits, at least one digit in all. The
   * fractional part is discarded, so the result is truncated toward zero.
   */
  function ParseFloatTrunc(s: string): (r: Option<int>)
  {
    var (sign, body) := SignOf(s);
    match IndexOf(body, '.')
    case None =>
      if |body| > 0 && AllDigits(body) then Some(sign * DigitsValue(body)) else None
    case Some(k) =>
      var whole, fraction := body[..k], body[k + 1..];
      if |whole| + |fraction| > 0 && AllDigits(whole) && AllDigits(fraction)
      then Some(sign * DigitsValue(whole))
      else None
  }

  /** On an integer numeral, `int(float(s))` agrees with `int(s)`. */
  lemma ParseFloatTruncOnIntegers(s: string)
    requires ParseInt(s).Some?
    ensures ParseFloatTrunc(s) == ParseInt(s)
  {
    var body := SignOf(s).1;
    assert forall i :: 0 <= i < |body| ==> body[i] != '.';
  }

  /** The fractional digits of a numeral do not reach its integer value. */
  lemma ParseFloatTruncDropsFraction(whole: string, fraction: string)
    requires |whole| > 0 && AllDigits(whole) && AllDigits(fraction)
    ensures ParseFloatTrunc(whole + "." + fraction) == ParseInt(whole)
    ensures ParseFloatTrunc("-" + whole + "." + fraction) == ParseInt("-" + whole)
  {
    var body := whole + "." + fraction;
    assert forall i :: 0 <= i < |whole| ==> whole[i] != '.';
    assert body[|whole|] == '.';
    assert IndexOf(body, '.') == Some(|whole|) by {
      assert forall i :: 0 <= i < |whole| ==> body[i] == whole[i];
    }
    assert body[..|whole|] == whole && body[|whole| + 1..] == fraction;
    var negative := "-" + whole + "." + fraction;
    assert negative == "-" + body && negative[1..] == body;
    assert SignOf(negative) == (-1, body);
    assert SignOf("-" + whole) == (-1, whole) by {
      assert ("-" + whole)[1..] == whole;
    }
    assert SignOf(whole) == (1, whole) by {
      assert IsDigit(whole[0]);
    }
  }
}
