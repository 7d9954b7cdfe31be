/** The string operations of Python that the metadata code relies on:
    `str.replace(old, '')`, `str(n)` and `int(text)` for integers. */
module Text {
  import opened Wrappers

  /** `p` is a prefix of `s`. */
  predicate IsPrefix(p: string, s: string)
  {
    |p| <= |s| && s[..|p|] == p
  }

  /** Python's `p in s` for strings: `p` occurs somewhere in `s`. */
  predicate Occurs(p: string, s: string)
    decreases |s|
  {
    IsPrefix(p, s) || (|s| > 0 && Occurs(p, s[1..]))
  }

  /** Python's `s.replace(p, '')`: scanning left to right, every
      non-overlapping occurrence of `p` is dropped. */
  function RemoveAll(s: string, p: string): (r: string)
    requires |p| > 0
    ensures |r| <= |s|
    ensures !Occurs(p, s) ==> r == s
    decreases |s|
  {
    if IsPrefix(p, s) then RemoveAll(s[|p|..], p)
    else if s == [] then []
    else [s[0]] + RemoveAll(s[1..], p)
  }

  /** Removing all `p` from `p + t` gives back `t` when `t` itself does not contain `p`. */
  lemma RemoveAllPrefixed(p: string, t: string)
    requires |p| > 0 && !Occurs(p, t)
    ensures RemoveAll(p + t, p) == t
  {
    assert IsPrefix(p, p + t);
    assert (p + t)[|p|..] == t;
  }

  /** A string that does not contain the first character of `p` does not contain `p`. */
  lemma {:induction false} NoOccurrenceWithoutFirstChar(p: string, t: string)
    requires |p| > 0 && p[0] !in t
    ensures !Occurs(p, t)
    decreases |t|
  {
    if |t| > 0 {
      assert t[0] in t;
      assert forall c :: c in t[1..] ==> c in t;
      NoOccurrenceWithoutFirstChar(p, t[1..]);
    }
  }

  // ---------------------------------------------------------------------
  // Integers as decimal text

  predicate IsDigit(c: char)
  {
    '0' <= c <= '9'
  }

  predicate AllDigits(s: string)
  {
    forall i :: 0 <= i < |s| ==> IsDigit(s[i])
  }

  function DigitChar(d: nat): (c: char)
    requires d < 10
    ensures IsDigit(c)
  {
    (48 + d) as char
  }

  function CharDigit(c: char): (d: nat)
    requires IsDigit(c)
    ensures d < 10
  {
    (c as int) - 48
  }

  /** The decimal digits of `n`, without leading zeros. */
  function NatToDigits(n: nat): (r: string)
    decreases n
  {
    if n < 10 then [DigitChar(n)] else NatToDigits(n / 10) + [DigitChar(n % 10)]
  }

  /** The value of a string of decimal digits (leading zeros allowed). */
  function DigitsValue(s: string): nat
    requires AllDigits(s)
    decreases |s|
  {
    if s == [] then 0 else DigitsValue(s[..|s| - 1]) * 10 + CharDigit(s[|s| - 1])
  }

  /** Python's `str(i)` for an integer. */
  function IntToString(i: int): string
  {
    if i < 0 then "-" + NatToDigits(-i) else NatToDigits(i)
  }

  /** The characters Python's `str.isspace` accepts, which `int()` and `float()`
      ignore around their argument. */
  predicate IsSpace(c: char)
  {
    ('\t' <= c <= '\r') || ('\U{1C}' <= c <= ' ') || c == '\U{85}' || c == '\U{A0}' || c == '\U{1680}'
    || ('\U{2000}' <= c <= '\U{200A}') || c == '\U{2028}' || c == '\U{2029}' || c == '\U{202F}'
    || c == '\U{205F}' || c == '\U{3000}'
  }

  function TrimLeft(s: string): (r: string)
    ensures |r| <= |s|
    decreases |s|
  {
    if |s| > 0 && IsSpace(s[0]) then TrimLeft(s[1..]) else s
  }

  function TrimRight(s: string): (r: string)
    ensures |r| <= |s|
    decreases |s|
  {
    if |s| > 0 && IsSpace(s[|s| - 1]) then TrimRight(s[..|s| - 1]) else s
  }

  /** Python's `s.strip()`. */
  function Strip(s: string): string
  {
    TrimRight(TrimLeft(s))
  }

  /** Python's `int(s)` on text: optional surrounding whitespace, an optional sign,
      then one or more decimal digits. `None` stands for the `ValueError` it raises
      on anything else. */
  function ParseInt(s: string): (r: Option<int>)
  {
    var t := Strip(s);
    if t == [] then None
    else
      var neg := t[0] == '-';
      var ds := if t[0] == '-' || t[0] == '+' then t[1..] else t;
      if ds == [] || !AllDigits(ds) then None
      else
        var n: int := DigitsValue(ds);
        var v := if neg then -n else n;
        Some(v)
  }

  lemma {:induction false} NatToDigitsShape(n: nat)
    ensures |NatToDigits(n)| > 0 && AllDigits(NatToDigits(n))
    ensures DigitsValue(NatToDigits(n)) == n
    decreases n
  {
    if n >= 10 {
      NatToDigitsShape(n / 10);
      var s := NatToDigits(n / 10) + [DigitChar(n % 10)];
      assert s[..|s| - 1] == NatToDigits(n / 10);
    }
  }

  lemma StripUnpadded(s: string)
    requires |s| > 0 && !IsSpace(s[0]) && !IsSpace(s[|s| - 1])
    ensures Strip(s) == s
  {
  }

  /** `int(str(i)) == i` for every integer. */
  lemma IntRoundTrip(i: int)
    ensures ParseInt(IntToString(i)) == Some(i)
  {
    var n: nat := if i < 0 then -i else i;
    NatToDigitsShape(n);
    var ds := NatToDigits(n);
    var s := IntToString(i);
    assert s[|s| - 1] == ds[|ds| - 1];
    StripUnpadded(s);
    if i < 0 {
      assert s[1..] == ds;
    }
  }

  // ---------------------------------------------------------------------
  // Floating-point literals

  /** The number of decimal digits `s` starts with. */
  function DigitRun(s: string): (n: nat)
    ensures n <= |s| && AllDigits(s[..n])
    ensures n < |s| ==> !IsDigit(s[n])
    decreases |s|
  {
    if |s| > 0 && IsDigit(s[0]) then
      var n := 1 + DigitRun(s[1..]);
      assert s[..n] == [s[0]] + s[1..][..n - 1];
      n
    else 0
  }

  /** ASCII letters folded to lower case; every other character unchanged. */
  function LowerAscii(s: string): string
  {
    seq(|s|, i requires 0 <= i < |s| => if 'A' <= s[i] <= 'Z' then (s[i] as int + 32) as char else s[i])
  }

  /** An exponent: `e` or `E`, an optional sign, one or more digits. */
  predicate IsExponent(x: string)
  {
    |x| > 0 && (x[0] == 'e' || x[0] == 'E')
    && var y := if |x| > 1 && (x[1] == '-' || x[1] == '+') then x[2..] else x[1..];
       |y| > 0 && AllDigits(y)
  }

  /** Digits, an optional fraction and an optional exponent, with at least one
      digit before or after the point. */
  predicate IsDecimal(u: string)
  {
    var a := DigitRun(u);
    var rest := u[a..];
    if |rest| > 0 && rest[0] == '.' then
      var b := DigitRun(rest[1..]);
      (a > 0 || b > 0) && (rest[1 + b..] == [] || IsExponent(rest[1 + b..]))
    else
      a > 0 && (rest == [] || IsExponent(rest))
  }

  /** Python's `float(s)` accepts `s`: optional surrounding whitespace, an optional
      sign, then `inf`, `infinity` or `nan` in any case, or a decimal literal. */
  predicate IsFloatLiteral(s: string)
  {
    var t := Strip(s);
    var u := if |t| > 0 && (t[0] == '-' || t[0] == '+') then t[1..] else t;
    LowerAscii(u) in {"inf", "infinity", "nan"} || IsDecimal(u)
  }

  /** The text of an integer is a float literal too. */
  lemma IntTextIsFloatLiteral(i: int)
    ensures IsFloatLiteral(IntToString(i))
  {
    var n: nat := if i < 0 then -i else i;
    NatToDigitsShape(n);
    var ds := NatToDigits(n);
    var s := IntToString(i);
    assert s[|s| - 1] == ds[|ds| - 1];
    StripUnpadded(s);
    if i < 0 {
      assert s[1..] == ds;
    }
    DigitRunAll(ds);
  }

  lemma {:induction false} DigitRunAll(s: string)
    requires AllDigits(s)
    ensures DigitRun(s) == |s|
    decreases |s|
  {
    if |s| > 0 {
      DigitRunAll(s[1..]);
    }
  }
}
