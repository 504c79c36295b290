/**
 * The global `parseInt(string)` with no radix argument, and `String(n)` for an
 * integer `n`, which serves as its inverse. A result of NaN is `None`.
 */
module JsNumber {
  import opened Wrappers
  import opened JsText

  /** The white space `parseInt` skips: the StrWhiteSpaceChar code points. */
  predicate IsWhiteSpace(c: char) {
    var k := c as int;
    // TAB, LF, VT, FF, CR; the space separators (category Zs); LS, PS; the BOM
    (0x09 <= k <= 0x0D) || k == 0x20 || k == 0xA0 || k == 0x1680 ||
    (0x2000 <= k <= 0x200A) || k == 0x2028 || k == 0x2029 || k == 0x202F ||
    k == 0x205F || k == 0x3000 || k == 0xFEFF
  }

  /** The leading white space of `s` removed. */
  function TrimStart(s: string): (r: string)
    ensures |r| <= |s| && r == s[|s| - |r|..]
    ensures r == [] || !IsWhiteSpace(r[0])
    ensures forall i :: 0 <= i < |s| - |r| ==> IsWhiteSpace(s[i])
  {
    if s != [] && IsWhiteSpace(s[0]) then TrimStart(s[1..]) else s
  }

  /** The value of a digit character in radix 36, or 36 for any other character. */
  function DigitValue(c: char): (d: nat)
    ensures d <= 36
    ensures d < 10 <==> '0' <= c <= '9'
  {
    if '0' <= c <= '9' then c as int - '0' as int
    else if 'a' <= c <= 'z' then c as int - 'a' as int + 10
    else if 'A' <= c <= 'Z' then c as int - 'A' as int + 10
    else 36
  }

  predicate IsDigit(c: char, radix: nat) {
    DigitValue(c) < radix
  }

  /** The longest prefix of `s` made of digits of the given radix. */
  function DigitRun(s: string, radix: nat): (r: string)
    ensures r <= s
    ensures forall i :: 0 <= i < |r| ==> IsDigit(r[i], radix)
    ensures |r| == |s| || !IsDigit(s[|r|], radix)
  {
    if s != [] && IsDigit(s[0], radix) then [s[0]] + DigitRun(s[1..], radix) else []
  }

  /** The number a digit string denotes, most significant digit first. */
  function ValueOf(ds: string, radix: nat): nat
  {
    if ds == [] then 0 else ValueOf(ds[..|ds| - 1], radix) * radix + DigitValue(ds[|ds| - 1])
  }

  /**
   * The unsigned part of `parseInt`: a `0x`/`0X` prefix switches to radix 16,
   * then the longest run of digits is read; nothing to read means NaN.
   * Everything after the run is ignored.
   */
  function ParseMagnitude(u: string): Option<nat>
  {
    var hex := |u| >= 2 && u[0] == '0' && (u[1] == 'x' || u[1] == 'X');
    var radix := if hex then 16 else 10;
    var ds := DigitRun(if hex then u[2..] else u, radix);
    if ds == [] then None else Some(ValueOf(ds, radix))
  }

  /** `parseInt(s)`: skip leading white space, then read a signed number. */
  function ParseInt(s: string): Option<int>
  {
    ParseSigned(TrimStart(s))
  }

  /** An optional sign, then the magnitude. */
  function ParseSigned(t: string): Option<int>
  {
    if t != [] && (t[0] == '-' || t[0] == '+') then
      match ParseMagnitude(t[1..])
      case None => None
      case Some(v) =>
        var k: int := v;
        Some(if t[0] == '-' then -k else k)
    else
      match ParseMagnitude(t)
      case None => None
      case Some(v) => Some(v)
  }

  /** The decimal digit for `d`. */
  function DigitChar(d: nat): (c: char)
    requires d < 10
    ensures DigitValue(c) == d
  {
    ('0' as int + d) as char
  }

  /** The decimal digits of `n`, without leading zeros. */
  function Digits(n: nat): (r: string)
    ensures r != []
    ensures forall i :: 0 <= i < |r| ==> '0' <= r[i] <= '9'
  {
    if n < 10 then [DigitChar(n)] else Digits(n / 10) + [DigitChar(n % 10)]
  }

  /** The digits of `n` denote `n`. */
  lemma {:induction false} DigitsValue(n: nat)
    ensures ValueOf(Digits(n), 10) == n
  {
    if n >= 10 {
      var r := Digits(n);
      assert r[..|r| - 1] == Digits(n / 10);
      DigitsValue(n / 10);
    }
  }

  function Pow10(k: nat): (p: nat)
    ensures p >= 1
  {
    if k == 0 then 1 else 10 * Pow10(k - 1)
  }

  /** `n` has at most `k` digits exactly when it is below 10 to the `k`. */
  lemma {:induction false} DigitsLength(n: nat, k: nat)
    requires k >= 1
    ensures |Digits(n)| <= k <==> n < Pow10(k)
  {
    if n >= 10 {
      assert |Digits(n)| == |Digits(n / 10)| + 1;
      if k > 1 {
        DigitsLength(n / 10, k - 1);
      }
    } else if k > 1 {
      assert Pow10(k) == 10 * Pow10(k - 1);
    }
  }

  /** Dropping the last digit of `n` leaves the digits of `n / 10`. */
  lemma DigitsDropLast(n: nat)
    requires n >= 10
    ensures Digits(n)[..|Digits(n)| - 1] == Digits(n / 10)
  {
    assert Digits(n) == Digits(n / 10) + [DigitChar(n % 10)];
  }

  /** `String(n)` for an integer `n` of ordinary size. */
  function IntToString(n: int): (r: string)
  {
    if n < 0 then "-" + Digits(-n) else Digits(n)
  }

  /** A run of decimal digits followed by a non-digit (or by nothing) is read whole. */
  lemma {:induction false} DigitRunOfDigits(ds: string, rest: string)
    requires forall i :: 0 <= i < |ds| ==> IsDigit(ds[i], 10)
    requires rest == [] || !IsDigit(rest[0], 10)
    ensures DigitRun(ds + rest, 10) == ds
  {
    if ds != [] {
      assert (ds + rest)[1..] == ds[1..] + rest;
      DigitRunOfDigits(ds[1..], rest);
    } else {
      assert ds + rest == rest;
    }
  }

  /** A decimal digit string with no hex prefix, then a non-digit, reads as its value. */
  lemma MagnitudeOfDigits(ds: string, rest: string)
    requires ds != [] && forall i :: 0 <= i < |ds| ==> IsDigit(ds[i], 10)
    requires rest == [] || !IsDigit(rest[0], 10)
    requires |ds| == 1 && ds[0] == '0' ==> rest == [] || (rest[0] != 'x' && rest[0] != 'X')
    ensures ParseMagnitude(ds + rest) == Some(ValueOf(ds, 10))
  {
    var u := ds + rest;
    assert !(|u| >= 2 && u[0] == '0' && (u[1] == 'x' || u[1] == 'X')) by {
      if |u| >= 2 && |ds| >= 2 {
        assert u[1] == ds[1] && IsDigit(ds[1], 10);
      } else if |u| >= 2 {
        assert u[1] == rest[0];
      }
    }
    DigitRunOfDigits(ds, rest);
  }

  /** A leading minus sign negates the magnitude that follows it. */
  lemma ParseIntNegated(tail: string, m: nat)
    requires ParseMagnitude(tail) == Some(m)
    ensures ParseInt(['-'] + tail) == Some(0 - m)
  {
    var s := ['-'] + tail;
    assert s[0] == '-' && s[1..] == tail;
    assert TrimStart(s) == s;
  }

  /** Text starting with a decimal digit is read by the magnitude alone. */
  lemma ParseIntUnsigned(s: string, m: nat)
    requires s != [] && IsDigit(s[0], 10) && ParseMagnitude(s) == Some(m)
    ensures ParseInt(s) == Some(m)
  {
    assert !IsWhiteSpace(s[0]) && TrimStart(s) == s;
  }

  /**
   * `parseInt` reads back what `String(n)` wrote, also with trailing text that
   * does not start with a digit; after a lone `0`, an `x` would start a hex prefix.
   */
  lemma ParseIntOfIntToString(n: int, rest: string)
    requires rest == [] || (!IsDigit(rest[0], 10) && (n == 0 ==> rest[0] != 'x' && rest[0] != 'X'))
    ensures ParseInt(IntToString(n) + rest) == Some(n)
  {
    var m := if n < 0 then -n else n;
    var ds := Digits(m);
    DigitsValue(m);
    if |ds| == 1 && ds[0] == '0' {
      assert ValueOf(ds, 10) == DigitValue(ds[0]) == 0;
    }
    MagnitudeOfDigits(ds, rest);
    if n < 0 {
      Regroup(['-'], ds, rest);
      ParseIntNegated(ds + rest, m);
    } else {
      assert IntToString(n) + rest == ds + rest;
      ParseIntUnsigned(ds + rest, m);
    }
  }

  /** Leading white space does not change what `TrimStart` leaves. */
  lemma {:induction false} TrimStartSkips(w: string, s: string)
    requires forall i :: 0 <= i < |w| ==> IsWhiteSpace(w[i])
    ensures TrimStart(w + s) == TrimStart(s)
  {
    if w != [] {
      assert (w + s)[0] == w[0] && (w + s)[1..] == w[1..] + s;
      TrimStartSkips(w[1..], s);
    } else {
      assert w + s == s;
    }
  }

  /** `parseInt` ignores leading white space. */
  lemma ParseIntSkipsWhiteSpace(w: string, s: string)
    requires forall i :: 0 <= i < |w| ==> IsWhiteSpace(w[i])
    ensures ParseInt(w + s) == ParseInt(s)
  {
    TrimStartSkips(w, s);
  }

  /** Text that, after its leading white space, starts with neither a sign nor a decimal digit is NaN. */
  lemma ParseIntNaN(s: string)
    requires var t := TrimStart(s); t == [] || (t[0] != '-' && t[0] != '+' && !IsDigit(t[0], 10))
    ensures ParseInt(s) == None
  {
  }
}
