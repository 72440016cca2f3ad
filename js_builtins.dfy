/** The handful of JavaScript built-ins the dashboard's logic relies on, as
    ECMAScript defines them: `Math.round`, `Math.max`, `Number.parseInt`, `toString` with
    `padStart(2, "0")` and `Array.prototype.slice(-n)`.  Numbers are exact
    (`int` or `real`); IEEE-754 rounding is not modelled. */
module JsBuiltins {

  datatype Option<T> = None | Some(value: T)

  // ---------------------------------------------------------------- Math

  /** `Math.round(x)`: the nearest integer, halves rounded up. */
  function Round(x: real): (r: int)
    ensures r as real - 0.5 <= x < r as real + 0.5
  {
    (x + 0.5).Floor
  }

  lemma RoundMonotone(x: real, y: real)
    requires x <= y
    ensures Round(x) <= Round(y)
  {
  }

  /** Values at least one apart round to different integers. */
  lemma RoundStrict(x: real, y: real)
    requires x + 1.0 <= y
    ensures Round(x) < Round(y)
  {
  }

  /** `Math.round` of an integer is that integer. */
  lemma RoundOfInt(n: int)
    ensures Round(n as real) == n
  {
  }

  /** Comparing a square root with a threshold is comparing the radicand
      with the threshold's square: `Math.sqrt(sq) > t` iff `sq > t * t`. */
  lemma SqrtComparison(m: real, sq: real, t: real)
    requires m >= 0.0 && t >= 0.0 && m * m == sq
    ensures m > t <==> sq > t * t
    ensures m < t <==> sq < t * t
  {
    assert m * m - t * t == (m - t) * (m + t);
    if m > t {
      assert (m - t) * (m + t) > 0.0 by { PositiveProduct(m - t, m + t); }
    } else if m < t {
      assert (t - m) * (m + t) > 0.0 by { PositiveProduct(t - m, m + t); }
    }
  }

  lemma PositiveProduct(a: real, b: real)
    requires a > 0.0 && b > 0.0
    ensures a * b > 0.0
  {
  }

  /** `x / n <= m` follows from `x <= n * m` for a positive `n`. */
  lemma DivAtMost(x: real, n: real, m: real)
    requires n > 0.0 && x <= n * m
    ensures x / n <= m
  {
  }

  lemma CastProduct(a: int, b: int)
    ensures (a * b) as real == a as real * b as real
  {
  }

  function Max(a: int, b: int): (r: int)
    ensures r >= a && r >= b && (r == a || r == b)
  {
    if a >= b then a else b
  }

  function Min(a: int, b: int): (r: int)
    ensures r <= a && r <= b && (r == a || r == b)
  {
    if a <= b then a else b
  }

  /** `Math.max(a, b, c)` */
  function Max3(a: int, b: int, c: int): (r: int)
    ensures r >= a && r >= b && r >= c
    ensures r == a || r == b || r == c
  {
    Max(Max(a, b), c)
  }

  // ------------------------------------------------------ decimal digits

  predicate IsDigit(c: char)
  {
    '0' <= c <= '9'
  }

  function DigitValue(c: char): nat
    requires IsDigit(c)
  {
    (c as int) - ('0' as int)
  }

  function DigitChar(d: nat): (c: char)
    requires d < 10
    ensures IsDigit(c) && DigitValue(c) == d
  {
    (('0' as int) + d) as char
  }

  /** The value of a string of decimal digits, most significant first. */
  function DigitsValue(s: string): nat
    requires forall i :: 0 <= i < |s| ==> IsDigit(s[i])
  {
    if s == [] then 0 else DigitsValue(s[..|s| - 1]) * 10 + DigitValue(s[|s| - 1])
  }

  /** `n.toString()` for a non-negative integer. */
  function NatToString(n: nat): (s: string)
    ensures |s| >= 1
    ensures forall i :: 0 <= i < |s| ==> IsDigit(s[i])
    ensures n < 10 <==> |s| == 1
    ensures 10 <= n < 100 <==> |s| == 2
    decreases n
  {
    if n < 10 then [DigitChar(n)] else NatToString(n / 10) + [DigitChar(n % 10)]
  }

  lemma {:induction false} NatToStringValue(n: nat)
    ensures DigitsValue(NatToString(n)) == n
    decreases n
  {
    var s := NatToString(n);
    if n < 10 {
      assert s[..0] == [];
    } else {
      NatToStringValue(n / 10);
      assert s[..|s| - 1] == NatToString(n / 10);
    }
  }

  /** `n.toString().padStart(2, "0")`. */
  function Pad2(n: nat): (s: string)
    ensures |s| == if n < 100 then 2 else |NatToString(n)|
    ensures forall i :: 0 <= i < |s| ==> IsDigit(s[i])
  {
    if n < 10 then "0" + NatToString(n) else NatToString(n)
  }

  lemma Pad2Value(n: nat)
    ensures DigitsValue(Pad2(n)) == n
  {
    NatToStringValue(n);
    if n < 10 {
      var s := Pad2(n);
      assert s[..1] == "0";
      assert s[..|s| - 1] == "0";
    }
  }

  // -------------------------------------------------------------- parseInt

  /** The white space `parseInt` skips: the ECMAScript `StrWhiteSpaceChar`
      set (TAB, VT, FF, SP, NBSP, ZWNBSP, the `Zs` spaces, LF, CR, LS, PS). */
  predicate IsSpace(c: char)
  {
    var n := c as int;
    (9 <= n <= 13) || n == 0x20 || n == 0xA0 || n == 0x1680
    || (0x2000 <= n <= 0x200A) || n == 0x2028 || n == 0x2029
    || n == 0x202F || n == 0x205F || n == 0x3000 || n == 0xFEFF
  }

  /** The longest prefix of `s` made of decimal digits. */
  function DigitPrefix(s: string): (p: string)
    ensures |p| <= |s| && p == s[..|p|]
    ensures forall i :: 0 <= i < |p| ==> IsDigit(p[i])
    ensures |p| < |s| ==> !IsDigit(s[|p|])
  {
    if s == [] || !IsDigit(s[0]) then [] else [s[0]] + DigitPrefix(s[1..])
  }

  predicate IsHexDigit(c: char)
  {
    IsDigit(c) || 'a' <= c <= 'f' || 'A' <= c <= 'F'
  }

  function HexDigitValue(c: char): (v: nat)
    requires IsHexDigit(c)
    ensures v < 16
  {
    if IsDigit(c) then DigitValue(c)
    else if 'a' <= c <= 'f' then (c as int - 'a' as int) + 10
    else (c as int - 'A' as int) + 10
  }

  /** The longest prefix of `s` made of hexadecimal digits. */
  function HexPrefix(s: string): (p: string)
    ensures |p| <= |s| && p == s[..|p|]
    ensures forall i :: 0 <= i < |p| ==> IsHexDigit(p[i])
    ensures |p| < |s| ==> !IsHexDigit(s[|p|])
  {
    if s == [] || !IsHexDigit(s[0]) then [] else [s[0]] + HexPrefix(s[1..])
  }

  /** The number a string of hexadecimal digits denotes. */
  function HexValue(s: string): (v: nat)
    requires forall i :: 0 <= i < |s| ==> IsHexDigit(s[i])
    ensures |s| == 1 ==> v == HexDigitValue(s[0])
  {
    if s == [] then 0
    else 16 * HexValue(s[..|s| - 1]) + HexDigitValue(s[|s| - 1])
  }

  /** Without a radix, `parseInt` reads `0x` or `0X` after the sign as base 16. */
  predicate HasHexPrefix(u: string)
  {
    |u| >= 2 && u[0] == '0' && (u[1] == 'x' || u[1] == 'X')
  }

  /** The magnitude `parseInt` reads after the sign, `None` when no digit
      of the chosen base follows. */
  function Magnitude(u: string): (m: Option<nat>)
    ensures !HasHexPrefix(u) ==> (m.None? <==> DigitPrefix(u) == [])
    ensures HasHexPrefix(u) ==> (m.None? <==> HexPrefix(u[2..]) == [])
  {
    if HasHexPrefix(u) then
      var h := HexPrefix(u[2..]);
      if h == [] then None else Some(HexValue(h))
    else
      var d := DigitPrefix(u);
      if d == [] then None else Some(DigitsValue(d))
  }

  /** `Number.parseInt(s)` without a radix: leading white space, an optional
      sign, then either `0x` and hexadecimal digits or decimal digits, as
      many as follow; `None` stands for `NaN` (no digit). */
  function ParseInt(s: string): (r: Option<int>)
    ensures r.None? <==> Magnitude(UnsignedPart(TrimStart(s))).None?
  {
    var t := TrimStart(s);
    var negative := |t| > 0 && t[0] == '-';
    match Magnitude(UnsignedPart(t))
    case None => None
    case Some(m) => if negative then Some(-(m as int)) else Some(m)
  }

  function TrimStart(s: string): (t: string)
    ensures |t| <= |s| && t == s[|s| - |t|..]
    ensures |t| > 0 ==> !IsSpace(t[0])
  {
    if |s| > 0 && IsSpace(s[0]) then TrimStart(s[1..]) else s
  }

  function UnsignedPart(t: string): string
  {
    if |t| > 0 && (t[0] == '-' || t[0] == '+') then t[1..] else t
  }

  lemma {:induction false} DigitPrefixOfDigits(s: string)
    requires forall i :: 0 <= i < |s| ==> IsDigit(s[i])
    ensures DigitPrefix(s) == s
  {
    if s != [] {
      DigitPrefixOfDigits(s[1..]);
    }
  }

  lemma DigitIsNotSpace(c: char)
    requires IsDigit(c)
    ensures !IsSpace(c) && c != '-' && c != '+'
  {
  }

  lemma MagnitudeOfDigits(s: string)
    requires |s| > 0
    requires forall i :: 0 <= i < |s| ==> IsDigit(s[i])
    ensures Magnitude(s) == Some(DigitsValue(s))
  {
    assert !HasHexPrefix(s) by {
      if |s| >= 2 { assert IsDigit(s[1]); }
    }
    DigitPrefixOfDigits(s);
  }

  /** `parseInt` reads back what `toString` wrote, also after zero padding. */
  lemma ParseIntOfDigits(s: string)
    requires |s| > 0
    requires forall i :: 0 <= i < |s| ==> IsDigit(s[i])
    ensures ParseInt(s) == Some(DigitsValue(s) as int)
  {
    assert IsDigit(s[0]);
    DigitIsNotSpace(s[0]);
    MagnitudeOfDigits(s);
    ParseIntUnsigned(s);
  }

  /** The sign of the result is the sign written after the white space. */
  lemma ParseIntSign(s: string)
    ensures var t := TrimStart(s);
      ParseInt(s).Some? ==> (ParseInt(s).value < 0 ==> |t| > 0 && t[0] == '-')
    ensures var t := TrimStart(s);
      ParseInt(s).Some? && |t| > 0 && t[0] == '-' ==> ParseInt(s).value <= 0
  {
  }

  /** `parseInt` of a string that starts with neither white space nor a
      sign is the magnitude it reads; with a minus sign, its negation. */
  lemma ParseIntUnsigned(s: string)
    requires |s| > 0 && !IsSpace(s[0]) && s[0] != '-' && s[0] != '+'
    ensures Magnitude(s).None? ==> ParseInt(s) == None
    ensures Magnitude(s).Some? ==> ParseInt(s) == Some(Magnitude(s).value as int)
  {
    assert TrimStart(s) == s;
    assert UnsignedPart(s) == s;
  }

  lemma ParseIntNegative(s: string)
    requires |s| > 0 && s[0] == '-'
    ensures Magnitude(s[1..]).None? ==> ParseInt(s) == None
    ensures Magnitude(s[1..]).Some? ==> ParseInt(s) == Some(-(Magnitude(s[1..]).value as int))
  {
    assert !IsSpace(s[0]);
    assert TrimStart(s) == s;
  }

  lemma HexValueOfTwo(s: string)
    requires |s| == 2 && IsHexDigit(s[0]) && IsHexDigit(s[1])
    ensures HexValue(s) == 16 * HexDigitValue(s[0]) + HexDigitValue(s[1])
  {
    assert s[..1] == [s[0]];
  }

  lemma MagnitudeOfHex1e()
    ensures Magnitude("0x1e") == Some(30)
  {
    var u := "0x1e";
    assert HasHexPrefix(u);
    var h := u[2..];
    assert h == "1e";
    assert h[1..] == "e" && h[1..][1..] == [];
    assert HexPrefix(h) == h;
    HexValueOfTwo(h);
    assert HexDigitValue('e') == 14;
  }

  /** `parseInt` reads a `0x` prefix as base 16. */
  lemma ParseIntHex()
    ensures ParseInt("0x1e") == Some(30)
  {
    var s := "0x1e";
    assert s[0] == '0';
    DigitIsNotSpace(s[0]);
    MagnitudeOfHex1e();
    ParseIntUnsigned(s);
  }

  lemma MagnitudeOfHexFF()
    ensures Magnitude("0XfF") == Some(255)
  {
    var u := "0XfF";
    assert HasHexPrefix(u);
    var h := u[2..];
    assert h == "fF";
    assert h[1..] == "F" && h[1..][1..] == [];
    assert HexPrefix(h) == h;
    HexValueOfTwo(h);
    assert HexDigitValue('f') == 15 && HexDigitValue('F') == 15;
  }

  /** ... and `0X` too, after the sign. */
  lemma ParseIntSignedHex()
    ensures ParseInt("-0XfF") == Some(-255)
  {
    var s := "-0XfF";
    ParseIntNegative(s);
    assert s[1..] == "0XfF";
    MagnitudeOfHexFF();
  }

  /** A `0x` prefix with no hexadecimal digit after it reads as `NaN`. */
  lemma ParseIntBareHexPrefix()
    ensures ParseInt("0x") == None
  {
    var s := "0x";
    assert !IsSpace(s[0]);
    assert HasHexPrefix(s) && s[2..] == [];
    assert HexPrefix(s[2..]) == [];
    assert Magnitude(s) == None;
    ParseIntUnsigned(s);
  }

  /** White space beyond ASCII (here a vertical tab) is skipped. */
  lemma ParseIntVerticalTab()
    ensures ParseInt([11 as char, '7']) == Some(7)
  {
    var s := [11 as char, '7'];
    assert IsSpace(s[0]);
    assert s[1..] == "7";
    assert TrimStart(s) == TrimStart("7");
    assert !IsSpace('7');
    assert TrimStart("7") == "7";
    ParseIntOfDigits("7");
    assert ParseInt(s) == ParseInt("7");
  }

  lemma MagnitudeOfTwelvePx()
    ensures Magnitude("12px") == Some(12)
  {
    var u := "12px";
    assert !HasHexPrefix(u);
    assert u[1..] == "2px" && u[1..][1..] == "px";
    assert !IsDigit('p');
    assert DigitPrefix(u[1..][1..]) == [];
    assert DigitPrefix(u) == "12";
    assert "12"[..1] == "1";
    assert DigitsValue("12") == 12;
  }

  /** A sign is read, and whatever follows the digits is ignored. */
  lemma ParseIntTrailing()
    ensures ParseInt("-12px") == Some(-12)
  {
    var s := "-12px";
    ParseIntNegative(s);
    assert s[1..] == "12px";
    MagnitudeOfTwelvePx();
  }

  /** `parseInt` reads back a zero-padded number. */
  lemma ParseIntOfPad2(n: nat)
    ensures ParseInt(Pad2(n)) == Some(n)
  {
    Pad2Value(n);
    ParseIntOfDigits(Pad2(n));
  }

  lemma ParseIntToString(n: nat)
    ensures ParseInt(NatToString(n)) == Some(n)
  {
    ParseIntOfDigits(NatToString(n));
    NatToStringValue(n);
  }

  // ---------------------------------------------------------- slice(-n)

  /** `xs.slice(-n)` for n > 0: the last n elements, or all of them. */
  function LastN<T>(xs: seq<T>, n: nat): (r: seq<T>)
    requires n > 0
    ensures |r| == Min(|xs|, n)
    ensures r == xs[|xs| - |r|..]
  {
    if |xs| <= n then xs else xs[|xs| - n..]
  }

  /** Appending to a capped log and keeping the newest `n` keeps the new
      entry last and the older survivors in arrival order. */
  lemma AppendCapped<T>(xs: seq<T>, x: T, n: nat)
    requires n > 0 && |xs| <= n
    ensures var r := LastN(xs + [x], n);
      |r| <= n && r[|r| - 1] == x && r[..|r| - 1] == xs[|xs| + 1 - |r|..]
  {
  }
}
