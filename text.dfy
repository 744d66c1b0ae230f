/**
  Character-level helpers the writer relies on: decimal digits (fixed-width
  and shortest forms), the .NET hexadecimal number parser, and ASCII case
  mapping.
 */
module Text {
  import opened Wrappers

  // ---------------------------------------------------------------------
  // Decimal digits

  predicate IsDigit(c: char) {
    '0' <= c <= '9'
  }

  predicate AllDigits(s: string) {
    forall i :: 0 <= i < |s| ==> IsDigit(s[i])
  }

  function DigitChar(d: nat): (c: char)
    requires d < 10
    ensures IsDigit(c)
  {
    (48 + d) as char
  }

  function DigitValue(c: char): nat
    requires IsDigit(c)
  {
    c as int - 48
  }

  function Pow10(w: nat): (p: nat)
    ensures p >= 1
  {
    if w == 0 then 1 else 10 * Pow10(w - 1)
  }

  /** The value of a run of decimal digits, most significant first. */
  function DigitsValue(s: string): nat
    requires AllDigits(s)
  {
    if s == [] then 0 else DigitsValue(s[..|s| - 1]) * 10 + DigitValue(s[|s| - 1])
  }

  /** `n` written with exactly `width` digits, zero-padded on the left (the "yyyy" / "MM" patterns). */
  function Padded(n: nat, width: nat): (s: string)
    ensures |s| == width && AllDigits(s)
  {
    if width == 0 then [] else Padded(n / 10, width - 1) + [DigitChar(n % 10)]
  }

  lemma {:induction false} PaddedValue(n: nat, width: nat)
    requires n < Pow10(width)
    ensures DigitsValue(Padded(n, width)) == n
  {
    if width > 0 {
      var s := Padded(n, width);
      assert s[..|s| - 1] == Padded(n / 10, width - 1);
      PaddedValue(n / 10, width - 1);
    }
  }

  /** Int32.ToString() of a non-negative number: the shortest decimal form. */
  function Decimal(n: nat): (s: string)
    ensures |s| >= 1 && AllDigits(s)
    ensures s[0] != '0' || n == 0
  {
    if n < 10 then [DigitChar(n)] else Decimal(n / 10) + [DigitChar(n % 10)]
  }

  lemma {:induction false} DecimalValue(n: nat)
    ensures DigitsValue(Decimal(n)) == n
  {
    if n >= 10 {
      var s := Decimal(n);
      assert s[..|s| - 1] == Decimal(n / 10);
      DecimalValue(n / 10);
    }
  }

  /** Int32.ToString() with the invariant culture: a leading '-' for negative numbers. */
  function IntText(i: int): string {
    if i < 0 then "-" + Decimal(-i) else Decimal(i)
  }

  /** The length of the run of decimal digits at the front of `s`. */
  function DigitRun(s: string): (k: nat)
    ensures k <= |s| && AllDigits(s[..k])
    ensures k < |s| ==> !IsDigit(s[k])
  {
    if s == [] || !IsDigit(s[0]) then 0
    else
      var k := 1 + DigitRun(s[1..]);
      assert s[..k] == [s[0]] + s[1..][..k - 1];
      k
  }

  lemma {:induction false} DigitRunOfDigits(digits: string, rest: string)
    requires AllDigits(digits)
    requires rest == [] || !IsDigit(rest[0])
    ensures DigitRun(digits + rest) == |digits|
  {
    if digits != [] {
      assert (digits + rest)[1..] == digits[1..] + rest;
      DigitRunOfDigits(digits[1..], rest);
    } else {
      assert digits + rest == rest;
    }
  }

  // ---------------------------------------------------------------------
  // int.Parse(s, NumberStyles.HexNumber)

  predicate IsHexDigit(c: char) {
    '0' <= c <= '9' || 'a' <= c <= 'f' || 'A' <= c <= 'F'
  }

  function HexDigitValue(c: char): (v: nat)
    requires IsHexDigit(c)
    ensures v < 16
  {
    if '0' <= c <= '9' then c as int - 48
    else if 'a' <= c <= 'f' then c as int - 97 + 10
    else c as int - 65 + 10
  }

  /** The upper-case hexadecimal digit for `v`. */
  function HexDigitChar(v: nat): (c: char)
    requires v < 16
    ensures IsHexDigit(c) && HexDigitValue(c) == v
  {
    if v < 10 then (48 + v) as char else (65 + v - 10) as char
  }

  /** The value of a run of hexadecimal digits, most significant first. */
  function HexValue(s: string): nat
    requires forall i :: 0 <= i < |s| ==> IsHexDigit(s[i])
  {
    if s == [] then 0 else HexValue(s[..|s| - 1]) * 16 + HexDigitValue(s[|s| - 1])
  }

  /** White space as the .NET number parser skips it: U+0009 to U+000D and U+0020. */
  predicate IsNumberWhite(c: char) {
    c == ' ' || '\t' <= c <= '\r'
  }

  function SkipWhite(s: string): (r: string)
    ensures |r| <= |s| && r == s[|s| - |r|..]
    ensures r == [] || !IsNumberWhite(r[0])
  {
    if s != [] && IsNumberWhite(s[0]) then SkipWhite(s[1..]) else s
  }

  function HexRun(s: string): (k: nat)
    ensures k <= |s|
    ensures forall i :: 0 <= i < k ==> IsHexDigit(s[i])
    ensures k < |s| ==> !IsHexDigit(s[k])
  {
    if s == [] || !IsHexDigit(s[0]) then 0 else 1 + HexRun(s[1..])
  }

  /**
    int.Parse(s, NumberStyles.HexNumber): optional leading white space, at
    least one hexadecimal digit, optional trailing white space, and then only
    NUL characters, which the .NET parser tolerates at the end of its input.
    None is the FormatException. The Int32 overflow check is not modelled:
    the colour converter never parses more than two characters.
   */
  function ParseHexNumber(s: string): (r: Option<nat>)
  {
    var body := SkipWhite(s);
    var k := HexRun(body);
    if k == 0 then None
    else if forall i :: 0 <= i < |SkipWhite(body[k..])| ==> SkipWhite(body[k..])[i] == '\0' then
      Some(HexValue(body[..k]))
    else None
  }

  lemma {:induction false} HexValueBound(s: string)
    requires forall i :: 0 <= i < |s| ==> IsHexDigit(s[i])
    ensures HexValue(s) < Pow16(|s|)
  {
    if s != [] {
      HexValueBound(s[..|s| - 1]);
    }
  }

  function Pow16(w: nat): (p: nat)
    ensures p >= 1
  {
    if w == 0 then 1 else 16 * Pow16(w - 1)
  }

  /** A parsed string of at most two characters is a colour channel. */
  lemma HexChannelBound(s: string)
    requires |s| <= 2 && ParseHexNumber(s).Some?
    ensures ParseHexNumber(s).value <= 255
  {
    var body := SkipWhite(s);
    var k := HexRun(body);
    var digits := body[..k];
    assert ParseHexNumber(s) == Some(HexValue(digits));
    HexValueBound(digits);
    assert 1 <= |digits| <= 2;
    assert Pow16(1) == 16 && Pow16(2) == 256;
  }

  /** Two upper-case hexadecimal digits, as in the "#rrggbb" colour notation. */
  function Hex2(v: nat): (s: string)
    requires v < 256
    ensures |s| == 2
  {
    [HexDigitChar(v / 16), HexDigitChar(v % 16)]
  }

  lemma ParseHex2(v: nat)
    requires v < 256
    ensures ParseHexNumber(Hex2(v)) == Some(v)
  {
    var s := Hex2(v);
    assert SkipWhite(s) == s;
    assert HexRun(s) == 2 by {
      assert HexRun(s[1..]) == 1 + HexRun(s[2..]);
    }
    assert s[..2] == s;
    assert s[..1] == [s[0]];
    assert HexValue(s[..1]) == v / 16;
    assert SkipWhite(s[2..]) == [];
  }

  // ---------------------------------------------------------------------
  // ASCII case mapping (char.ToLowerInvariant / ToUpperInvariant on ASCII)

  function ToLowerAscii(c: char): char {
    if 'A' <= c <= 'Z' then (c as int + 32) as char else c
  }

  function ToUpperAscii(c: char): char {
    if 'a' <= c <= 'z' then (c as int - 32) as char else c
  }

  /** `char.ToLowerInvariant(s[0]) + s.Substring(1)`: only the first character changes. */
  function LowerFirst(s: string): (r: string)
    requires |s| > 0
  {
    [ToLowerAscii(s[0])] + s[1..]
  }

  /** The key OrdinalIgnoreCase compares by: every character upper-cased. */
  function FoldCase(s: string): (r: string)
    ensures |r| == |s|
    ensures forall i :: 0 <= i < |s| ==> r[i] == ToUpperAscii(s[i])
  {
    if s == [] then [] else [ToUpperAscii(s[0])] + FoldCase(s[1..])
  }
}
