/**
  ConvertColor: turns a "#rrggbb" colour into the "rgb(r,g,b)" notation of
  the pass format and passes every other string through. The branch
  conditions are those of the code: a '#' string of length 3 or of length 6
  fails on a Substring call, lengths 1, 2, 4 and 5 fail with an
  ArgumentException, and only lengths of at least 7 convert.
 */
module Colors {
  import opened Wrappers
  import opened Errors
  import opened Text

  /** The interpolated string "rgb({r},{g},{b})". */
  function RgbText(r: nat, g: nat, b: nat): string {
    "rgb(" + Decimal(r) + "," + Decimal(g) + "," + Decimal(b) + ")"
  }

  /** int.Parse(s, NumberStyles.HexNumber), with the FormatException as an error. */
  function ParseChannel(s: string): Result<nat, Error> {
    match ParseHexNumber(s)
    case Some(v) => Ok(v)
    case None => Err(InvalidHexNumber)
  }

  function ConvertColor(color: string): Result<string, Error> {
    if color != [] && color[0] == '#' then
      if |color| == 3 then
        // r and g parse single characters; Substring(3, 1) then runs past the end.
        match ParseChannel(color[1..2])
        case Err(e) => Err(e)
        case Ok(_) =>
          match ParseChannel(color[2..3])
          case Err(e) => Err(e)
          case Ok(_) => Err(SubstringOutOfRange)
      else if |color| >= 6 then
        match ParseChannel(color[1..3])
        case Err(e) => Err(e)
        case Ok(r) =>
          match ParseChannel(color[3..5])
          case Err(e) => Err(e)
          case Ok(g) =>
            // Substring(5, 2) needs seven characters.
            if |color| < 7 then Err(SubstringOutOfRange)
            else
              match ParseChannel(color[5..7])
              case Err(e) => Err(e)
              case Ok(b) => Ok(RgbText(r, g, b))
      else Err(InvalidColorLength)
    else Ok(color)
  }

  // ---------------------------------------------------------------------
  // Reading "rgb(r,g,b)" back

  /** A run of decimal digits ending at `sep`: its value and what follows the separator. */
  function ReadNumber(s: string, sep: char): Option<(nat, string)> {
    var k := DigitRun(s);
    if k == 0 || k >= |s| || s[k] != sep then None
    else Some((DigitsValue(s[..k]), s[k + 1..]))
  }

  /** The three channels of a colour in "rgb(r,g,b)" notation. */
  function ParseRgb(s: string): Option<(nat, nat, nat)> {
    if |s| < 4 || s[..4] != "rgb(" then None
    else match ReadNumber(s[4..], ',')
      case None => None
      case Some((r, s1)) =>
        match ReadNumber(s1, ',')
        case None => None
        case Some((g, s2)) =>
          match ReadNumber(s2, ')')
          case None => None
          case Some((b, s3)) => if s3 == [] then Some((r, g, b)) else None
  }

  lemma ReadNumberDecimal(n: nat, sep: char, rest: string)
    requires !IsDigit(sep)
    ensures ReadNumber(Decimal(n) + [sep] + rest, sep) == Some((n, rest))
  {
    var d := Decimal(n);
    var s := d + [sep] + rest;
    assert s == d + ([sep] + rest);
    DigitRunOfDigits(d, [sep] + rest);
    assert s[..|d|] == d;
    assert s[|d| + 1..] == rest;
    DecimalValue(n);
  }

  /** The text ConvertColor produces reads back as the three channels it was built from. */
  lemma ParseRgbText(r: nat, g: nat, b: nat)
    ensures ParseRgb(RgbText(r, g, b)) == Some((r, g, b))
  {
    var s := RgbText(r, g, b);
    var s1 := Decimal(g) + "," + Decimal(b) + ")";
    var s2 := Decimal(b) + ")";
    assert s[..4] == "rgb(";
    assert s[4..] == Decimal(r) + [','] + s1;
    ReadNumberDecimal(r, ',', s1);
    assert s1 == Decimal(g) + [','] + s2;
    ReadNumberDecimal(g, ',', s2);
    assert s2 == Decimal(b) + [')'] + [];
    ReadNumberDecimal(b, ')', []);
  }

  /** Distinct channel triples give distinct texts. */
  lemma RgbTextInjective(r: nat, g: nat, b: nat, r': nat, g': nat, b': nat)
    ensures RgbText(r, g, b) == RgbText(r', g', b') <==> (r, g, b) == (r', g', b')
  {
    if RgbText(r, g, b) == RgbText(r', g', b') {
      ParseRgbText(r, g, b);
      ParseRgbText(r', g', b');
    }
  }

  // ---------------------------------------------------------------------
  // Properties of ConvertColor

  /** Anything that does not start with '#' is returned unchanged. */
  lemma PassThrough(color: string)
    requires color == [] || color[0] != '#'
    ensures ConvertColor(color) == Ok(color)
  {
  }

  /** No '#' string shorter than seven characters ever converts; the error depends on the length. */
  lemma ShortHashColorFails(color: string)
    requires |color| > 0 && color[0] == '#' && |color| < 7
    ensures ConvertColor(color).Err?
    ensures |color| in {1, 2, 4, 5} ==> ConvertColor(color).error == InvalidColorLength
    ensures |color| in {3, 6} ==> ConvertColor(color).error in {InvalidHexNumber, SubstringOutOfRange}
  {
  }

  /**
    A '#' string of seven or more characters converts exactly when the hex
    pairs at 1-2, 3-4 and 5-6 parse; each channel is then at most 255, and
    what follows index 6 is ignored.
   */
  lemma LongHashColor(color: string)
    requires |color| >= 7 && color[0] == '#'
    ensures ConvertColor(color).Ok? <==>
      ParseHexNumber(color[1..3]).Some? && ParseHexNumber(color[3..5]).Some? && ParseHexNumber(color[5..7]).Some?
    ensures ConvertColor(color).Ok? ==>
      var r, g, b := ParseHexNumber(color[1..3]).value, ParseHexNumber(color[3..5]).value, ParseHexNumber(color[5..7]).value;
      && r <= 255 && g <= 255 && b <= 255
      && ParseRgb(ConvertColor(color).value) == Some((r, g, b))
    ensures ConvertColor(color) == ConvertColor(color[..7])
  {
    var c7 := color[..7];
    assert c7[1..3] == color[1..3] && c7[3..5] == color[3..5] && c7[5..7] == color[5..7];
    LongHashShape(color);
    LongHashShape(c7);
    if ConvertColor(color).Ok? {
      var r, g, b := ParseHexNumber(color[1..3]).value, ParseHexNumber(color[3..5]).value, ParseHexNumber(color[5..7]).value;
      HexChannelBound(color[1..3]);
      HexChannelBound(color[3..5]);
      HexChannelBound(color[5..7]);
      ParseRgbText(r, g, b);
    }
  }

  /** A long '#' string: the three channels parse in order, and the first failure is the error. */
  lemma LongHashShape(color: string)
    requires |color| >= 7 && color[0] == '#'
    ensures var r, g, b := ParseChannel(color[1..3]), ParseChannel(color[3..5]), ParseChannel(color[5..7]);
      ConvertColor(color) ==
        if r.Err? then Err(r.error)
        else if g.Err? then Err(g.error)
        else if b.Err? then Err(b.error)
        else Ok(RgbText(r.value, g.value, b.value))
  {
  }

  /** "#rrggbb" in upper-case hex, followed by anything, converts back to its three channels. */
  lemma ConvertHexTriple(r: nat, g: nat, b: nat, tail: string)
    requires r < 256 && g < 256 && b < 256
    ensures ConvertColor("#" + Hex2(r) + Hex2(g) + Hex2(b) + tail) == Ok(RgbText(r, g, b))
  {
    var c := "#" + Hex2(r) + Hex2(g) + Hex2(b) + tail;
    assert c[0] == '#';
    assert c[1..3] == Hex2(r) && c[3..5] == Hex2(g) && c[5..7] == Hex2(b);
    ParseHex2(r);
    ParseHex2(g);
    ParseHex2(b);
  }

  /** "#17BB52" is rgb(23,187,82). */
  lemma ConvertExample()
    ensures ConvertColor("#17BB52") == Ok("rgb(23,187,82)")
  {
    assert "#17BB52" == "#" + Hex2(23) + Hex2(187) + Hex2(82) + "" by {
      assert Hex2(23) == "17";
      assert Hex2(187) == "BB";
      assert Hex2(82) == "52";
    }
    assert RgbText(23, 187, 82) == "rgb(23,187,82)" by {
      assert Decimal(23) == "23";
      assert Decimal(187) == "187";
      assert Decimal(82) == "82";
    }
    ConvertHexTriple(23, 187, 82, "");
  }

  /** One hexadecimal digit on its own parses to its value. */
  lemma SingleHexDigit(c: char)
    requires IsHexDigit(c)
    ensures ParseHexNumber([c]) == Some(HexDigitValue(c))
  {
    var s := [c];
    assert !IsNumberWhite(c);
    assert SkipWhite(s) == s;
    assert s[1..] == [];
    assert HexRun(s) == 1;
    assert s[..1] == s;
    assert s[..|s| - 1] == [];
    assert HexValue(s) == HexDigitValue(c);
    assert SkipWhite(s[1..]) == [];
  }

  /** The "#rgb" short form is not accepted: "#fff" has length 4. */
  lemma ShortFormRejected()
    ensures ConvertColor("#fff") == Err(InvalidColorLength)
  {
    assert |"#fff"| == 4;
  }

  /** "#12" parses two single digits and then runs Substring(3, 1) past its end. */
  lemma ThreeCharacterColorRejected()
    ensures ConvertColor("#12") == Err(SubstringOutOfRange)
  {
    var c := "#12";
    assert c[1..2] == ['1'] && c[2..3] == ['2'];
    assert ParseChannel(c[1..2]) == Ok(1) by {
      SingleHexDigit('1');
    }
    assert ParseChannel(c[2..3]) == Ok(2) by {
      SingleHexDigit('2');
    }
  }

  /** A colour already in rgb notation passes through. */
  lemma RgbNotationPassesThrough()
    ensures ConvertColor("rgb(1,2,3)") == Ok("rgb(1,2,3)")
  {
  }
}
