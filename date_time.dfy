/**
  System.DateTimeOffset as calendar components plus a UTC offset, and the
  text `ToString("yyyy-MM-ddTHH:mm:ssK")` renders it as. That call formats
  in the current culture; the model assumes a Gregorian calendar and ':' as
  the time separator.
 */
module DateTimes {
  import opened Wrappers
  import opened Text

  predicate IsLeapYear(y: int) {
    y % 4 == 0 && (y % 100 != 0 || y % 400 == 0)
  }

  function DaysInMonth(y: int, m: int): int {
    if m == 2 then (if IsLeapYear(y) then 29 else 28)
    else if m == 4 || m == 6 || m == 9 || m == 11 then 30
    else 31
  }

  /**
    The components of a date-time: local wall-clock time in the given
    offset, ticks (100 ns) below the second, and the offset from UTC in
    minutes.
   */
  datatype Stamp = Stamp(
    year: int, month: int, day: int,
    hour: int, minute: int, second: int,
    ticks: int,
    offsetMinutes: int)
  {
    predicate Valid() {
      && 1 <= year <= 9999
      && 1 <= month <= 12
      && 1 <= day <= DaysInMonth(year, month)
      && 0 <= hour < 24
      && 0 <= minute < 60
      && 0 <= second < 60
      && 0 <= ticks < 10_000_000
      && -840 <= offsetMinutes <= 840
    }
  }

  /** A DateTimeOffset value: only valid component combinations exist. */
  type DateTimeOffset = s: Stamp | s.Valid() witness Stamp(1, 1, 1, 0, 0, 0, 0, 0)

  // ---------------------------------------------------------------------
  // Rendering

  /** The 'K' specifier for a DateTimeOffset: a sign, then hh:mm of the offset (never "Z"). */
  function OffsetText(offsetMinutes: int): string
    requires -840 <= offsetMinutes <= 840
  {
    var a := if offsetMinutes < 0 then -offsetMinutes else offsetMinutes;
    [if offsetMinutes < 0 then '-' else '+'] + Padded(a / 60, 2) + ":" + Padded(a % 60, 2)
  }

  /** dateTime.ToString("yyyy-MM-ddTHH:mm:ssK"). */
  function Render(d: DateTimeOffset): string {
    Padded(d.year, 4) + "-" + Padded(d.month, 2) + "-" + Padded(d.day, 2)
    + "T" + Padded(d.hour, 2) + ":" + Padded(d.minute, 2) + ":" + Padded(d.second, 2)
    + OffsetText(d.offsetMinutes)
  }

  /** The shape of the text: 25 characters, the separators at fixed positions, digits elsewhere. */
  lemma RenderShape(d: DateTimeOffset)
    ensures var r := Render(d);
      && |r| == 25
      && r[4] == '-' && r[7] == '-' && r[10] == 'T'
      && r[13] == ':' && r[16] == ':' && r[22] == ':'
      && (r[19] == '+' || r[19] == '-')
      && (r[19] == '-' <==> d.offsetMinutes < 0)
      && AllDigits(r[0..4]) && AllDigits(r[5..7]) && AllDigits(r[8..10])
      && AllDigits(r[11..13]) && AllDigits(r[14..16]) && AllDigits(r[17..19])
      && AllDigits(r[20..22]) && AllDigits(r[23..25])
  {
    var r := Render(d);
    RenderSlices(d);
  }

  /** Where each component lands in the rendered text. */
  lemma RenderSlices(d: DateTimeOffset)
    ensures var r := Render(d);
      var a := if d.offsetMinutes < 0 then -d.offsetMinutes else d.offsetMinutes;
      && |r| == 25
      && r[0..4] == Padded(d.year, 4) && r[4] == '-'
      && r[5..7] == Padded(d.month, 2) && r[7] == '-'
      && r[8..10] == Padded(d.day, 2) && r[10] == 'T'
      && r[11..13] == Padded(d.hour, 2) && r[13] == ':'
      && r[14..16] == Padded(d.minute, 2) && r[16] == ':'
      && r[17..19] == Padded(d.second, 2)
      && r[19] == (if d.offsetMinutes < 0 then '-' else '+')
      && r[20..22] == Padded(a / 60, 2) && r[22] == ':'
      && r[23..25] == Padded(a % 60, 2)
  {
  }

  /** 2025-08-10 09:10 at +03:00 renders as "2025-08-10T09:10:00+03:00". */
  lemma RenderExample()
    ensures Render(Stamp(2025, 8, 10, 9, 10, 0, 0, 180)) == "2025-08-10T09:10:00+03:00"
  {
    ExamplePieces();
    assert OffsetText(180) == "+" + Padded(3, 2) + ":" + Padded(0, 2);
    ExampleConcat();
  }

  lemma ExamplePieces()
    ensures Padded(2025, 4) == "2025" && Padded(8, 2) == "08" && Padded(10, 2) == "10"
    ensures Padded(9, 2) == "09" && Padded(0, 2) == "00" && Padded(3, 2) == "03"
  {
    ExampleYear();
    ExampleTwoDigits();
  }

  lemma ExampleYear()
    ensures Padded(2025, 4) == "2025"
  {
    assert Padded(2, 1) == "2";
    assert Padded(20, 2) == "20";
    assert Padded(202, 3) == "202";
  }

  lemma ExampleTwoDigits()
    ensures Padded(8, 2) == "08" && Padded(10, 2) == "10"
    ensures Padded(9, 2) == "09" && Padded(0, 2) == "00" && Padded(3, 2) == "03"
  {
    assert Padded(0, 1) == "0" && Padded(1, 1) == "1";
  }

  lemma ExampleConcat()
    ensures "2025" + "-" + "08" + "-" + "10" + "T" + "09" + ":" + "10" + ":" + "00" + ("+" + "03" + ":" + "00")
      == "2025-08-10T09:10:00+03:00"
  {
  }

  // ---------------------------------------------------------------------
  // Reading the text back

  /** Reads "yyyy-MM-ddTHH:mm:ss+hh:mm" back into components (ticks are not in the text). */
  function ParseRendered(r: string): Option<Stamp> {
    if |r| == 25
       && AllDigits(r[0..4]) && AllDigits(r[5..7]) && AllDigits(r[8..10])
       && AllDigits(r[11..13]) && AllDigits(r[14..16]) && AllDigits(r[17..19])
       && AllDigits(r[20..22]) && AllDigits(r[23..25])
       && (r[19] == '+' || r[19] == '-')
    then
      var offset := DigitsValue(r[20..22]) * 60 + DigitsValue(r[23..25]);
      Some(Stamp(DigitsValue(r[0..4]), DigitsValue(r[5..7]), DigitsValue(r[8..10]),
                 DigitsValue(r[11..13]), DigitsValue(r[14..16]), DigitsValue(r[17..19]),
                 0, if r[19] == '-' then -offset else offset))
    else None
  }

  /** What ParseRendered yields for a text of the right shape, component by component. */
  lemma ParseRenderedParts(r: string, y: nat, mo: nat, dd: nat, h: nat, mi: nat, se: nat, negative: bool, oh: nat, om: nat, offset: int)
    requires |r| == 25
    requires AllDigits(r[0..4]) && AllDigits(r[5..7]) && AllDigits(r[8..10])
    requires AllDigits(r[11..13]) && AllDigits(r[14..16]) && AllDigits(r[17..19])
    requires AllDigits(r[20..22]) && AllDigits(r[23..25])
    requires r[19] == (if negative then '-' else '+')
    requires DigitsValue(r[0..4]) == y && DigitsValue(r[5..7]) == mo && DigitsValue(r[8..10]) == dd
    requires DigitsValue(r[11..13]) == h && DigitsValue(r[14..16]) == mi && DigitsValue(r[17..19]) == se
    requires DigitsValue(r[20..22]) == oh && DigitsValue(r[23..25]) == om
    requires offset == if negative then -(oh * 60 + om) else oh * 60 + om
    ensures ParseRendered(r) == Some(Stamp(y, mo, dd, h, mi, se, 0, offset))
  {
  }

  /** Every component but the sub-second ticks survives rendering, offset included. */
  lemma ParseRender(d: DateTimeOffset)
    ensures ParseRendered(Render(d)) == Some(d.(ticks := 0))
  {
    RenderSlices(d);
    ParseSlices(Render(d), d);
  }

  /** Reading back any text laid out as RenderSlices describes. */
  lemma ParseSlices(r: string, d: DateTimeOffset)
    requires var a := if d.offsetMinutes < 0 then -d.offsetMinutes else d.offsetMinutes;
      && |r| == 25
      && r[0..4] == Padded(d.year, 4) && r[5..7] == Padded(d.month, 2) && r[8..10] == Padded(d.day, 2)
      && r[11..13] == Padded(d.hour, 2) && r[14..16] == Padded(d.minute, 2) && r[17..19] == Padded(d.second, 2)
      && r[19] == (if d.offsetMinutes < 0 then '-' else '+')
      && r[20..22] == Padded(a / 60, 2) && r[23..25] == Padded(a % 60, 2)
    ensures ParseRendered(r) == Some(d.(ticks := 0))
  {
    var a := if d.offsetMinutes < 0 then -d.offsetMinutes else d.offsetMinutes;
    PaddedValue(d.year, 4);
    PaddedValue(d.month, 2);
    PaddedValue(d.day, 2);
    PaddedValue(d.hour, 2);
    PaddedValue(d.minute, 2);
    PaddedValue(d.second, 2);
    PaddedValue(a / 60, 2);
    PaddedValue(a % 60, 2);
    var oh, om := a / 60, a % 60;
    assert oh * 60 + om == a;
    ParseRenderedParts(r, d.year, d.month, d.day, d.hour, d.minute, d.second, d.offsetMinutes < 0, oh, om, d.offsetMinutes);
    assert d.(ticks := 0) == Stamp(d.year, d.month, d.day, d.hour, d.minute, d.second, 0, d.offsetMinutes);
  }

  /** Two date-times render alike exactly when they agree on everything but the ticks below one second. */
  lemma RenderInjective(d1: DateTimeOffset, d2: DateTimeOffset)
    ensures Render(d1) == Render(d2) <==> d1.(ticks := 0) == d2.(ticks := 0)
  {
    if Render(d1) == Render(d2) {
      ParseRender(d1);
      ParseRender(d2);
    }
  }

  // ---------------------------------------------------------------------
  // Instants

  function DaysBeforeMonth(y: int, m: int): int
    requires 1 <= m <= 12
    decreases m
  {
    if m == 1 then 0 else DaysBeforeMonth(y, m - 1) + DaysInMonth(y, m - 1)
  }

  /** Days from 0001-01-01 to the given date in the proleptic Gregorian calendar. */
  function DayNumber(y: int, m: int, d: int): int
    requires 1 <= m <= 12
  {
    var p := y - 1;
    365 * p + p / 4 - p / 100 + p / 400 + DaysBeforeMonth(y, m) + d - 1
  }

  const TicksPerSecond: int := 10_000_000
  const TicksPerHour: int := 3600 * TicksPerSecond

  /** DateTimeOffset.UtcTicks: the instant, independent of the offset it is presented in. */
  function UtcTicks(d: DateTimeOffset): int {
    var localSeconds := DayNumber(d.year, d.month, d.day) * 86400 + d.hour * 3600 + d.minute * 60 + d.second;
    (localSeconds - d.offsetMinutes * 60) * TicksPerSecond + d.ticks
  }
}
