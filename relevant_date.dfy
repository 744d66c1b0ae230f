/**
  RelevantDate: an immutable relevance entry, either a single instant or an
  interval. The span limit is checked when the entry is written, not when it
  is built.
 */
module RelevantDates {
  import opened Wrappers
  import opened Errors
  import opened Json
  import opened DateTimes
  import JsonWriterExtensions

  datatype RelevantDate = RelevantDate(startDate: DateTimeOffset, endDate: Option<DateTimeOffset>)

  /** The single-instant constructor: no end date. */
  function Single(relevantDate: DateTimeOffset): (rd: RelevantDate)
    ensures rd.startDate == relevantDate && rd.endDate.None?
  {
    RelevantDate(relevantDate, None)
  }

  /** The interval constructor: it stores both instants and checks nothing. */
  function Span(startDate: DateTimeOffset, endDate: DateTimeOffset): (rd: RelevantDate)
    ensures rd.startDate == startDate && rd.endDate == Some(endDate)
  {
    RelevantDate(startDate, Some(endDate))
  }

  /** The limit Validate enforces: 24 hours, in 100 ns ticks. */
  const MaxSpanTicks: int := 24 * TicksPerHour

  /**
    `(EndDate - StartDate).TotalHours > 24`: the difference of the two
    instants (DateTimeOffset subtraction compares UTC instants), strictly
    more than a day. The double comparison agrees with this integer one,
    because a difference near one day is a multiple of one tick far above
    the rounding error of a double.
   */
  predicate TooLong(rd: RelevantDate) {
    rd.endDate.Some? && UtcTicks(rd.endDate.value) - UtcTicks(rd.startDate) > MaxSpanTicks
  }

  /** The members Write emits inside the entry's object, depending only on whether there is an end date. */
  function Members(rd: RelevantDate): seq<Member> {
    if rd.endDate.None? then
      [Member("relevantDate", JStr(Render(rd.startDate)))]
    else
      [Member("startDate", JStr(Render(rd.startDate))), Member("endDate", JStr(Render(rd.endDate.value)))]
  }

  /** What Write produces: the validation error, or the object it emits. */
  function ToJson(rd: RelevantDate): Result<Json, Error> {
    if TooLong(rd) then Err(IntervalTooLong) else Ok(JObject(Members(rd)))
  }

  /**
    RelevantDate.Write: validates first, so a rejected entry writes nothing;
    otherwise one object.
   */
  method Write(rd: RelevantDate, w: JsonWriter) returns (err: Option<Error>)
    modifies w
    ensures ToJson(rd).Err? ==> err == Some(ToJson(rd).error) && w.tokens == old(w.tokens)
    ensures ToJson(rd).Ok? ==> err.None? && w.tokens == old(w.tokens) + Encode(ToJson(rd).value)
  {
    if rd.endDate.Some? && UtcTicks(rd.endDate.value) - UtcTicks(rd.startDate) > MaxSpanTicks {
      return Some(IntervalTooLong);
    }
    ghost var t0 := w.tokens;
    ghost var ms := Members(rd);
    w.WriteStartObject();
    if rd.endDate.None? {
      var s := Render(rd.startDate);
      w.WritePropertyName("relevantDate");
      JsonWriterExtensions.WriteDateTimeValue(w, rd.startDate);
      assert EncodeMembers(ms) == [PropName("relevantDate"), Str(s)] by {
        assert ms[1..] == [];
      }
      assert w.tokens == t0 + [StartObj] + EncodeMembers(ms);
    } else {
      var s, e := Render(rd.startDate), Render(rd.endDate.value);
      w.WritePropertyName("startDate");
      JsonWriterExtensions.WriteDateTimeValue(w, rd.startDate);
      w.WritePropertyName("endDate");
      JsonWriterExtensions.WriteDateTimeValue(w, rd.endDate.value);
      assert EncodeMembers(ms) == [PropName("startDate"), Str(s), PropName("endDate"), Str(e)] by {
        assert ms[1..][1..] == [];
        assert EncodeMembers(ms[1..]) == [PropName("endDate"), Str(e)];
      }
      assert w.tokens == t0 + [StartObj] + EncodeMembers(ms);
    }
    w.WriteEndObject();
    ObjectTokens(t0, ms);
    err := None;
  }

  // ---------------------------------------------------------------------
  // Properties

  /** Write fails exactly for an interval whose end lies more than 24 hours after its start. */
  lemma RejectsExactly(rd: RelevantDate)
    ensures ToJson(rd).Err? <==> rd.endDate.Some? && UtcTicks(rd.endDate.value) - UtcTicks(rd.startDate) > 24 * 36_000_000_000
    ensures ToJson(rd).Err? ==> ToJson(rd).error == IntervalTooLong
  {
  }

  /** The single-instant constructor never builds an entry that fails validation. */
  lemma SingleAlwaysValid(d: DateTimeOffset)
    ensures ToJson(Single(d)) == Ok(JObject([Member("relevantDate", JStr(Render(d)))]))
  {
  }

  /** An interval of exactly 24 hours passes: the comparison is strict. */
  lemma ExactDayAccepted(s: DateTimeOffset, e: DateTimeOffset)
    requires UtcTicks(e) == UtcTicks(s) + 24 * TicksPerHour
    ensures ToJson(Span(s, e)).Ok?
  {
  }

  /** An end before the start is never rejected: a negative span is not above 24 hours. */
  lemma NegativeSpanAccepted(s: DateTimeOffset, e: DateTimeOffset)
    requires UtcTicks(e) < UtcTicks(s)
    ensures ToJson(Span(s, e)).Ok?
  {
  }

  /** A pair of instants, even equal ones, gives startDate then endDate and never relevantDate. */
  lemma IntervalKeys(s: DateTimeOffset, e: DateTimeOffset)
    requires !TooLong(Span(s, e))
    ensures ToJson(Span(s, e)).Ok?
    ensures ToJson(Span(s, e)).value.JObject?
    ensures Keys(ToJson(Span(s, e)).value.members) == ["startDate", "endDate"]
  {
  }

  /**
    What a reader of the written entry recovers: the object, whose every
    value reads back as the entry's instants (up to the ticks below one
    second, which the text does not carry).
   */
  lemma {:induction false} WrittenEntryReadsBack(rd: RelevantDate)
    requires ToJson(rd).Ok?
    ensures Decode(Encode(ToJson(rd).value)) == Some(JObject(Members(rd)))
    ensures rd.endDate.None? ==>
      |Members(rd)| == 1 && Members(rd)[0].key == "relevantDate"
      && ParseRendered(Members(rd)[0].value.text) == Some(rd.startDate.(ticks := 0))
    ensures rd.endDate.Some? ==>
      |Members(rd)| == 2 && Members(rd)[0].key == "startDate" && Members(rd)[1].key == "endDate"
      && ParseRendered(Members(rd)[0].value.text) == Some(rd.startDate.(ticks := 0))
      && ParseRendered(Members(rd)[1].value.text) == Some(rd.endDate.value.(ticks := 0))
  {
    DecodeEncode(ToJson(rd).value);
    ParseRender(rd.startDate);
    if rd.endDate.Some? {
      ParseRender(rd.endDate.value);
    }
  }

  /** The interval of the relevance example: 06:30 to 23:00 on one day at +04:00 is accepted. */
  lemma ExampleIntervalAccepted()
    ensures ToJson(Span(Stamp(2025, 10, 31, 6, 30, 0, 0, 240), Stamp(2025, 10, 31, 23, 0, 0, 0, 240))).Ok?
  {
    assert UtcTicks(Stamp(2025, 10, 31, 23, 0, 0, 0, 240)) - UtcTicks(Stamp(2025, 10, 31, 6, 30, 0, 0, 240))
      == (16 * 3600 + 30 * 60) * TicksPerSecond;
  }

  /** One second past a full day, across a month boundary, is rejected. */
  lemma ExampleDayAndOneSecondRejected()
    ensures ToJson(Span(Stamp(2025, 10, 31, 6, 30, 0, 0, 240), Stamp(2025, 11, 1, 6, 30, 1, 0, 240))) == Err(IntervalTooLong)
  {
    assert DaysBeforeMonth(2025, 11) == DaysBeforeMonth(2025, 10) + 31;
    assert UtcTicks(Stamp(2025, 11, 1, 6, 30, 1, 0, 240)) - UtcTicks(Stamp(2025, 10, 31, 6, 30, 0, 0, 240))
      == (86400 + 1) * TicksPerSecond;
  }
}
