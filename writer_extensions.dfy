/** The writer extension that emits a DateTimeOffset as text. */
module JsonWriterExtensions {
  import opened Wrappers
  import opened Json
  import opened DateTimes

  /** WriteDateTimeValue: one string token holding the rendered date-time, never a number. */
  method WriteDateTimeValue(w: JsonWriter, dateTime: DateTimeOffset)
    modifies w
    ensures w.tokens == old(w.tokens) + [Str(Render(dateTime))]
  {
    w.WriteStringValue(Some(Render(dateTime)));
  }
}
