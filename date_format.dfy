/**
 * Display formatting of dates and date ranges. Parsing a date and
 * formatting it with `Intl.DateTimeFormat` is a parameter `format`, which
 * gives `None` when the text is not a valid date and otherwise the
 * formatted text, never empty.
 */
module DateFormat {
  import opened Js

  /** What a formatter must satisfy: a valid date never formats to the empty string. */
  ghost predicate FormatsNonEmpty(format: string -> Option<string>) {
    forall text :: format(text).Some? ==> format(text).value != ""
  }

  /** The default `fallback = "-"` of both formatters, used when a caller passes none. */
  const DefaultFallback: string := "-"

  /**
   * `formatDisplayDate`: the fallback for a missing or empty value, the
   * value itself when it is not a valid date, otherwise its formatted form.
   */
  function FormatDisplayDate(value: Option<string>, fallback: string, format: string -> Option<string>): string {
    if !Truthy(value) then fallback
    else if format(value.value).None? then value.value
    else format(value.value).value
  }

  /** A missing or empty value shows the fallback; an unparseable one is shown as it came. */
  lemma {:induction false} DisplayDateCases(value: Option<string>, fallback: string, format: string -> Option<string>)
    ensures !Truthy(value) ==> FormatDisplayDate(value, fallback, format) == fallback
    ensures Truthy(value) && format(value.value).None? ==> FormatDisplayDate(value, fallback, format) == value.value
  {
  }

  /** With the empty fallback, the display text is empty exactly when the value is missing or empty. */
  lemma {:induction false} DisplayDateEmptyIffMissing(value: Option<string>, format: string -> Option<string>)
    requires FormatsNonEmpty(format)
    ensures FormatDisplayDate(value, "", format) == "" <==> !Truthy(value)
  {
    if Truthy(value) && format(value.value).Some? {
      assert format(value.value).value != "";
    }
  }

  /**
   * `formatDateRange`: both parts formatted with an empty fallback, joined
   * by " to " when both are non-empty, otherwise the non-empty one, or the
   * range's fallback.
   */
  function FormatDateRange(start: Option<string>, end: Option<string>, fallback: string,
                           format: string -> Option<string>): string {
    var formattedStart := FormatDisplayDate(start, "", format);
    var formattedEnd := FormatDisplayDate(end, "", format);
    if formattedStart != "" && formattedEnd != "" then formattedStart + " to " + formattedEnd
    else OrString(OrString(formattedStart, formattedEnd), fallback)
  }

  /**
   * Both dates present: "<start> to <end>"; exactly one present: that one
   * alone; neither: the fallback.
   */
  lemma {:induction false} DateRangeCases(start: Option<string>, end: Option<string>, fallback: string,
                                          format: string -> Option<string>)
    requires FormatsNonEmpty(format)
    ensures Truthy(start) && Truthy(end) ==>
      FormatDateRange(start, end, fallback, format) ==
        FormatDisplayDate(start, "", format) + " to " + FormatDisplayDate(end, "", format)
    ensures Truthy(start) && !Truthy(end) ==>
      FormatDateRange(start, end, fallback, format) == FormatDisplayDate(start, "", format)
    ensures !Truthy(start) && Truthy(end) ==>
      FormatDateRange(start, end, fallback, format) == FormatDisplayDate(end, "", format)
    ensures !Truthy(start) && !Truthy(end) ==> FormatDateRange(start, end, fallback, format) == fallback
  {
    DisplayDateEmptyIffMissing(start, format);
    DisplayDateEmptyIffMissing(end, format);
  }

  /** With a non-empty fallback the range text is never empty. */
  lemma {:induction false} DateRangeNeverEmpty(start: Option<string>, end: Option<string>, fallback: string,
                                               format: string -> Option<string>)
    requires fallback != ""
    ensures FormatDateRange(start, end, fallback, format) != ""
  {
    var formattedStart := FormatDisplayDate(start, "", format);
    var formattedEnd := FormatDisplayDate(end, "", format);
    if formattedStart != "" && formattedEnd != "" {
      assert |formattedStart + " to " + formattedEnd| > 0;
    }
  }

  /** The two parts of a full range can be read back from the text around " to ". */
  lemma {:induction false} DateRangeParts(start: Option<string>, end: Option<string>, fallback: string,
                                          format: string -> Option<string>)
    requires FormatsNonEmpty(format) && Truthy(start) && Truthy(end)
    ensures var text := FormatDateRange(start, end, fallback, format);
      var s := FormatDisplayDate(start, "", format);
      |text| == |s| + 4 + |FormatDisplayDate(end, "", format)| &&
      text[..|s|] == s && text[|s|..|s| + 4] == " to " &&
      text[|s| + 4..] == FormatDisplayDate(end, "", format)
  {
    DateRangeCases(start, end, fallback, format);
    var s, e := FormatDisplayDate(start, "", format), FormatDisplayDate(end, "", format);
    var text := s + " to " + e;
    assert text[..|s|] == s;
    assert text[|s|..|s| + 4] == " to ";
    assert text[|s| + 4..] == e;
  }

  /**
   * Called without a fallback, neither formatter ever returns the empty
   * string: a missing date shows "-".
   */
  lemma {:induction false} DefaultFallbackNeverEmpty(value: Option<string>, start: Option<string>, end: Option<string>,
                                                     format: string -> Option<string>)
    requires FormatsNonEmpty(format)
    ensures !Truthy(value) ==> FormatDisplayDate(value, DefaultFallback, format) == "-"
    ensures FormatDisplayDate(value, DefaultFallback, format) != ""
    ensures FormatDateRange(start, end, DefaultFallback, format) != ""
  {
    if Truthy(value) && format(value.value).Some? {
      assert format(value.value).value != "";
    }
    DateRangeNeverEmpty(start, end, DefaultFallback, format);
  }
}
