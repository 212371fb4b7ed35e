/**
 The timeseries records the analytics service returns, and the short bar
 label derived from each record's date: its last two bytes, which for an
 ISO calendar date such as "2021-05-14" is the day of the month.
 */
module Timeseries {
  import opened RustStr

  /** One point of the timeseries: a calendar date and its visitor count. */
  datatype TimeseriesResult = TimeseriesResult(date: Bytes, visitors: u64)

  /** The deserialized response body: the points in the order received. */
  datatype TimeseriesResponse = TimeseriesResponse(results: seq<TimeseriesResult>)

  /** The label slice `&date[len-2..]` succeeds: two bytes exist and the cut
      does not fall inside a multi-byte character. */
  predicate HasDayLabel(date: seq<byte>) {
    |date| >= 2 && IsCharBoundary(date, |date| - 2)
  }

  /** The two-byte label of a date the slice accepts. */
  function DayLabel(date: seq<byte>): (day: seq<byte>)
    requires HasDayLabel(date)
    ensures |day| == 2
    ensures date == date[..|date| - 2] + day
  {
    date[|date| - 2..]
  }

  /**
   The label expression exactly as the loop evaluates it: `len - 2` on
   `usize` under the build profile, then the range-from slice.
   */
  function TryDayLabel(profile: Profile, date: Bytes): (r: Result<seq<byte>>)
    ensures r.Ok? <==> HasDayLabel(date)
    ensures r.Ok? ==> r.value == DayLabel(date)
    ensures r.Err? && |date| < 2 && profile == Debug ==> r.panic == SubtractOverflow
    ensures r.Err? && |date| < 2 && profile == Release ==> r.panic == IndexOutOfBounds
    ensures r.Err? && |date| >= 2 ==> r.panic == NotCharBoundary
  {
    match Sub(profile, |date|, 2)
    case Err(p) => Err(p)
    case Ok(start) => SliceFrom(date, start)
  }

  /** Whether the label expression panics does not depend on the build
      profile: only which panic is raised does. */
  lemma ProfilesAgree(date: Bytes)
    ensures TryDayLabel(Debug, date).Ok? <==> TryDayLabel(Release, date).Ok?
    ensures TryDayLabel(Debug, date).Ok? ==> TryDayLabel(Debug, date) == TryDayLabel(Release, date)
  {
  }

  /** Equal dates give equal labels. This holds by construction, since the
      label is a function of the date alone; it is stated for the record. */
  lemma LabelDependsOnlyOnDate(a: TimeseriesResult, b: TimeseriesResult)
    requires HasDayLabel(a.date) && a.date == b.date
    ensures HasDayLabel(b.date) && DayLabel(a.date) == DayLabel(b.date)
  {
  }

  /** A plain-ASCII date of at least two bytes always has a label. */
  lemma AsciiDateHasDayLabel(date: seq<byte>)
    requires |date| >= 2
    requires forall i | 0 <= i < |date| :: date[i] < 0x80
    ensures HasDayLabel(date)
  {
  }

  /** The bytes of a plain-ASCII text. */
  function Ascii(text: string): seq<byte>
    requires forall i | 0 <= i < |text| :: text[i] < 128 as char
  {
    seq(|text|, i requires 0 <= i < |text| => text[i] as int)
  }

  /** The label of an ASCII text is the ASCII of its last two characters:
      for such dates bytes and characters coincide. */
  lemma AsciiDayLabel(text: string)
    requires |text| >= 2
    requires forall i | 0 <= i < |text| :: text[i] < 128 as char
    ensures HasDayLabel(Ascii(text))
    ensures DayLabel(Ascii(text)) == Ascii(text[|text| - 2..])
  {
    AsciiDateHasDayLabel(Ascii(text));
  }

  /** A date in the "YYYY-MM-DD" shape: ASCII digits with dashes at 4 and 7. */
  predicate IsIsoDate(date: seq<byte>) {
    && |date| == 10
    && forall i | 0 <= i < 10 ::
      if i == 4 || i == 7 then date[i] == 0x2D else 0x30 <= date[i] <= 0x39
  }

  /** An ISO calendar date always has a label, and it is the day field,
      the two digits after the second dash. */
  lemma IsoDateLabelIsDay(date: seq<byte>)
    requires IsIsoDate(date)
    ensures HasDayLabel(date) && DayLabel(date) == date[8..10]
  {
    AsciiDateHasDayLabel(date);
  }

  /** A date ending in a three-byte character ("2€", bytes 32 E2 82 AC) makes
      the slice start on a continuation byte, so the loop panics even though
      the date is four bytes long. */
  lemma MultiByteEndingPanics(profile: Profile)
    ensures TryDayLabel(profile, [0x32, 0xE2, 0x82, 0xAC]) == Err(NotCharBoundary)
  {
  }
}
