/** Two small conversions: splitting decimal degrees into degrees, minutes and
    seconds (`convert_to_dms`), and the 12-hour to 24-hour step at the top of
    `calculate_custom_julian_day`. Each is paired with its inverse. */
module Conversions {
  import opened Angles

  /** Degrees and minutes are Python `int`s; seconds stay a float, whatever
      the docstring says. */
  datatype Dms = Dms(degrees: int, minutes: int, seconds: real)

  /** The inverse reading of a triple as a decimal angle. */
  function FromDms(t: Dms): real {
    t.degrees as real + t.minutes as real / 60.0 + t.seconds / 3600.0
  }

  /** `convert_to_dms`: `int()` truncates the degrees, then the minutes of the
      remainder times 60; the seconds are what is left, times 60. For a
      non-negative angle the components are the usual sexagesimal digits; for
      a negative one all three are at most 0, because `int()` rounds toward
      zero. */
  function ConvertToDms(decimalDegrees: real): (t: Dms)
    ensures 0.0 <= decimalDegrees ==>
      && t.degrees == decimalDegrees.Floor
      && 0 <= t.minutes < 60
      && 0.0 <= t.seconds < 60.0
    ensures decimalDegrees < 0.0 ==>
      && t.degrees == -((-decimalDegrees).Floor)
      && -60 < t.minutes <= 0
      && -60.0 < t.seconds <= 0.0
  {
    var degrees := TruncateToInt(decimalDegrees);
    var minutesFull := (decimalDegrees - degrees as real) * 60.0;
    var minutes := TruncateToInt(minutesFull);
    var seconds := (minutesFull - minutes as real) * 60.0;
    Dms(degrees, minutes, seconds)
  }

  /** The conversion loses nothing: reading the triple back gives the input. */
  lemma ConvertToDmsRoundTrip(decimalDegrees: real)
    ensures FromDms(ConvertToDms(decimalDegrees)) == decimalDegrees
  {
    var t := ConvertToDms(decimalDegrees);
    var minutesFull := (decimalDegrees - t.degrees as real) * 60.0;
    assert t.seconds == (minutesFull - t.minutes as real) * 60.0;
    assert t.minutes as real / 60.0 + t.seconds / 3600.0 == minutesFull / 60.0;
  }

  /** For a non-negative angle the triple is the only one with whole degrees
      and minutes and with minutes and seconds in [0, 60) that reads back as
      the angle. */
  lemma ConvertToDmsCanonical(decimalDegrees: real, t: Dms)
    requires 0.0 <= decimalDegrees
    requires 0 <= t.minutes < 60 && 0.0 <= t.seconds < 60.0
    requires FromDms(t) == decimalDegrees
    ensures ConvertToDms(decimalDegrees) == t
  {
    var frac := t.minutes as real / 60.0 + t.seconds / 3600.0;
    assert t.minutes as real <= 59.0;
    assert 0.0 <= frac < 1.0;
    assert t.degrees as real <= decimalDegrees < t.degrees as real + 1.0;
    assert decimalDegrees.Floor == t.degrees;
    var u := ConvertToDms(decimalDegrees);
    var minutesFull := (decimalDegrees - t.degrees as real) * 60.0;
    assert minutesFull == t.minutes as real + t.seconds / 60.0;
    assert t.minutes as real <= minutesFull < t.minutes as real + 1.0;
    assert u.minutes == t.minutes;
  }

  /** The worked example: 262.81 degrees is 262 degrees 48 minutes 36 seconds
      in exact arithmetic. */
  lemma ConvertToDmsExample()
    ensures ConvertToDms(262.81) == Dms(262, 48, 36.0)
  {
    ConvertToDmsCanonical(262.81, Dms(262, 48, 36.0));
  }

  /** The 12-hour to 24-hour step: a PM hour other than 12 gains 12, 12 AM
      becomes 0, and anything else, other markers included, is left as it
      is. */
  function To24Hour(hour: int, amPm: string): (h: int)
    ensures amPm != "AM" && amPm != "PM" ==> h == hour
  {
    if amPm == "PM" && hour != 12 then hour + 12
    else if amPm == "AM" && hour == 12 then 0
    else hour
  }

  predicate IsClockHour(hour: int, amPm: string) {
    1 <= hour <= 12 && (amPm == "AM" || amPm == "PM")
  }

  /** The inverse: the 12-hour reading of an hour of the day. */
  function To12Hour(h: int): (r: (int, string))
    requires 0 <= h < 24
    ensures IsClockHour(r.0, r.1)
    ensures r.1 == "AM" <==> h < 12
  {
    if h == 0 then (12, "AM")
    else if h < 12 then (h, "AM")
    else if h == 12 then (12, "PM")
    else (h - 12, "PM")
  }

  /** Every 12-hour reading lands on an hour of the day, and reading it back
      gives the same hour and marker. */
  lemma To24HourRoundTrip(hour: int, amPm: string)
    requires IsClockHour(hour, amPm)
    ensures 0 <= To24Hour(hour, amPm) < 24
    ensures To12Hour(To24Hour(hour, amPm)) == (hour, amPm)
  {
  }

  /** Every hour of the day is reached, from its own 12-hour reading; with the
      lemma above, the step is a bijection from the 24 readings onto 0..23. */
  lemma To12HourRoundTrip(h: int)
    requires 0 <= h < 24
    ensures To24Hour(To12Hour(h).0, To12Hour(h).1) == h
  {
  }

  /** 12 AM is midnight, 12 PM is noon, 1 PM is 13. */
  lemma To24HourExamples()
    ensures To24Hour(12, "AM") == 0 && To24Hour(12, "PM") == 12
    ensures To24Hour(1, "PM") == 13 && To24Hour(11, "AM") == 11
  {
  }
}
