/** The `duration` pipe: the time between two dates as the largest unit ("3d", "3 days") or as
    days, hours, minutes and seconds ("1d 2h 5m"). */
module DurationPipe {
  import opened Wrappers
  import opened Strings
  import opened Dates

  const SecondMs := 1000
  const MinuteMs := 60_000
  const HourMs := 3_600_000
  const DayMs := 86_400_000

  /** The floor-divided unit counts of `transform`; months and years are 30 and 365 days. */
  datatype Units = Units(years: nat, months: nat, days: nat, hours: nat, minutes: nat, seconds: nat)

  function UnitsOf(ms: nat): (u: Units)
    ensures u.seconds == ms / 1000 && u.minutes == u.seconds / 60 && u.hours == u.minutes / 60
    ensures u.days == u.hours / 24 && u.months == u.days / 30 && u.years == u.days / 365
  {
    var seconds := ms / 1000;
    var minutes := seconds / 60;
    var hours := minutes / 60;
    var days := hours / 24;
    Units(days / 365, days / 30, days, hours, minutes, seconds)
  }

  /** Every larger unit that is non-zero makes each smaller one non-zero, so the first non-zero
      count is that of the largest unit in the duration; all counts are zero under a second. */
  lemma UnitsNested(ms: nat)
    ensures var u := UnitsOf(ms);
      (u.years > 0 ==> u.months > 0) && (u.months > 0 ==> u.days > 0) && (u.days > 0 ==> u.hours > 0) &&
      (u.hours > 0 ==> u.minutes > 0) && (u.minutes > 0 ==> u.seconds > 0) &&
      (u.seconds == 0 <==> ms < 1000)
  {
  }

  /** "1 <unit>" or "<n> <unit>s". */
  function Plural(n: nat, unit: string): (r: string)
    ensures n == 1 ==> r == "1 " + unit
    ensures n != 1 ==> r == NatToString(n) + " " + unit + "s"
    ensures unit != "" ==> r != "" && (r[|r| - 1] == 's' || r[|r| - 1] == unit[|unit| - 1])
  {
    if n == 1 then "1 " + unit else NatToString(n) + " " + unit + "s"
  }

  /** No unit count is non-zero. */
  predicate AllZero(u: Units) {
    u.years == 0 && u.months == 0 && u.days == 0 && u.hours == 0 && u.minutes == 0 && u.seconds == 0
  }

  /** `getLongDuration`: the first non-zero of years, months, days, hours, minutes and seconds,
      spelled out; "just now" exactly when every count is zero. */
  function LongDuration(u: Units): (r: string)
    ensures r == "just now" <==> AllZero(u)
    ensures u.years > 0 ==> StartsWith(r, NatToString(u.years)) || r == "1 year"
  {
    if u.years > 0 then Plural(u.years, "year")
    else if u.months > 0 then Plural(u.months, "month")
    else if u.days > 0 then Plural(u.days, "day")
    else if u.hours > 0 then Plural(u.hours, "hour")
    else if u.minutes > 0 then Plural(u.minutes, "minute")
    else if u.seconds > 0 then Plural(u.seconds, "second")
    else "just now"
  }

  /** `getShortDuration`: the same unit, abbreviated, the count in front; "now" exactly when
      every count is zero. */
  function ShortDuration(u: Units): (r: string)
    ensures r == "now" <==> AllZero(u)
    ensures r != "" && ('0' <= r[0] <= '9' <==> !AllZero(u))
  {
    if u.years > 0 then NatToString(u.years) + "y"
    else if u.months > 0 then NatToString(u.months) + "mo"
    else if u.days > 0 then NatToString(u.days) + "d"
    else if u.hours > 0 then NatToString(u.hours) + "h"
    else if u.minutes > 0 then NatToString(u.minutes) + "m"
    else if u.seconds > 0 then NatToString(u.seconds) + "s"
    else "now"
  }

  /** The days, hours, minutes and seconds `getPreciseDuration` computes. */
  datatype Precise = Precise(days: nat, hours: nat, minutes: nat, seconds: nat)

  function PreciseOf(ms: nat): (p: Precise)
    ensures p.hours < 24 && p.minutes < 60 && p.seconds < 60
  {
    HoursOfDay(ms);
    MinutesOfHour(ms);
    SecondsOfMinute(ms);
    Precise(ms / DayMs, (ms % DayMs) / HourMs, (ms % HourMs) / MinuteMs, (ms % MinuteMs) / SecondMs)
  }

  /** Taking the remainder by a larger unit first does not change the remainder by a smaller
      unit that divides it. */
  lemma HoursOfDay(ms: nat)
    ensures (ms % DayMs) / HourMs < 24
    ensures ms % DayMs == (ms % DayMs) / HourMs * HourMs + ms % HourMs
  {
    var q, r := ms / DayMs, ms % DayMs;
    assert ms == (q * 24) * HourMs + r;
    assert r == r / HourMs * HourMs + r % HourMs;
    assert ms == (q * 24 + r / HourMs) * HourMs + r % HourMs;
  }

  lemma MinutesOfHour(ms: nat)
    ensures (ms % HourMs) / MinuteMs < 60
    ensures ms % HourMs == (ms % HourMs) / MinuteMs * MinuteMs + ms % MinuteMs
  {
    var q, r := ms / HourMs, ms % HourMs;
    assert ms == (q * 60) * MinuteMs + r;
    assert r == r / MinuteMs * MinuteMs + r % MinuteMs;
    assert ms == (q * 60 + r / MinuteMs) * MinuteMs + r % MinuteMs;
  }

  lemma SecondsOfMinute(ms: nat)
    ensures (ms % MinuteMs) / SecondMs < 60
    ensures (ms % MinuteMs) / SecondMs * SecondMs <= ms % MinuteMs < (ms % MinuteMs) / SecondMs * SecondMs + 1000
  {
  }

  /** The precise parts are a decomposition of the duration: hours under 24, minutes and
      seconds under 60, and what is left over is under a second. */
  lemma PreciseDecomposes(ms: nat)
    ensures var p := PreciseOf(ms);
      p.hours < 24 && p.minutes < 60 && p.seconds < 60 &&
      var whole := p.days * DayMs + p.hours * HourMs + p.minutes * MinuteMs + p.seconds * SecondMs;
      whole <= ms < whole + 1000
  {
    HoursOfDay(ms);
    MinutesOfHour(ms);
    SecondsOfMinute(ms);
    assert ms == ms / DayMs * DayMs + ms % DayMs;
  }

  /** The parts `getPreciseDuration` pushes, in the order days, hours, minutes, seconds. */
  function PreciseParts(p: Precise): (parts: seq<string>)
    ensures forall i :: 0 <= i < |parts| ==> parts[i] != ""
  {
    (if p.days > 0 then [NatToString(p.days) + "d"] else []) +
    (if p.hours > 0 then [NatToString(p.hours) + "h"] else []) +
    (if p.minutes > 0 then [NatToString(p.minutes) + "m"] else []) +
    (if p.seconds > 0 && p.days == 0 then [NatToString(p.seconds) + "s"] else [])
  }

  /** `getPreciseDuration(diffInMs)`: the parts joined by spaces, or "0s" when there is none. */
  method PreciseDuration(ms: nat) returns (r: string)
    ensures var parts := PreciseParts(PreciseOf(ms));
      (parts == [] ==> r == "0s") && (parts != [] ==> r == Join(parts, " "))
  {
    var days := ms / DayMs;
    var hours := (ms % DayMs) / HourMs;
    var minutes := (ms % HourMs) / MinuteMs;
    var seconds := (ms % MinuteMs) / SecondMs;
    var parts: seq<string> := [];
    if days > 0 { parts := parts + [NatToString(days) + "d"]; }
    if hours > 0 { parts := parts + [NatToString(hours) + "h"]; }
    if minutes > 0 { parts := parts + [NatToString(minutes) + "m"]; }
    if seconds > 0 && days == 0 { parts := parts + [NatToString(seconds) + "s"]; }
    assert parts == PreciseParts(PreciseOf(ms));
    r := Join(parts, " ");
    if r == "" {
      r := "0s";
    }
    JoinEmptyIff(parts);
  }

  /** No piece is empty, so the joined text is empty iff there is no piece. */
  lemma JoinEmptyIff(parts: seq<string>)
    requires forall i :: 0 <= i < |parts| ==> parts[i] != ""
    ensures Join(parts, " ") == "" <==> parts == []
  {
    if |parts| > 1 {
      assert Join(parts, " ") == parts[0] + " " + Join(parts[1..], " ");
    }
  }

  /** The precise form omits zero parts, never shows seconds next to days, and is "0s" exactly
      when the duration is under a second. */
  lemma PreciseShape(ms: nat)
    ensures var p := PreciseOf(ms);
      var parts := PreciseParts(p);
      (p.days > 0 ==> forall i :: 0 <= i < |parts| ==> !EndsWith(parts[i], "s")) &&
      (parts == [] <==> ms < 1000) &&
      |parts| <= 3
  {
    PreciseDecomposes(ms);
    var p := PreciseOf(ms);
    if p.days > 0 {
      var parts := PreciseParts(p);
      forall i | 0 <= i < |parts|
        ensures !EndsWith(parts[i], "s")
      {
        var pieces := [NatToString(p.days) + "d"] +
          (if p.hours > 0 then [NatToString(p.hours) + "h"] else []) +
          (if p.minutes > 0 then [NatToString(p.minutes) + "m"] else []);
        assert parts == pieces;
      }
    }
  }

  /** The difference the pipe measures, or `None` when either time value is NaN. */
  function Difference(start: DateInput, end: Option<DateInput>, now: int): (d: Option<nat>)
  {
    var s := TimeOf(start);
    var e := if end.Some? && Truthy(end.value) then TimeOf(end.value) else Some(now);
    if s.Some? && e.Some? then Some(if e.value >= s.value then e.value - s.value else s.value - e.value)
    else None
  }

  /** `transform(startDate, endDate, format)` as text: "" for a falsy start; a NaN difference
      compares false everywhere, which gives the all-zero outputs. */
  function DurationText(start: DateInput, end: Option<DateInput>, format: string, now: int): (r: string)
    ensures r == "" <==> !Truthy(start)
  {
    if !Truthy(start) then "" else FormatDifference(Difference(start, end, now), format)
  }

  /** The text for a difference in the given format. */
  function FormatDifference(d: Option<nat>, format: string): (r: string)
    ensures r != ""
  {
    if format == "precise" then
      if d.None? then "0s"
      else
        var parts := PreciseParts(PreciseOf(d.value));
        JoinEmptyIff(parts);
        if parts == [] then "0s" else Join(parts, " ")
    else if format == "long" then
      if d.None? then "just now" else LongDuration(UnitsOf(d.value))
    else
      if d.None? then "now" else ShortDuration(UnitsOf(d.value))
  }

  /** `transform(startDate, endDate, format)`. */
  method Transform(start: DateInput, end: Option<DateInput>, format: string, now: int) returns (r: string)
    ensures r == DurationText(start, end, format, now)
  {
    if !Truthy(start) {
      return "";
    }
    var d := Difference(start, end, now);
    if format == "precise" {
      if d.None? {
        r := "0s";
      } else {
        r := PreciseDuration(d.value);
      }
    } else if format == "long" {
      r := if d.None? then "just now" else LongDuration(UnitsOf(d.value));
    } else {
      r := if d.None? then "now" else ShortDuration(UnitsOf(d.value));
    }
  }

  /** The default format is the short one. */
  const DefaultFormat := "short"

  /** Swapping two (truthy) dates does not change the output. */
  lemma Symmetric(a: DateInput, b: DateInput, format: string, now: int)
    requires Truthy(a) && Truthy(b)
    ensures DurationText(a, Some(b), format, now) == DurationText(b, Some(a), format, now)
  {
    assert Difference(a, Some(b), now) == Difference(b, Some(a), now);
  }

  /** The long and short formats name the largest non-zero unit; under a second they say
      "just now" and "now". */
  lemma LargestUnit(ms: nat)
    ensures var u := UnitsOf(ms);
      (ms < 1000 <==> LongDuration(u) == "just now") &&
      (ms < 1000 <==> ShortDuration(u) == "now") &&
      (u.years > 0 ==>
         LongDuration(u) == Plural(u.years, "year") && ShortDuration(u) == NatToString(u.years) + "y") &&
      (u.years == 0 && u.months > 0 ==>
         LongDuration(u) == Plural(u.months, "month") && ShortDuration(u) == NatToString(u.months) + "mo") &&
      (u.years == 0 && u.months == 0 && u.days > 0 ==>
         LongDuration(u) == Plural(u.days, "day") && ShortDuration(u) == NatToString(u.days) + "d") &&
      (u.years == 0 && u.months == 0 && u.days == 0 && u.hours > 0 ==>
         LongDuration(u) == Plural(u.hours, "hour") && ShortDuration(u) == NatToString(u.hours) + "h") &&
      (u.years == 0 && u.months == 0 && u.days == 0 && u.hours == 0 && u.minutes > 0 ==>
         LongDuration(u) == Plural(u.minutes, "minute") && ShortDuration(u) == NatToString(u.minutes) + "m") &&
      (u.years == 0 && u.months == 0 && u.days == 0 && u.hours == 0 && u.minutes == 0 && u.seconds > 0 ==>
         LongDuration(u) == Plural(u.seconds, "second") && ShortDuration(u) == NatToString(u.seconds) + "s")
  {
    UnitsNested(ms);
    var u := UnitsOf(ms);
    if ms >= 1000 {
      PluralNotJustNow(u);
      ShortNotNow(u);
    }
  }

  lemma PluralNotJustNow(u: Units)
    requires u.seconds > 0
    ensures LongDuration(u) != "just now"
  {
    var r := LongDuration(u);
    assert EndsWith(r, "s") || r[|r| - 1] != 'w';
  }

  lemma ShortNotNow(u: Units)
    requires u.seconds > 0
    ensures ShortDuration(u) != "now"
  {
    var r := ShortDuration(u);
    assert r[|r| - 1] != 'w';
  }

  /** One day in long format is "1 day"; two are "2 days". */
  lemma OneAndTwoDays()
    ensures LongDuration(UnitsOf(DayMs)) == "1 day"
    ensures LongDuration(UnitsOf(2 * DayMs)) == "2 days"
    ensures ShortDuration(UnitsOf(2 * DayMs)) == "2d"
  {
    assert NatToString(2) == "2";
  }
}
