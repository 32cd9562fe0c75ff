/** The relative-time formats (`'relative'`, `'fromNow'`) of the `dateFormat` pipe: the age of a
    date as "5 minutes ago", "yesterday", "in 2 hours", ... */
module DateFormatPipe {
  import opened Wrappers
  import opened Strings
  import opened Dates

  /** `Math.abs`. */
  function Abs(n: int): nat { if n < 0 then -n else n }

  /** `getRelativeTime(date)` for `diffMs = now - date`, in milliseconds. The unit counts are
      floor divisions (toward minus infinity, as `Math.floor` and Dafny's `/` with a positive
      divisor), so a future date counts its units from the floored negative values. A past
      instant is "just now", "yesterday" or ends in " ago", a future one starts with "in " or
      is "tomorrow". */
  function RelativeTime(diffMs: int): (r: string)
    ensures diffMs >= 0 <==> PastPhrase(r)
    ensures diffMs < 0 ==> StartsWith(r, "in ") || r == "tomorrow"
  {
    var seconds := diffMs / 1000;
    var minutes := seconds / 60;
    var hours := minutes / 60;
    var days := hours / 24;
    if seconds < 0 then FutureTime(Abs(seconds), Abs(minutes), Abs(hours), Abs(days))
    else PastTime(seconds, minutes, hours, days, days / 7, days / 30, days / 365)
  }

  /** The future branch of `getRelativeTime`, on the absolute unit counts. */
  function FutureTime(absSeconds: nat, absMinutes: nat, absHours: nat, absDays: nat): (r: string)
    ensures StartsWith(r, "in ") || r == "tomorrow"
    ensures !PastPhrase(r)
  {
    var phrase :=
      if absSeconds < 60 then In("a few seconds")
      else if absMinutes == 1 then In("1 minute")
      else if absMinutes < 60 then In(NatToString(absMinutes) + " minutes")
      else if absHours == 1 then In("1 hour")
      else if absHours < 24 then In(NatToString(absHours) + " hours")
      else if absDays == 1 then "tomorrow"
      else if absDays < 7 then In(NatToString(absDays) + " days")
      else if absDays < 30 then In(NatToString(absDays / 7) + " weeks")
      else if absDays < 365 then In(NatToString(absDays / 30) + " months")
      else In(NatToString(absDays / 365) + " years");
    LastOfSuffix(phrase, " ago");
    phrase
  }

  /** The past branch of `getRelativeTime`, on the (non-negative) unit counts. */
  function PastTime(seconds: nat, minutes: nat, hours: nat, days: nat, weeks: nat, months: nat,
                    years: nat): (r: string)
    ensures PastPhrase(r)
  {
    if seconds < 10 then "just now"
    else if seconds < 60 then Ago("a few seconds")
    else if minutes == 1 then Ago("1 minute")
    else if minutes < 60 then Ago(NatToString(minutes) + " minutes")
    else if hours == 1 then Ago("1 hour")
    else if hours < 24 then Ago(NatToString(hours) + " hours")
    else if days == 1 then "yesterday"
    else if days < 7 then Ago(NatToString(days) + " days")
    else if weeks == 1 then Ago("1 week")
    else if weeks < 4 then Ago(NatToString(weeks) + " weeks")
    else if months == 1 then Ago("1 month")
    else if months < 12 then Ago(NatToString(months) + " months")
    else if years == 1 then Ago("1 year")
    else Ago(NatToString(years) + " years")
  }

  /** A string ending in a suffix ends in the suffix's last character. */
  lemma LastOfSuffix(s: string, suffix: string)
    requires suffix != ""
    ensures EndsWith(s, suffix) ==> s[|s| - 1] == suffix[|suffix| - 1]
  {
    if EndsWith(s, suffix) {
      assert s[|s| - 1] == s[|s| - |suffix|..][|suffix| - 1];
    }
  }

  /** `in <span>`. */
  function In(span: string): (r: string)
    ensures StartsWith(r, "in ") && r[0] == 'i'
    ensures span != [] ==> r[|r| - 1] == span[|span| - 1]
  {
    "in " + span
  }

  /** `<span> ago`. */
  function Ago(span: string): (r: string)
    ensures EndsWith(r, " ago")
  {
    span + " ago"
  }

  /** The phrases of a past instant. */
  predicate PastPhrase(r: string) {
    r == "just now" || r == "yesterday" || EndsWith(r, " ago")
  }

  /** `transform(value, 'relative')` (and `'fromNow'`): "" for a falsy or invalid date, else
      the relative time against the clock reading `now`. */
  function TransformRelative(value: DateInput, now: int): (r: string)
    ensures !Truthy(value) ==> r == ""
    ensures Truthy(value) && TimeOf(value).None? ==> r == ""
    ensures Truthy(value) && TimeOf(value).Some? ==> r == RelativeTime(now - TimeOf(value).value)
  {
    if !Truthy(value) || TimeOf(value).None? then ""
    else RelativeTime(now - TimeOf(value).value)
  }

  /** Under ten seconds in the past is "just now", under a minute "a few seconds ago". */
  lemma RecentPast(diffMs: int)
    ensures 0 <= diffMs < 10_000 ==> RelativeTime(diffMs) == "just now"
    ensures 10_000 <= diffMs < 60_000 ==> RelativeTime(diffMs) == "a few seconds ago"
  {
  }

  /** Any future instant less than a minute of whole seconds away is "in a few seconds". */
  lemma NearFuture(diffMs: int)
    requires diffMs < 0 && diffMs / 1000 > -60
    ensures RelativeTime(diffMs) == "in a few seconds"
  {
  }

  /** One minute ago is "1 minute ago"; two to fifty-nine are counted. */
  lemma PastMinutes(diffMs: int, m: nat)
    requires 1 <= m < 60 && m * 60_000 <= diffMs < (m + 1) * 60_000
    ensures m == 1 ==> RelativeTime(diffMs) == "1 minute ago"
    ensures m > 1 ==> RelativeTime(diffMs) == NatToString(m) + " minutes ago"
  {
    var seconds := diffMs / 1000;
    assert m * 60 <= seconds < (m + 1) * 60;
    assert seconds / 60 == m;
  }

  /** One day ago is "yesterday"; two to six are counted. */
  lemma PastDays(diffMs: int, d: nat)
    requires 1 <= d < 7 && d * 86_400_000 <= diffMs < (d + 1) * 86_400_000
    ensures d == 1 ==> RelativeTime(diffMs) == "yesterday"
    ensures d > 1 ==> RelativeTime(diffMs) == NatToString(d) + " days ago"
  {
    var seconds := diffMs / 1000;
    assert d * 86_400 <= seconds < (d + 1) * 86_400;
    var minutes := seconds / 60;
    assert d * 1440 <= minutes < (d + 1) * 1440;
    var hours := minutes / 60;
    assert d * 24 <= hours < (d + 1) * 24;
    assert hours / 24 == d;
  }

  /** Twenty-eight days: four weeks are not "under 4 weeks", and the floored month count is 0. */
  lemma TwentyEightDays()
    ensures RelativeTime(28 * 86_400_000) == "0 months ago"
  {
    assert NatToString(0) == "0";
  }

  /** 360 days: twelve 30-day months are not "under 12 months", and the floored year count is 0. */
  lemma ThreeHundredSixtyDays()
    ensures RelativeTime(360 * 86_400_000) == "0 years ago"
  {
    assert NatToString(0) == "0";
  }

  /** 61 seconds ahead: the minutes floor to -2, so the text is "in 2 minutes". */
  lemma SixtyOneSecondsAhead()
    ensures RelativeTime(-61_000) == "in 2 minutes"
  {
    assert -61_000 / 1000 == -61 && -61 / 60 == -2 && -2 / 60 == -1 && -1 / 24 == -1;
    assert RelativeTime(-61_000) == FutureTime(61, 2, 1, 1);
    assert NatToString(2) == "2";
    assert FutureTime(61, 2, 1, 1) == In("2" + " minutes");
    assert "in " + ("2" + " minutes") == "in 2 minutes";
  }

  /** A number below 10^10 is a seconds timestamp: 1 (one second after the epoch) read at
      61 seconds is a minute old. */
  lemma SecondsTimestamp()
    ensures TransformRelative(DateNumber(1), 61_000) == "1 minute ago"
  {
  }
}
