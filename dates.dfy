/** Date inputs as the pipes receive them, and their time values. A date string's parse result
    (the milliseconds `Date.parse` gives, or NaN) is part of the input, because the string
    grammar is the JavaScript engine's. */
module Dates {
  import opened Wrappers

  /** The largest magnitude of a valid time value (ECMAScript TimeClip), in milliseconds. */
  const MaxTime := 8_640_000_000_000_000
  /** Numbers below this are taken as seconds rather than milliseconds. */
  const SecondsThreshold := 10_000_000_000

  /** A `Date` (its time value, `None` for an invalid date), a string (with its parse), a number
      of seconds or milliseconds, or `null`/`undefined`. */
  datatype DateInput =
    | DateObject(time: Option<int>)
    | DateString(text: string, parsed: Option<int>)
    | DateNumber(n: int)
    | NoDate

  /** JavaScript truthiness of the input: every `Date` object is truthy, "" and 0 are not. */
  predicate Truthy(v: DateInput) {
    match v
    case DateObject(_) => true
    case DateString(s, _) => s != ""
    case DateNumber(n) => n != 0
    case NoDate => false
  }

  /** `new Date(t).getTime()`: `t`, or NaN (`None`) beyond the representable range. */
  function TimeClip(t: int): (r: Option<int>)
    ensures r.Some? <==> -MaxTime <= t <= MaxTime
    ensures r.Some? ==> r.value == t
  {
    if -MaxTime <= t <= MaxTime then Some(t) else None
  }

  /** The numeric branch of `parseDate`: a number below 10^10 counts as seconds. */
  function NumericTimestamp(n: int): (t: int)
    ensures n < SecondsThreshold ==> t == n * 1000
    ensures n >= SecondsThreshold ==> t == n
  {
    if n < SecondsThreshold then n * 1000 else n
  }

  /** The time value of a parsed input: `None` for an invalid date or no input. */
  function TimeOf(v: DateInput): (r: Option<int>)
    ensures v.DateNumber? ==> r == TimeClip(NumericTimestamp(v.n))
    ensures v.NoDate? ==> r.None?
  {
    match v
    case DateObject(t) => t
    case DateString(_, p) => p
    case DateNumber(n) => TimeClip(NumericTimestamp(n))
    case NoDate => None
  }
}
