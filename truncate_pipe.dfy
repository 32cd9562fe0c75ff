/** The `truncate` pipe: a string cut to a length limit, at a word boundary or not, with an
    ellipsis appended. */
module TruncatePipe {
  import opened Strings

  const DefaultLimit := 100
  const DefaultCompleteWords := true
  const DefaultEllipsis := "..."

  /** `value.substr(0, limit)`: the first `limit` characters, none for a negative limit. */
  function Substr(value: string, limit: int): (r: string)
    ensures |r| == if limit <= 0 then 0 else if limit <= |value| then limit else |value|
    ensures r == value[..|r|]
  {
    if limit <= 0 then "" else Prefix(value, limit)
  }

  /** `transform(value, limit, completeWords, ellipsis)`. */
  function Transform(value: string, limit: int, completeWords: bool, ellipsis: string): (r: string)
    ensures value == "" || |value| <= limit ==> r == value
    ensures value != "" && |value| > limit && !completeWords ==>
              r == Substr(value, limit) + ellipsis &&
              |r| == (if limit <= 0 then 0 else limit) + |ellipsis|
    ensures value != "" && |value| > limit ==> |r| >= |ellipsis| && r[|r| - |ellipsis|..] == ellipsis
    ensures value != "" && |value| > limit && completeWords ==>
              var cut := Substr(value, limit);
              var kept := r[..|r| - |ellipsis|];
              && |kept| <= |cut| && kept == value[..|kept|]
              && (limit > 0 ==> |kept| < limit)
              && (' ' !in cut ==> r == ellipsis)
              && (' ' in cut ==> value[|kept|] == ' ' && ' ' !in value[|kept| + 1..|cut|])
  {
    if value == "" || |value| <= limit then value
    else if completeWords then
      var words := Split(Substr(value, limit), ' ');
      JoinSplitDropLast(Substr(value, limit), ' ');
      Join(words[..|words| - 1], " ") + ellipsis
    else Substr(value, limit) + ellipsis
  }

  /** `value | truncate`: at most 100 characters, whole words only, "..." appended. */
  function TransformDefault(value: string): (r: string)
    ensures |value| <= 100 ==> r == value
    ensures |value| > 100 ==> |r| < 100 + 3 && EndsWith(r, "...")
  {
    Transform(value, DefaultLimit, DefaultCompleteWords, DefaultEllipsis)
  }

  /** Truncating the result again changes nothing when it already fits. */
  lemma TruncateFits(value: string, limit: nat, ellipsis: string)
    requires |ellipsis| == 0
    ensures |Transform(value, limit, true, ellipsis)| <= limit
    ensures |Transform(value, limit, false, ellipsis)| <= limit
    ensures Transform(Transform(value, limit, true, ellipsis), limit, true, ellipsis) == Transform(value, limit, true, ellipsis)
  {
  }
}
