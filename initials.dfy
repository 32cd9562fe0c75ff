/** Avatar initials: `name.split(' ').map(n => n[0]).join('').toUpperCase()`, in the variants the
    pages use (uncapped, capped at two characters, with an e-mail or `'A'` fallback). */
module Initials {
  import opened Wrappers
  import opened Strings
  import opened PayloadTypes

  /** `parts.map(n => n[0]).join('')`: the first character of every piece; an empty piece gives
      `undefined`, which joins as the empty string. */
  function FirstChars(parts: seq<string>): (r: string)
    ensures |r| <= |parts|
    decreases |parts|
  {
    if parts == [] then ""
    else (if parts[0] != "" then [parts[0][0]] else "") + FirstChars(parts[1..])
  }

  /** Reference definition: the characters of `s` that start a run of non-spaces, that is,
      those that are not `' '` and follow a `' '` or the start (`atStart`). */
  function WordStarts(s: string, atStart: bool): (r: string)
    ensures |r| <= |s|
    decreases |s|
  {
    if s == [] then ""
    else (if s[0] != ' ' && atStart then [s[0]] else "") + WordStarts(s[1..], s[0] == ' ')
  }

  /** Splitting on `' '` and taking first characters picks exactly the word starts. */
  lemma {:induction false} FirstCharsOfSplit(s: string)
    ensures FirstChars(Split(s, ' ')) == WordStarts(s, true)
    ensures FirstChars(Split(s, ' ')[1..]) == WordStarts(s, false)
    decreases |s|
  {
    if s != [] {
      var rest := Split(s[1..], ' ');
      FirstCharsOfSplit(s[1..]);
      if s[0] == ' ' {
        assert Split(s, ' ') == [""] + rest;
        assert ([""] + rest)[1..] == rest;
      } else {
        var p := Split(s, ' ');
        assert p == [[s[0]] + rest[0]] + rest[1..];
        assert p[0][0] == s[0];
        assert p[1..] == rest[1..];
      }
    }
  }

  /** Every initial is a character of the name that is not a space. */
  lemma {:induction false} WordStartsFromName(s: string, atStart: bool)
    ensures forall i :: 0 <= i < |WordStarts(s, atStart)| ==>
              WordStarts(s, atStart)[i] != ' ' && WordStarts(s, atStart)[i] in s
    decreases |s|
  {
    if s != [] {
      WordStartsFromName(s[1..], s[0] == ' ');
      var head := if s[0] != ' ' && atStart then [s[0]] else "";
      var tail := WordStarts(s[1..], s[0] == ' ');
      forall i | 0 <= i < |head + tail|
        ensures (head + tail)[i] != ' ' && (head + tail)[i] in s
      {
        if i >= |head| {
          assert (head + tail)[i] == tail[i - |head|];
          assert tail[i - |head|] in s[1..];
        }
      }
    }
  }

  /** The team page's `getInitials(name)`: every word start, upper-cased, with no cap. */
  function TeamInitials(name: string): (r: string)
    ensures r == ToUpper(WordStarts(name, true))
  {
    FirstCharsOfSplit(name);
    ToUpper(FirstChars(Split(name, ' ')))
  }

  /** The same chain followed by `.slice(0, 2)` / `.substring(0, 2)`. */
  function CappedInitials(name: string): (r: string)
    ensures |r| <= 2
    ensures r == Prefix(TeamInitials(name), 2)
  {
    Prefix(ToUpper(FirstChars(Split(name, ' '))), 2)
  }

  /** `getAuthorInitials(author)` of the archive block, the blog, the post page and the post
      preview: the capped initials of a non-empty name, else the upper-cased first character of
      the e-mail, else `'A'`. */
  function AuthorInitials(author: User): (r: string)
    ensures |r| <= 2
    ensures author.name != "" ==> r == Prefix(ToUpper(WordStarts(author.name, true)), 2)
    ensures author.name == "" && author.email != "" ==> r == [UpperChar(author.email[0])]
    ensures author.name == "" && author.email == "" ==> r == "A"
  {
    if author.name != "" then CappedInitials(author.name)
    else if author.email != "" then [UpperChar(author.email[0])]
    else "A"
  }

  /** The header's `getUserInitials(user)`: the capped initials of a non-empty name, else the
      upper-cased first e-mail character; with neither, `user.email[0].toUpperCase()` throws,
      which is `None`. */
  function UserInitials(user: User): (r: Option<string>)
    ensures r.None? <==> user.name == "" && user.email == ""
    ensures user.name != "" ==> r == Some(Prefix(ToUpper(WordStarts(user.name, true)), 2))
    ensures user.name == "" && user.email != "" ==> r == Some([UpperChar(user.email[0])])
  {
    if user.name != "" then Some(CappedInitials(user.name))
    else if user.email != "" then Some([UpperChar(user.email[0])])
    else None
  }

  /** Two single-word parts give their two upper-cased first letters, in order. */
  lemma TwoWords(first: string, second: string)
    requires first != "" && second != "" && ' ' !in first && ' ' !in second
    ensures CappedInitials(first + " " + second) == [UpperChar(first[0]), UpperChar(second[0])]
  {
    var s := first + " " + second;
    FirstCharsOfSplit(s);
    WordStartsConcat(first, second);
  }

  lemma WordStartsConcat(first: string, second: string)
    requires first != "" && second != "" && ' ' !in first && ' ' !in second
    ensures WordStarts(first + " " + second, true) == [first[0], second[0]]
  {
    assert first + " " + second == first + (" " + second);
    OneWord(first, " " + second);
    AfterSpace(second);
    OneWord(second, "");
    assert second + "" == second;
  }

  /** A word at a word start contributes its first letter and nothing more. */
  lemma OneWord(w: string, rest: string)
    requires w != "" && ' ' !in w
    ensures WordStarts(w + rest, true) == [w[0]] + WordStarts(rest, false)
  {
    assert w[0] in w;
    assert (w + rest)[1..] == w[1..] + rest;
    assert ' ' !in w[1..] by {
      assert forall c :: c in w[1..] ==> c in w;
    }
    SkipWord(w[1..], rest);
  }

  /** A space makes the next character a word start. */
  lemma AfterSpace(s: string)
    ensures WordStarts(" " + s, false) == WordStarts(s, true)
  {
    assert (" " + s)[1..] == s;
  }

  /** Inside a word no character starts a word. */
  lemma {:induction false} SkipWord(w: string, rest: string)
    requires ' ' !in w
    ensures WordStarts(w + rest, false) == WordStarts(rest, false)
    decreases |w|
  {
    if w != [] {
      assert w[0] in w;
      assert (w + rest)[0] == w[0] && (w + rest)[1..] == w[1..] + rest;
      assert ' ' !in w[1..] by {
        assert forall c :: c in w[1..] ==> c in w;
      }
      SkipWord(w[1..], rest);
    } else {
      assert w + rest == rest;
    }
  }
}
