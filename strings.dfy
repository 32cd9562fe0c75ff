/** The JavaScript string operations the application is built from: `trim`, `split` on one
    character, `split(/\s+/)`, `join`, `startsWith`, ASCII `toUpperCase` and the decimal form
    of an integer. A string is a sequence of Unicode scalar values. */
module Strings {

  /** The WhiteSpace and LineTerminator code points of ECMA-262 (sections 12.2 and 12.3): the
      characters `String.prototype.trim` strips and the regular-expression class `\s` matches. */
  predicate IsSpace(c: char) {
    || c == ' ' || c == '\t' || c == '\n' || c == '\r' || c == '\U{000B}' || c == '\U{000C}'
    || c == '\U{00A0}' || c == '\U{1680}' || ('\U{2000}' <= c <= '\U{200A}')
    || c == '\U{2028}' || c == '\U{2029}' || c == '\U{202F}' || c == '\U{205F}'
    || c == '\U{3000}' || c == '\U{FEFF}'
  }

  predicate AllSpace(s: string) {
    forall i :: 0 <= i < |s| ==> IsSpace(s[i])
  }

  predicate NoSpace(s: string) {
    forall i :: 0 <= i < |s| ==> !IsSpace(s[i])
  }

  predicate StartsWith(s: string, prefix: string) {
    |prefix| <= |s| && s[..|prefix|] == prefix
  }

  predicate EndsWith(s: string, suffix: string) {
    |suffix| <= |s| && s[|s| - |suffix|..] == suffix
  }

  /** `s` with its leading whitespace removed. */
  function TrimStart(s: string): (r: string)
    ensures |r| <= |s| && r == s[|s| - |r|..]
    ensures forall i :: 0 <= i < |s| - |r| ==> IsSpace(s[i])
    ensures r == [] || !IsSpace(r[0])
    decreases |s|
  {
    if s == [] || !IsSpace(s[0]) then s else TrimStart(s[1..])
  }

  /** `s` with its trailing whitespace removed. */
  function TrimEnd(s: string): (r: string)
    ensures |r| <= |s| && r == s[..|r|]
    ensures forall i :: |r| <= i < |s| ==> IsSpace(s[i])
    ensures r == [] || !IsSpace(r[|r| - 1])
    decreases |s|
  {
    if s == [] || !IsSpace(s[|s| - 1]) then s else TrimEnd(s[..|s| - 1])
  }

  /** `String.prototype.trim`. */
  function Trim(s: string): (r: string)
    ensures r == [] || (!IsSpace(r[0]) && !IsSpace(r[|r| - 1]))
  {
    TrimEnd(TrimStart(s))
  }

  /** A string of whitespace only trims to the empty string, and no other string does. */
  lemma TrimEmptyIff(s: string)
    ensures Trim(s) == [] <==> AllSpace(s)
  {
    var t := TrimStart(s);
    if Trim(s) == [] {
      assert t == [];
    } else {
      assert t != [];
      assert !IsSpace(s[|s| - |t|]);
    }
  }

  /** `s.split(sep)` for a one-character separator: the pieces between the separators. */
  function Split(s: string, sep: char): (parts: seq<string>)
    ensures |parts| >= 1
    ensures forall i :: 0 <= i < |parts| ==> sep !in parts[i]
    decreases |s|
  {
    if s == [] then [""]
    else
      var rest := Split(s[1..], sep);
      if s[0] == sep then [""] + rest
      else [[s[0]] + rest[0]] + rest[1..]
  }

  /** `parts.join(sep)`. */
  function Join(parts: seq<string>, sep: string): string
    decreases |parts|
  {
    if |parts| == 0 then ""
    else if |parts| == 1 then parts[0]
    else parts[0] + sep + Join(parts[1..], sep)
  }

  /** The concatenation of `parts`, which is `parts.join('')`. */
  function Concat(parts: seq<string>): string
    decreases |parts|
  {
    if parts == [] then "" else parts[0] + Concat(parts[1..])
  }

  lemma {:induction false} ConcatAppend(a: seq<string>, b: seq<string>)
    ensures Concat(a + b) == Concat(a) + Concat(b)
    decreases |a|
  {
    if a != [] {
      assert (a + b)[0] == a[0];
      assert (a + b)[1..] == a[1..] + b;
      ConcatAppend(a[1..], b);
      calc {
        Concat(a + b);
        a[0] + Concat(a[1..] + b);
        a[0] + (Concat(a[1..]) + Concat(b));
        (a[0] + Concat(a[1..])) + Concat(b);
      }
    } else {
      assert a + b == b;
    }
  }

  /** Joining the pieces of a split with the separator gives the original string back. */
  lemma {:induction false} JoinSplit(s: string, sep: char)
    ensures Join(Split(s, sep), [sep]) == s
    decreases |s|
  {
    if s != [] {
      var rest := Split(s[1..], sep);
      JoinSplit(s[1..], sep);
      if s[0] == sep {
        assert ([""] + rest)[1..] == rest;
      } else if |rest| == 1 {
        assert Split(s, sep) == [[s[0]] + rest[0]];
      } else {
        var parts := Split(s, sep);
        assert parts[1..] == rest[1..];
        assert Join(rest, [sep]) == rest[0] + [sep] + Join(rest[1..], [sep]);
      }
    }
  }

  /** Splitting a join of separator-free pieces gives the pieces back. */
  lemma {:induction false} SplitJoin(parts: seq<string>, sep: char)
    requires |parts| >= 1
    requires forall i :: 0 <= i < |parts| ==> sep !in parts[i]
    ensures Split(Join(parts, [sep]), sep) == parts
    decreases |parts|
  {
    if |parts| == 1 {
      SplitNoSep(parts[0], sep);
    } else {
      SplitJoin(parts[1..], sep);
      SplitPiece(parts[0], Join(parts[1..], [sep]), sep);
      assert [parts[0]] + parts[1..] == parts;
    }
  }

  /** A separator-free piece followed by the separator is the first piece of the split. */
  lemma {:induction false} SplitPiece(a: string, b: string, sep: char)
    requires sep !in a
    ensures Split(a + [sep] + b, sep) == [a] + Split(b, sep)
    decreases |a|
  {
    var s := a + [sep] + b;
    if a == [] {
      assert s[1..] == b;
    } else {
      assert s[1..] == a[1..] + [sep] + b;
      SplitPiece(a[1..], b, sep);
      assert [a[0]] + a[1..] == a;
    }
  }

  /** Appending the separator to a string opens a new, empty piece. */
  lemma {:induction false} SplitSnocSep(s: string, sep: char)
    ensures Split(s + [sep], sep) == Split(s, sep) + [""]
    decreases |s|
  {
    var t := s + [sep];
    if s == [] {
      assert t[1..] == [];
    } else {
      assert t[0] == s[0] && t[1..] == s[1..] + [sep];
      SplitSnocSep(s[1..], sep);
      var rest := Split(s[1..], sep);
      if s[0] != sep {
        assert (rest + [""])[1..] == rest[1..] + [""];
      }
    }
  }

  /** Appending any other character to a string extends its last piece. */
  lemma {:induction false} SplitSnocOther(s: string, c: char, sep: char)
    requires c != sep
    ensures SnocExtendsLast(s, c, sep)
    decreases |s|
  {
    if s == [] {
      var t := s + [c];
      assert t == [c] && t[1..] == [];
      assert Split(t, sep) == [[c] + ""];
      assert "" + [c] == [c] + "";
    } else {
      SplitSnocOther(s[1..], c, sep);
      if s[0] == sep {
        SnocAfterSep(s, c, sep);
      } else {
        SnocAfterOther(s, c, sep);
      }
    }
  }

  /** The split of `s + [c]` is that of `s` with `c` added to the last piece. */
  predicate SnocExtendsLast(s: string, c: char, sep: char) {
    var p := Split(s, sep);
    Split(s + [c], sep) == p[..|p| - 1] + [p[|p| - 1] + [c]]
  }

  lemma SnocAfterSep(s: string, c: char, sep: char)
    requires s != [] && s[0] == sep && c != sep
    requires SnocExtendsLast(s[1..], c, sep)
    ensures SnocExtendsLast(s, c, sep)
  {
    var t := s + [c];
    assert t[0] == s[0] && t[1..] == s[1..] + [c];
    var rest, rest' := Split(s[1..], sep), Split(t[1..], sep);
    var p, n := Split(s, sep), |rest|;
    assert rest' == rest[..n - 1] + [rest[n - 1] + [c]];
    assert p[..|p| - 1] == [""] + rest[..n - 1];
  }

  lemma SnocAfterOther(s: string, c: char, sep: char)
    requires s != [] && s[0] != sep && c != sep
    requires SnocExtendsLast(s[1..], c, sep)
    ensures SnocExtendsLast(s, c, sep)
  {
    var t := s + [c];
    assert t[0] == s[0] && t[1..] == s[1..] + [c];
    var rest, rest' := Split(s[1..], sep), Split(t[1..], sep);
    var p, n := Split(s, sep), |rest|;
    assert rest' == rest[..n - 1] + [rest[n - 1] + [c]];
    if n == 1 {
      assert p == [[s[0]] + rest[0]];
      assert [t[0]] + rest'[0] == p[0] + [c];
    } else {
      assert rest'[0] == rest[0];
      assert rest'[1..] == rest[1..n - 1] + [rest[n - 1] + [c]];
      assert p[..|p| - 1] == [[s[0]] + rest[0]] + rest[1..n - 1];
    }
  }

  /** The part of `s` before its last occurrence of `sep`, or "" when there is none. */
  function BeforeLast(s: string, sep: char): (r: string)
    ensures sep !in s ==> r == ""
    ensures sep in s ==> |r| < |s| && r == s[..|r|] && s[|r|] == sep && sep !in s[|r| + 1..]
    decreases |s|
  {
    if s == [] then ""
    else if s[|s| - 1] == sep then s[..|s| - 1]
    else
      assert s == s[..|s| - 1] + [s[|s| - 1]];
      BeforeLast(s[..|s| - 1], sep)
  }

  /** `const parts = s.split(sep); parts.pop(); parts.join(sep)` gives what comes before the
      last separator. */
  lemma {:induction false} JoinSplitDropLast(s: string, sep: char)
    ensures var p := Split(s, sep); Join(p[..|p| - 1], [sep]) == BeforeLast(s, sep)
    decreases |s|
  {
    if s != [] {
      var s' := s[..|s| - 1];
      var c := s[|s| - 1];
      assert s == s' + [c];
      var p' := Split(s', sep);
      var p := Split(s, sep);
      if c == sep {
        SplitSnocSep(s', sep);
        assert p[..|p| - 1] == p';
        JoinSplit(s', sep);
      } else {
        SplitSnocOther(s', c, sep);
        assert p[..|p| - 1] == p'[..|p'| - 1];
        JoinSplitDropLast(s', sep);
      }
    }
  }

  /** The part of `s` after its last occurrence of `sep`, or all of `s` when there is none. */
  function AfterLast(s: string, sep: char): (r: string)
    ensures |r| <= |s| && r == s[|s| - |r|..]
    ensures sep !in r
    decreases |s|
  {
    if s == [] then ""
    else if s[|s| - 1] == sep then ""
    else
      var s' := s[..|s| - 1];
      var r' := AfterLast(s', sep);
      assert s[|s| - |r'| - 1..] == r' + [s[|s| - 1]];
      r' + [s[|s| - 1]]
  }

  /** `s` is what comes before its last separator, the separator, and what comes after it;
      without a separator, all of `s` comes after. */
  lemma {:induction false} BeforeAndAfterLast(s: string, sep: char)
    ensures sep !in s ==> AfterLast(s, sep) == s
    ensures sep in s ==> s == BeforeLast(s, sep) + [sep] + AfterLast(s, sep)
    decreases |s|
  {
    if s != [] {
      var s', c := s[..|s| - 1], s[|s| - 1];
      assert s == s' + [c];
      if c == sep {
        assert AfterLast(s, sep) == "" && BeforeLast(s, sep) == s';
        assert s == s' + [sep] + "";
      } else {
        BeforeAndAfterLast(s', sep);
        LastOfSnoc(s', c, sep);
      }
    }
  }

  /** A character other than the separator added at the end extends what follows the last
      separator and leaves what precedes it. */
  lemma LastOfSnoc(s: string, c: char, sep: char)
    requires c != sep
    requires sep !in s ==> AfterLast(s, sep) == s
    requires sep in s ==> s == BeforeLast(s, sep) + [sep] + AfterLast(s, sep)
    ensures sep !in s + [c] ==> AfterLast(s + [c], sep) == s + [c]
    ensures sep in s + [c] ==> s + [c] == BeforeLast(s + [c], sep) + [sep] + AfterLast(s + [c], sep)
  {
    var t := s + [c];
    assert t[..|t| - 1] == s && t[|t| - 1] == c;
    var r := AfterLast(s, sep);
    assert AfterLast(t, sep) == r + [c];
    assert (sep in t) == (sep in s);
    if sep in s {
      var b := BeforeLast(s, sep);
      assert BeforeLast(t, sep) == b;
      assert t == (b + [sep] + r) + [c] == b + [sep] + (r + [c]);
    }
  }

  /** The last piece of a split is what follows the last separator. */
  lemma {:induction false} LastOfSplit(s: string, sep: char)
    ensures var p := Split(s, sep); p[|p| - 1] == AfterLast(s, sep)
    decreases |s|
  {
    if s != [] {
      var s' := s[..|s| - 1];
      var c := s[|s| - 1];
      assert s == s' + [c];
      if c == sep {
        SplitSnocSep(s', sep);
      } else {
        SplitSnocOther(s', c, sep);
        LastOfSplit(s', sep);
      }
    }
  }

  lemma {:induction false} SplitNoSep(s: string, sep: char)
    requires sep !in s
    ensures Split(s, sep) == [s]
    decreases |s|
  {
    if s != [] {
      assert sep !in s[1..] by {
        assert forall c :: c in s[1..] ==> c in s;
      }
      SplitNoSep(s[1..], sep);
      assert s[0] != sep;
      assert [s[0]] + s[1..] == s;
    }
  }

  /** The maximal runs of non-whitespace characters of `t`, in order. */
  function Words(t: string): (ws: seq<string>)
    ensures forall i :: 0 <= i < |ws| ==> ws[i] != [] && NoSpace(ws[i])
    ensures t != [] && !IsSpace(t[0]) ==> |ws| > 0
    decreases |t|
  {
    if t == [] then []
    else
      var rest := Words(t[1..]);
      if IsSpace(t[0]) then rest
      else if |t| > 1 && !IsSpace(t[1]) then [[t[0]] + rest[0]] + rest[1..]
      else [[t[0]]] + rest
  }

  /** `s.trim().split(/\s+/)`: the words of `s`, or `[""]` when `s` holds no word (the only
      case in which the split of a trimmed string yields an empty piece). */
  function SplitWords(s: string): (ws: seq<string>)
    ensures |ws| >= 1
  {
    var words := Words(Trim(s));
    if words == [] then [""] else words
  }

  /** Whitespace in front of a string does not change its words. */
  lemma {:induction false} WordsSkipSpace(sp: string, t: string)
    requires AllSpace(sp)
    ensures Words(sp + t) == Words(t)
    decreases |sp|
  {
    if sp != [] {
      assert (sp + t)[0] == sp[0] && IsSpace(sp[0]);
      assert (sp + t)[1..] == sp[1..] + t;
      WordsSkipSpace(sp[1..], t);
    } else {
      assert sp + t == t;
    }
  }

  /** A word followed by whitespace (or nothing) is the first word. */
  lemma {:induction false} WordsPrefix(w: string, rest: string)
    requires w != [] && NoSpace(w)
    requires rest == [] || IsSpace(rest[0])
    ensures Words(w + rest) == [w] + Words(rest)
    decreases |w|
  {
    var t := w + rest;
    assert t[0] == w[0] && t[1..] == w[1..] + rest;
    if |w| == 1 {
      assert t[1..] == rest;
      assert [t[0]] == w;
    } else {
      assert t[1] == w[1];
      WordsPrefix(w[1..], rest);
      assert [w[0]] + w[1..] == w;
    }
  }

  /** Joining non-empty words that hold no whitespace with single spaces and splitting the
      result gives the same words back. */
  lemma {:induction false} WordsOfJoin(ws: seq<string>)
    requires forall i :: 0 <= i < |ws| ==> ws[i] != [] && NoSpace(ws[i])
    ensures Words(Join(ws, " ")) == ws
    decreases |ws|
  {
    if |ws| == 1 {
      WordsPrefix(ws[0], "");
      assert ws[0] + "" == ws[0];
    } else if |ws| > 1 {
      var tail := Join(ws[1..], " ");
      WordsOfJoin(ws[1..]);
      WordsPrefix(ws[0], " " + tail);
      assert ws[0] + " " + tail == ws[0] + (" " + tail);
      WordsSkipSpace(" ", tail);
      assert [ws[0]] + ws[1..] == ws;
    }
  }

  /** The words of each string, one list after the other. */
  function WordsOfAll(ts: seq<string>): seq<string>
    decreases |ts|
  {
    if ts == [] then [] else Words(ts[0]) + WordsOfAll(ts[1..])
  }

  lemma {:induction false} WordsOfAllAppend(a: seq<string>, b: seq<string>)
    ensures WordsOfAll(a + b) == WordsOfAll(a) + WordsOfAll(b)
    decreases |a|
  {
    if a == [] {
      assert a + b == b;
    } else {
      assert (a + b)[0] == a[0] && (a + b)[1..] == a[1..] + b;
      WordsOfAllAppend(a[1..], b);
    }
  }

  /** A whitespace character between two strings separates their words: no word spans it. */
  lemma {:induction false} WordsAroundSpace(a: string, c: char, b: string)
    requires IsSpace(c)
    ensures Words(a + [c] + b) == Words(a) + Words(b)
    decreases |a|
  {
    var t := a + [c] + b;
    if a == [] {
      assert t == [c] + b;
      WordsSkipSpace([c], b);
    } else {
      var a' := a[1..];
      assert t[0] == a[0] && t[1..] == a' + [c] + b;
      WordsAroundSpace(a', c, b);
      if IsSpace(a[0]) {
      } else if a' != [] && !IsSpace(a'[0]) {
        assert t[1] == a'[0] && a[1] == a'[0];
      } else if a' == [] {
        assert t[1] == c;
        assert Words(a) == [[a[0]]] + Words(a');
      } else {
        assert t[1] == a'[0] && a[1] == a'[0];
      }
    }
  }

  /** Leading whitespace does not change the words. */
  lemma {:induction false} WordsTrimStart(s: string)
    ensures Words(TrimStart(s)) == Words(s)
    decreases |s|
  {
    if s != [] && IsSpace(s[0]) {
      WordsTrimStart(s[1..]);
    }
  }

  /** Trailing whitespace does not change the words. */
  lemma {:induction false} WordsTrimEnd(t: string)
    ensures Words(TrimEnd(t)) == Words(t)
    decreases |t|
  {
    if t != [] && IsSpace(t[|t| - 1]) {
      var e := t[..|t| - 1];
      WordsTrimEnd(e);
      assert t == e + [t[|t| - 1]] + [];
      WordsAroundSpace(e, t[|t| - 1], []);
    }
  }

  /** Trimming a string does not change its words. */
  lemma WordsTrim(s: string)
    ensures Words(Trim(s)) == Words(s)
  {
    WordsTrimStart(s);
    WordsTrimEnd(TrimStart(s));
  }

  /** The words of strings joined by single spaces are the words of each string in turn,
      however many spaces or empty strings sit between them. */
  lemma {:induction false} WordsOfJoinAll(ts: seq<string>)
    ensures Words(Join(ts, " ")) == WordsOfAll(ts)
    decreases |ts|
  {
    if |ts| == 1 {
      assert WordsOfAll(ts[1..]) == [];
    } else if |ts| > 1 {
      WordsOfJoinAll(ts[1..]);
      WordsAroundSpace(ts[0], ' ', Join(ts[1..], " "));
    }
  }

  /** Joining two non-empty lists puts one separator between their joins. */
  lemma {:induction false} JoinAppend(a: seq<string>, b: seq<string>, sep: string)
    requires a != [] && b != []
    ensures Join(a + b, sep) == Join(a, sep) + sep + Join(b, sep)
    decreases |a|
  {
    assert (a + b)[0] == a[0];
    if |a| == 1 {
      assert (a + b)[1..] == b;
    } else {
      assert (a + b)[1..] == a[1..] + b;
      JoinAppend(a[1..], b, sep);
    }
  }

  /** ASCII upper-casing of one character. */
  function UpperChar(c: char): (u: char)
    ensures 'a' <= c <= 'z' ==> u as int == c as int - 32
    ensures !('a' <= c <= 'z') ==> u == c
  {
    if 'a' <= c <= 'z' then (c as int - 32) as char else c
  }

  /** `s.toUpperCase()` restricted to the ASCII letters. */
  function ToUpper(s: string): (r: string)
    ensures |r| == |s|
    ensures forall i :: 0 <= i < |s| ==> r[i] == UpperChar(s[i])
  {
    seq(|s|, i requires 0 <= i < |s| => UpperChar(s[i]))
  }

  lemma ToUpperAppend(a: string, b: string)
    ensures ToUpper(a + b) == ToUpper(a) + ToUpper(b)
  {
    assert forall i :: 0 <= i < |a + b| ==> ToUpper(a + b)[i] == (ToUpper(a) + ToUpper(b))[i];
  }

  /** `s.slice(0, n)` (and `s.substring(0, n)`) for a non-negative `n`. */
  function Prefix(s: string, n: nat): (r: string)
    ensures |r| == if n <= |s| then n else |s|
    ensures r == s[..|r|]
  {
    if n <= |s| then s[..n] else s
  }

  function DigitChar(d: nat): (c: char)
    requires d < 10
    ensures '0' <= c <= '9' && DigitValue(c) == d
  {
    ('0' as int + d) as char
  }

  function DigitValue(c: char): nat {
    if '0' <= c <= '9' then c as int - '0' as int else 0
  }

  /** The decimal form of a natural number, which is what JavaScript prints for an integer
      below 10^21. */
  function NatToString(n: nat): (r: string)
    ensures |r| >= 1
    ensures r[0] != '0' || n == 0
    ensures '0' <= r[0] <= '9'
    decreases n
  {
    if n < 10 then [DigitChar(n)] else NatToString(n / 10) + [DigitChar(n % 10)]
  }

  /** The decimal form of an integer, with a leading '-' when it is negative. */
  function IntToString(i: int): (r: string)
    ensures |r| >= 1
  {
    if i < 0 then "-" + NatToString(-i) else NatToString(i)
  }

  /** The value of a string of decimal digits, read left to right. */
  function ParseDecimal(s: string): nat
    decreases |s|
  {
    if s == [] then 0 else ParseDecimal(s[..|s| - 1]) * 10 + DigitValue(s[|s| - 1])
  }

  /** Reading back the decimal form of a number gives the number. */
  lemma {:induction false} ParseNatToString(n: nat)
    ensures ParseDecimal(NatToString(n)) == n
    decreases n
  {
    if n < 10 {
      assert [DigitChar(n)][..0] == [];
    } else {
      var r, q := NatToString(n), NatToString(n / 10);
      assert r == q + [DigitChar(n % 10)];
      assert r[..|r| - 1] == q && r[|r| - 1] == DigitChar(n % 10);
      ParseNatToString(n / 10);
    }
  }

  /** Words joined by single spaces have no whitespace at either end. */
  lemma JoinedWordsTrimmed(ws: seq<string>)
    requires |ws| > 0
    requires forall i :: 0 <= i < |ws| ==> ws[i] != [] && NoSpace(ws[i])
    ensures Trim(Join(ws, " ")) == Join(ws, " ")
    decreases |ws|
  {
    var j := Join(ws, " ");
    JoinEnds(ws);
    assert TrimStart(j) == j;
    assert TrimEnd(j) == j;
  }

  /** The first character of a join is that of its first piece, and the last that of its
      last piece. */
  lemma {:induction false} JoinEnds(ws: seq<string>)
    requires |ws| > 0
    requires forall i :: 0 <= i < |ws| ==> ws[i] != [] && NoSpace(ws[i])
    ensures var j := Join(ws, " "); j != [] && !IsSpace(j[0]) && !IsSpace(j[|j| - 1])
    decreases |ws|
  {
    if |ws| > 1 {
      JoinEnds(ws[1..]);
      var tail := Join(ws[1..], " ");
      var j := ws[0] + " " + tail;
      assert j[0] == ws[0][0];
      assert j[|j| - 1] == tail[|tail| - 1];
    } else {
      assert Join(ws, " ") == ws[0];
    }
  }

  /** At least two pieces from `SplitWords` are all proper words. */
  lemma SplitWordsAreWords(s: string)
    requires |SplitWords(s)| > 1
    ensures var ws := SplitWords(s);
      forall i :: 0 <= i < |ws| ==> ws[i] != [] && NoSpace(ws[i])
  {
    assert SplitWords(s) == Words(Trim(s));
  }

  /** Splitting words joined by single spaces gives the words back. */
  lemma SplitWordsOfJoin(ws: seq<string>)
    requires |ws| > 0
    requires forall i :: 0 <= i < |ws| ==> ws[i] != [] && NoSpace(ws[i])
    ensures SplitWords(Join(ws, " ")) == ws
  {
    JoinedWordsTrimmed(ws);
    WordsOfJoin(ws);
  }
}
