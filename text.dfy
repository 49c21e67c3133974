/** The Python string operations the core relies on (`strip`, `split`, `join`,
    slicing, `startswith`, integer formatting), written out over `seq<char>`. */
module Text {

  /** Python's `str.isspace()` for one character. */
  predicate IsSpace(c: char)
  {
    || c == ' '
    || ('\t' <= c <= '\r')
    || ('\U{001C}' <= c <= '\U{001F}')
    || c == '\U{0085}' || c == '\U{00A0}' || c == '\U{1680}'
    || ('\U{2000}' <= c <= '\U{200A}')
    || c == '\U{2028}' || c == '\U{2029}' || c == '\U{202F}' || c == '\U{205F}' || c == '\U{3000}'
  }

  /** Every character is whitespace (the empty string included). */
  predicate IsBlank(s: string)
  {
    forall i :: 0 <= i < |s| ==> IsSpace(s[i])
  }

  /** No character is whitespace. */
  predicate NoSpace(s: string)
  {
    forall i :: 0 <= i < |s| ==> !IsSpace(s[i])
  }

  /** Neither end is whitespace: what `strip()` leaves. */
  predicate IsStripped(s: string)
  {
    s == [] || (!IsSpace(s[0]) && !IsSpace(s[|s| - 1]))
  }

  /** Python's `str.lstrip()`: a suffix of the input that does not start
      with whitespace. */
  function TrimStart(s: string): (r: string)
    ensures |r| <= |s|
    ensures r == [] || !IsSpace(r[0])
  {
    if s != [] && IsSpace(s[0]) then TrimStart(s[1..]) else s
  }

  /** What `lstrip()` keeps is a suffix of its input. */
  lemma {:induction false} TrimStartSuffix(s: string)
    ensures TrimStart(s) == s[|s| - |TrimStart(s)|..]
  {
    if s != [] && IsSpace(s[0]) {
      TrimStartSuffix(s[1..]);
      assert s[1..][|s| - 1 - |TrimStart(s)|..] == s[|s| - |TrimStart(s)|..];
    }
  }

  /** What `lstrip()` removes is whitespace. */
  lemma {:induction false} TrimStartRemovesSpace(s: string)
    ensures forall i :: 0 <= i < |s| - |TrimStart(s)| ==> IsSpace(s[i])
  {
    if s != [] && IsSpace(s[0]) {
      TrimStartRemovesSpace(s[1..]);
      assert forall i :: 1 <= i < |s| - |TrimStart(s)| ==> s[i] == s[1..][i - 1];
    }
  }

  /** Python's `str.rstrip()`: a prefix of the input that does not end
      with whitespace. */
  function TrimEnd(s: string): (r: string)
    ensures |r| <= |s|
    ensures r == [] || !IsSpace(r[|r| - 1])
  {
    if s != [] && IsSpace(s[|s| - 1]) then TrimEnd(s[..|s| - 1]) else s
  }

  /** What `rstrip()` keeps is a prefix of its input. */
  lemma {:induction false} TrimEndPrefix(s: string)
    ensures TrimEnd(s) == s[..|TrimEnd(s)|]
  {
    if s != [] && IsSpace(s[|s| - 1]) {
      TrimEndPrefix(s[..|s| - 1]);
      assert s[..|s| - 1][..|TrimEnd(s)|] == s[..|TrimEnd(s)|];
    }
  }

  /** What `rstrip()` removes is whitespace. */
  lemma {:induction false} TrimEndRemovesSpace(s: string)
    ensures forall i :: |TrimEnd(s)| <= i < |s| ==> IsSpace(s[i])
  {
    if s != [] && IsSpace(s[|s| - 1]) {
      TrimEndRemovesSpace(s[..|s| - 1]);
    }
  }

  /** `lstrip()` of a blank string is empty. */
  lemma {:induction false} TrimStartBlank(s: string)
    requires IsBlank(s)
    ensures TrimStart(s) == []
  {
    if s != [] {
      assert forall i :: 0 <= i < |s| - 1 ==> s[1..][i] == s[i + 1];
      TrimStartBlank(s[1..]);
    }
  }

  /** When both trims leave nothing, every character was whitespace. */
  lemma TrimBothEmpty(s: string)
    requires TrimEnd(TrimStart(s)) == []
    ensures IsBlank(s)
  {
    var t := TrimStart(s);
    TrimStartRemovesSpace(s);
    TrimEndRemovesSpace(t);
    assert t == [];
  }

  /** Python's `str.strip()`: the result is empty exactly when the input is
      blank, and otherwise neither of its ends is whitespace. */
  function Strip(s: string): (r: string)
    ensures r == [] <==> IsBlank(s)
    ensures IsStripped(r)
  {
    if IsBlank(s) then TrimStartBlank(s); TrimEnd(TrimStart(s))
    else if TrimEnd(TrimStart(s)) == [] then TrimBothEmpty(s); []
    else TrimEndPrefix(TrimStart(s)); TrimEnd(TrimStart(s))
  }

  /** Stripping a string that has no whitespace at either end changes nothing. */
  lemma StripStripped(s: string)
    requires IsStripped(s)
    ensures Strip(s) == s
  {
  }

  /** Stripping never adds a character. */
  lemma StripKeeps(s: string, c: char)
    ensures c in Strip(s) ==> c in s
  {
    var t := TrimStart(s);
    TrimStartSuffix(s);
    assert forall i :: 0 <= i < |t| ==> t[i] == s[|s| - |t| + i];
    var r := TrimEnd(t);
    TrimEndPrefix(t);
    assert forall i :: 0 <= i < |r| ==> r[i] == t[i];
  }

  /** Python's `s.startswith(p)`. */
  predicate StartsWith(s: string, p: string)
  {
    |p| <= |s| && s[..|p|] == p
  }

  /** Python's `s[:n]` for a non-negative `n`. */
  function Take<T>(s: seq<T>, n: nat): (r: seq<T>)
    ensures |r| == if n <= |s| then n else |s|
    ensures r == s[..|r|]
  {
    if n <= |s| then s[..n] else s
  }

  /** Python's `s.split(sep)` for a one-character separator: the pieces
      between separators, at least one of them, none holding `sep`. */
  function SplitOn(s: string, sep: char): (parts: seq<string>)
    ensures |parts| >= 1
    ensures forall k :: 0 <= k < |parts| ==> sep !in parts[k]
  {
    if s == [] then [""]
    else
      var rest := SplitOn(s[1..], sep);
      if s[0] == sep then [""] + rest else [[s[0]] + rest[0]] + rest[1..]
  }

  /** Extending a prefix by one piece extends its concatenation by that piece. */
  lemma ConcatPrefixStep(xs: seq<string>, i: nat)
    requires i < |xs|
    ensures Concat(xs[..i + 1]) == Concat(xs[..i]) + xs[i]
  {
    ConcatAppend(xs[..i], [xs[i]]);
    assert xs[..i + 1] == xs[..i] + [xs[i]];
    assert Concat([xs[i]]) == xs[i];
  }

  /** Python's `sep.join(parts)`. */
  function JoinWith(sep: string, parts: seq<string>): string
  {
    if parts == [] then ""
    else if |parts| == 1 then parts[0]
    else parts[0] + sep + JoinWith(sep, parts[1..])
  }

  /** Python's `"".join(parts)`. */
  function Concat(parts: seq<string>): string
  {
    if parts == [] then "" else parts[0] + Concat(parts[1..])
  }

  lemma {:induction false} ConcatAppend(a: seq<string>, b: seq<string>)
    ensures Concat(a + b) == Concat(a) + Concat(b)
  {
    if a != [] {
      assert (a + b)[0] == a[0] && (a + b)[1..] == a[1..] + b;
      ConcatAppend(a[1..], b);
    } else {
      assert a + b == b;
    }
  }

  lemma JoinConsHead(sep: string, c: char, parts: seq<string>)
    requires |parts| >= 1
    ensures JoinWith(sep, [[c] + parts[0]] + parts[1..]) == [c] + JoinWith(sep, parts)
  {
    var ps := [[c] + parts[0]] + parts[1..];
    if |parts| > 1 {
      assert ps[1..] == parts[1..];
    }
  }

  /** Joining the pieces of a split with the separator gives back the text. */
  lemma {:induction false} JoinSplit(s: string, sep: char)
    ensures JoinWith([sep], SplitOn(s, sep)) == s
  {
    if s != [] {
      JoinSplit(s[1..], sep);
      var rest := SplitOn(s[1..], sep);
      if s[0] == sep {
        assert ([""] + rest)[1..] == rest;
      } else {
        JoinConsHead([sep], s[0], rest);
        assert [rest[0]] + rest[1..] == rest;
      }
    }
  }

  lemma {:induction false} SplitNoSep(x: string, sep: char)
    requires sep !in x
    ensures SplitOn(x, sep) == [x]
  {
    if x != [] {
      assert x == [x[0]] + x[1..];
      SplitNoSep(x[1..], sep);
    }
  }

  lemma {:induction false} SplitAtSep(x: string, rest: string, sep: char)
    requires sep !in x
    ensures SplitOn(x + [sep] + rest, sep) == [x] + SplitOn(rest, sep)
  {
    var s := x + [sep] + rest;
    if x == [] {
      assert s[1..] == rest;
    } else {
      assert s[1..] == x[1..] + [sep] + rest;
      SplitAtSep(x[1..], rest, sep);
      assert [x[0]] + x[1..] == x;
    }
  }

  /** Splitting pieces that were joined with a separator none of them holds
      gives back the pieces. */
  lemma {:induction false} SplitJoin(parts: seq<string>, sep: char)
    requires |parts| >= 1
    requires forall k :: 0 <= k < |parts| ==> sep !in parts[k]
    ensures SplitOn(JoinWith([sep], parts), sep) == parts
  {
    if |parts| == 1 {
      SplitNoSep(parts[0], sep);
    } else {
      SplitJoin(parts[1..], sep);
      SplitAtSep(parts[0], JoinWith([sep], parts[1..]), sep);
      assert [parts[0]] + parts[1..] == parts;
    }
  }

  /** A joined sequence of pieces starts with the first piece and ends with the last one. */
  lemma {:induction false} JoinEnds(sep: string, parts: seq<string>)
    requires |parts| >= 1
    ensures |JoinWith(sep, parts)| >= |parts[0]| && JoinWith(sep, parts)[..|parts[0]|] == parts[0]
    ensures |JoinWith(sep, parts)| >= |Last(parts)|
    ensures JoinWith(sep, parts)[|JoinWith(sep, parts)| - |Last(parts)|..] == Last(parts)
  {
    if |parts| > 1 {
      JoinEnds(sep, parts[1..]);
      assert Last(parts[1..]) == Last(parts);
      var j := JoinWith(sep, parts[1..]);
      assert JoinWith(sep, parts) == parts[0] + sep + j;
      assert (parts[0] + sep + j)[|parts[0] + sep + j| - |Last(parts)|..] == j[|j| - |Last(parts)|..];
    }
  }

  /** Each piece followed by a line break, all concatenated. */
  function Lines(xs: seq<string>): string
  {
    if xs == [] then "" else xs[0] + "\n" + Lines(xs[1..])
  }

  /** Adding one more piece adds its line at the end. */
  lemma {:induction false} LinesAppend(xs: seq<string>, x: string)
    ensures Lines(xs + [x]) == Lines(xs) + x + "\n"
  {
    if xs != [] {
      assert (xs + [x])[1..] == xs[1..] + [x];
      LinesAppend(xs[1..], x);
    } else {
      assert Lines([x]) == x + "\n" + Lines([]);
    }
  }

  /** Appending the next line and its break to a prefix of the lines. */
  lemma LinesStep(head: string, xs: seq<string>, i: nat)
    requires i < |xs|
    ensures head + Lines(xs[..i]) + xs[i] + "\n" == head + Lines(xs[..i + 1])
  {
    assert xs[..i + 1] == xs[..i] + [xs[i]];
    LinesAppend(xs[..i], xs[i]);
  }

  /** Terminated lines are the pieces joined by line breaks, plus an empty last piece. */
  lemma {:induction false} LinesAsJoin(xs: seq<string>)
    ensures Lines(xs) == JoinWith("\n", xs + [""])
  {
    if xs != [] {
      LinesAsJoin(xs[1..]);
      assert (xs + [""])[1..] == xs[1..] + [""];
    }
  }

  /** Splitting terminated lines on line breaks gives the pieces back, then
      the empty text after the last break. */
  lemma LinesSplit(xs: seq<string>)
    requires forall k :: 0 <= k < |xs| ==> '\n' !in xs[k]
    ensures SplitOn(Lines(xs), '\n') == xs + [""]
  {
    LinesAsJoin(xs);
    SplitJoin(xs + [""], '\n');
  }

  /** Python's `s[-1]`. */
  function Last<T>(s: seq<T>): T
    requires s != []
  {
    s[|s| - 1]
  }

  /** The length of the run of non-whitespace characters `s` starts with. */
  function WordLen(s: string): (n: nat)
    ensures n <= |s|
    ensures forall i :: 0 <= i < n ==> !IsSpace(s[i])
    ensures n < |s| ==> IsSpace(s[n])
    ensures s != [] && !IsSpace(s[0]) ==> n >= 1
  {
    if s == [] || IsSpace(s[0]) then 0 else 1 + WordLen(s[1..])
  }

  /** Python's `s.split()` with no argument: the maximal runs of
      non-whitespace characters, in order. */
  function Words(s: string): seq<string>
    decreases |s|
  {
    var t := TrimStart(s);
    if t == [] then []
    else
      var n := WordLen(t);
      [t[..n]] + Words(t[n..])
  }

  /** No word of `s.split()` is empty or holds whitespace. */
  lemma {:induction false} WordsAreWords(s: string)
    ensures forall k :: 0 <= k < |Words(s)| ==> Words(s)[k] != [] && NoSpace(Words(s)[k])
    decreases |s|
  {
    var t := TrimStart(s);
    if t != [] {
      var n := WordLen(t);
      var w := t[..n];
      assert w != [] && NoSpace(w) by {
        assert forall i :: 0 <= i < n ==> w[i] == t[i];
      }
      var rest := Words(t[n..]);
      var ws := Words(s);
      assert ws == [w] + rest;
      forall k | 0 <= k < |ws|
        ensures ws[k] != [] && NoSpace(ws[k])
      {
        if k > 0 {
          assert ws[k] == rest[k - 1];
          WordsAreWords(t[n..]);
        }
      }
    }
  }

  lemma WordsSkipSpace(c: char, s: string)
    requires IsSpace(c)
    ensures Words([c] + s) == Words(s)
  {
    assert ([c] + s)[1..] == s;
  }

  lemma WordsOfWord(w: string)
    requires w != [] && NoSpace(w)
    ensures Words(w) == [w]
  {
    assert TrimStart(w) == w;
    assert WordLen(w) == |w|;
    assert w[..|w|] == w && w[|w|..] == [];
  }

  /** A word followed by one space: the word, then the words of the rest. */
  lemma WordsOfWordThenSpace(w: string, rest: string)
    requires w != [] && NoSpace(w)
    ensures Words(w + [' '] + rest) == [w] + Words(rest)
  {
    var j := w + [' '] + rest;
    assert TrimStart(j) == j;
    assert j[|w|] == ' ';
    assert forall i :: 0 <= i < |w| ==> j[i] == w[i];
    assert WordLen(j) == |w|;
    assert j[..|w|] == w;
    assert j[|w|..] == [' '] + rest;
    WordsSkipSpace(' ', rest);
  }

  /** Splitting words that were joined with single spaces gives back the words. */
  lemma {:induction false} WordsOfJoined(ws: seq<string>)
    requires forall k :: 0 <= k < |ws| ==> ws[k] != [] && NoSpace(ws[k])
    ensures Words(JoinWith(" ", ws)) == ws
  {
    if |ws| == 1 {
      WordsOfWord(ws[0]);
    } else if |ws| > 1 {
      var rest := ws[1..];
      assert ws == [ws[0]] + rest;
      WordsOfJoined(rest);
      WordsOfWordThenSpace(ws[0], JoinWith(" ", rest));
    }
  }

  /** The decimal digit for `d`. */
  function Digit(d: nat): (c: char)
    requires d < 10
    ensures '0' <= c <= '9'
  {
    ('0' as int + d) as char
  }

  /** Python's `str(n)` for a non-negative integer. */
  function NatToString(n: nat): (r: string)
    ensures r != []
    ensures forall i :: 0 <= i < |r| ==> '0' <= r[i] <= '9'
  {
    if n < 10 then [Digit(n)] else NatToString(n / 10) + [Digit(n % 10)]
  }

  /** The number a string of decimal digits denotes. */
  function DigitsValue(s: string): nat
  {
    if s == [] then 0
    else
      var d := s[|s| - 1] as int - '0' as int;
      DigitsValue(s[..|s| - 1]) * 10 + (if 0 <= d then d else 0)
  }

  /** Reading back the decimal digits of `NatToString(n)` gives `n`. */
  lemma {:induction false} NatToStringRoundTrip(n: nat)
    ensures DigitsValue(NatToString(n)) == n
  {
    if n >= 10 {
      NatToStringRoundTrip(n / 10);
      var s := NatToString(n);
      assert s[..|s| - 1] == NatToString(n / 10);
    }
  }

  /** The text after the first occurrence of `c`: Python's `s.split(c, 1)[1]`. */
  function AfterFirst(s: string, c: char): string
    requires c in s
  {
    if s[0] == c then s[1..] else AfterFirst(s[1..], c)
  }

  /** For a line that starts with a tag whose only colon is its last
      character, the text after the first colon is the text after the tag. */
  lemma {:induction false} AfterTag(line: string, tag: string)
    requires StartsWith(line, tag) && tag != [] && Last(tag) == ':'
    requires ':' !in tag[..|tag| - 1]
    ensures ':' in line && AfterFirst(line, ':') == line[|tag|..]
  {
    assert line[|tag| - 1] == tag[|tag| - 1];
    if |tag| > 1 {
      assert line[0] == tag[0] && tag[0] in tag[..|tag| - 1];
      assert tag[1..][..|tag| - 2] == tag[..|tag| - 1][1..];
      AfterTag(line[1..], tag[1..]);
      assert line[1..][|tag| - 1..] == line[|tag|..];
    }
  }
}
