/** The Python string operations the arrangement parser is built from:
    `str.strip()`, `str.split('\n')` and `str.split()`, with Python's own
    notion of whitespace. */
module PyText {

  /** The characters Python's `str.isspace()` accepts (and that `strip()` and
      `split()` without arguments treat as separators). */
  predicate IsSpace(c: char)
  {
    || ('\t' <= c <= '\r')
    || ('\U{1C}' <= c <= '\U{1F}')
    || c == ' ' || c == '\U{85}' || c == '\U{A0}' || c == '\U{1680}'
    || ('\U{2000}' <= c <= '\U{200A}')
    || c == '\U{2028}' || c == '\U{2029}' || c == '\U{202F}' || c == '\U{205F}' || c == '\U{3000}'
  }

  /** `s.lstrip()`: the suffix of s left after dropping leading whitespace. */
  function TrimStart(s: string): (r: string)
    ensures |r| <= |s| && r == s[|s| - |r|..]
    ensures |r| > 0 ==> !IsSpace(r[0])
    ensures forall i :: 0 <= i < |s| - |r| ==> IsSpace(s[i])
  {
    if |s| > 0 && IsSpace(s[0]) then TrimStart(s[1..]) else s
  }

  /** `s.rstrip()`: the prefix of s left after dropping trailing whitespace. */
  function TrimEnd(s: string): (r: string)
    ensures |r| <= |s| && r == s[..|r|]
    ensures |r| > 0 ==> !IsSpace(r[|r| - 1])
    ensures forall i :: |r| <= i < |s| ==> IsSpace(s[i])
  {
    if |s| > 0 && IsSpace(s[|s| - 1]) then TrimEnd(s[..|s| - 1]) else s
  }

  /** `s.strip()`. */
  function Strip(s: string): string
  {
    TrimEnd(TrimStart(s))
  }

  /** `sep.join(parts)`. */
  function Join(parts: seq<string>, sep: char): string
  {
    if |parts| == 0 then ""
    else if |parts| == 1 then parts[0]
    else parts[0] + [sep] + Join(parts[1..], sep)
  }

  /** `s.split('\n')`: the pieces between newlines, at least one; joining
      them with newlines gives s back. */
  function SplitLines(s: string): (lines: seq<string>)
    ensures |lines| >= 1
    ensures forall i :: 0 <= i < |lines| ==> '\n' !in lines[i]
    ensures Join(lines, '\n') == s
  {
    if |s| == 0 then [""]
    else
      var rest := SplitLines(s[1..]);
      if s[0] == '\n' then [""] + rest
      else [[s[0]] + rest[0]] + rest[1..]
  }

  /** `s.split()`: the maximal runs of non-whitespace characters, in order. */
  function Words(s: string): (words: seq<string>)
    ensures forall i :: 0 <= i < |words| ==> |words[i]| > 0
    ensures forall i, j :: 0 <= i < |words| && 0 <= j < |words[i]| ==> !IsSpace(words[i][j])
    ensures |s| > 0 && !IsSpace(s[0]) ==> |words| > 0 && words[0][0] == s[0]
  {
    if |s| == 0 then []
    else
      var rest := Words(s[1..]);
      if IsSpace(s[0]) then rest
      else if |s| > 1 && !IsSpace(s[1]) then [[s[0]] + rest[0]] + rest[1..]
      else [[s[0]]] + rest
  }

  predicate IsWord(w: string)
  {
    |w| > 0 && forall j :: 0 <= j < |w| ==> !IsSpace(w[j])
  }

  /** A word followed by whitespace (or by nothing) is split off whole. */
  lemma {:induction false} WordsOfWordThen(w: string, rest: string)
    requires IsWord(w)
    requires |rest| == 0 || IsSpace(rest[0])
    ensures Words(w + rest) == [w] + Words(rest)
    decreases |w|
  {
    var s := w + rest;
    assert s[1..] == w[1..] + rest;
    if |w| == 1 {
      assert s[1..] == rest && w == [s[0]];
    } else {
      WordsOfWordThen(w[1..], rest);
      assert [s[0]] + w[1..] == w;
    }
  }

  /** Splitting words joined by single spaces gives the words back. */
  lemma {:induction false} WordsOfJoin(ws: seq<string>)
    requires forall i :: 0 <= i < |ws| ==> IsWord(ws[i])
    ensures Words(Join(ws, ' ')) == ws
    decreases |ws|
  {
    if |ws| == 1 {
      WordsOfWordThen(ws[0], "");
      assert ws[0] + "" == ws[0];
      assert [ws[0]] + [] == ws;
    } else if |ws| > 1 {
      var tail := Join(ws[1..], ' ');
      WordsOfWordThen(ws[0], [' '] + tail);
      assert Join(ws, ' ') == ws[0] + ([' '] + tail);
      assert ([' '] + tail)[1..] == tail;
      WordsOfJoin(ws[1..]);
      assert [ws[0]] + ws[1..] == ws;
    }
  }

  /** Each maximal run of whitespace replaced by a single space. */
  function Squeeze(s: string): string
    decreases |s|
  {
    if |s| == 0 then ""
    else if IsSpace(s[0]) then " " + Squeeze(TrimStart(s[1..]))
    else [s[0]] + Squeeze(s[1..])
  }

  /** The text with its outer whitespace dropped and every inner run of
      whitespace reduced to one space: what `' '.join(s.split())` should be. */
  function Collapse(s: string): string
  {
    Squeeze(Strip(s))
  }

  /** The length of the leading run of non-whitespace characters. */
  function WordLength(s: string): (k: nat)
    ensures k <= |s|
    ensures forall i :: 0 <= i < k ==> !IsSpace(s[i])
    ensures k < |s| ==> IsSpace(s[k])
  {
    if |s| == 0 || IsSpace(s[0]) then 0 else 1 + WordLength(s[1..])
  }

  /** Whitespace only splits into no words. */
  lemma {:induction false} WordsOfSpaces(s: string)
    requires forall i :: 0 <= i < |s| ==> IsSpace(s[i])
    ensures Words(s) == []
    decreases |s|
  {
    if |s| > 0 {
      WordsOfSpaces(s[1..]);
    }
  }

  /** Leading whitespace does not change the words. */
  lemma {:induction false} WordsOfTrimStart(s: string)
    ensures Words(TrimStart(s)) == Words(s)
    decreases |s|
  {
    if |s| > 0 && IsSpace(s[0]) {
      WordsOfTrimStart(s[1..]);
    }
  }

  /** Trailing whitespace does not change the words. */
  lemma {:induction false} WordsOfSpacesAfter(x: string, y: string)
    requires forall i :: 0 <= i < |y| ==> IsSpace(y[i])
    ensures Words(x + y) == Words(x)
    decreases |x|
  {
    if |x| == 0 {
      assert x + y == y;
      WordsOfSpaces(y);
    } else {
      assert (x + y)[1..] == x[1..] + y;
      WordsOfSpacesAfter(x[1..], y);
      if |x| == 1 && |y| > 0 {
        assert (x + y)[1] == y[0];
      } else if |x| > 1 {
        assert (x + y)[1] == x[1];
      }
    }
  }

  /** Squeezing leaves a leading word alone. */
  lemma {:induction false} SqueezeOfWordThen(w: string, rest: string)
    requires forall i :: 0 <= i < |w| ==> !IsSpace(w[i])
    ensures Squeeze(w + rest) == w + Squeeze(rest)
    decreases |w|
  {
    if |w| == 0 {
      assert w + rest == rest;
    } else {
      assert (w + rest)[1..] == w[1..] + rest;
      SqueezeOfWordThen(w[1..], rest);
      assert [w[0]] + w[1..] == w;
    }
  }

  /** Joining one more part in front adds it and a separator. */
  lemma JoinCons(w: string, ws: seq<string>, sep: char)
    requires |ws| > 0
    ensures Join([w] + ws, sep) == w + ([sep] + Join(ws, sep))
  {
    var parts := [w] + ws;
    assert parts[0] == w && parts[1..] == ws;
    assert Join(parts, sep) == w + [sep] + Join(ws, sep);
  }

  /** For text without outer whitespace, joining its words with single
      spaces is squeezing it. */
  lemma {:induction false} JoinWordsOfUnpadded(t: string)
    requires |t| > 0 ==> !IsSpace(t[0]) && !IsSpace(t[|t| - 1])
    ensures Join(Words(t), ' ') == Squeeze(t)
    decreases |t|
  {
    if |t| > 0 {
      var k := WordLength(t);
      var w, rest := t[..k], t[k..];
      assert t == w + rest;
      assert IsWord(w);
      WordsOfWordThen(w, rest);
      SqueezeOfWordThen(w, rest);
      if |rest| == 0 {
        assert Words(rest) == [] && Squeeze(rest) == "";
        assert w + "" == w;
      } else {
        var next := TrimStart(rest[1..]);
        assert rest[|rest| - 1] == t[|t| - 1];
        assert |next| > 0 && next[|next| - 1] == t[|t| - 1];
        JoinWordsOfUnpadded(next);
        WordsOfTrimStart(rest[1..]);
        var ws := Words(next);
        assert Words(rest) == ws;
        assert |ws| > 0;
        JoinCons(w, ws, ' ');
        assert Squeeze(rest) == [' '] + Squeeze(next);
      }
    }
  }

  /** Trailing whitespace does not change the words: rstrip keeps them. */
  lemma {:induction false} WordsOfTrimEnd(u: string)
    ensures Words(TrimEnd(u)) == Words(u)
  {
    var t := TrimEnd(u);
    var trail := u[|t|..];
    assert u == t + trail;
    forall i | 0 <= i < |trail|
      ensures IsSpace(trail[i])
    {
      assert trail[i] == u[|t| + i];
    }
    WordsOfSpacesAfter(t, trail);
  }

  /** Strip leaves no whitespace at either end. */
  lemma {:induction false} StripEnds(s: string)
    ensures var t := Strip(s); |t| > 0 ==> !IsSpace(t[0]) && !IsSpace(t[|t| - 1])
  {
    var u := TrimStart(s);
    var t := TrimEnd(u);
    assert |t| > 0 ==> t[0] == u[0];
  }

  /** `str.split()` in full: the words of s, joined by single spaces, are s
      with its outer whitespace dropped and each inner run of whitespace
      reduced to one space. Since no word is empty or holds whitespace, this
      determines the words. */
  lemma {:induction false} WordsCollapse(s: string)
    ensures Join(Words(s), ' ') == Collapse(s)
  {
    WordsOfTrimStart(s);
    WordsOfTrimEnd(TrimStart(s));
    StripEnds(s);
    JoinWordsOfUnpadded(Strip(s));
  }

  /** A line without newline followed by a newline (or by nothing) is split
      off whole. */
  lemma {:induction false} SplitLinesOfLineThen(l: string, rest: string)
    requires '\n' !in l
    requires |rest| > 0 && rest[0] == '\n'
    ensures SplitLines(l + rest) == [l] + SplitLines(rest[1..])
    decreases |l|
  {
    var s := l + rest;
    if |l| == 0 {
      assert s == rest;
    } else {
      assert s[1..] == l[1..] + rest;
      SplitLinesOfLineThen(l[1..], rest);
      assert [s[0]] + l[1..] == l;
    }
  }

  lemma {:induction false} SplitLinesOfLine(l: string)
    requires '\n' !in l
    ensures SplitLines(l) == [l]
    decreases |l|
  {
    if |l| > 0 {
      SplitLinesOfLine(l[1..]);
      assert [l[0]] + l[1..] == l;
    }
  }

  /** Splitting lines joined by newlines gives the lines back. */
  lemma {:induction false} SplitLinesOfJoin(ls: seq<string>)
    requires |ls| >= 1
    requires forall i :: 0 <= i < |ls| ==> '\n' !in ls[i]
    ensures SplitLines(Join(ls, '\n')) == ls
    decreases |ls|
  {
    if |ls| == 1 {
      SplitLinesOfLine(ls[0]);
    } else {
      var tail := Join(ls[1..], '\n');
      SplitLinesOfLineThen(ls[0], ['\n'] + tail);
      assert Join(ls, '\n') == ls[0] + (['\n'] + tail);
      assert (['\n'] + tail)[1..] == tail;
      SplitLinesOfJoin(ls[1..]);
      assert [ls[0]] + ls[1..] == ls;
    }
  }

  /** Text that neither starts nor ends with whitespace is left alone by strip. */
  lemma StripUnpadded(s: string)
    requires |s| > 0 && !IsSpace(s[0]) && !IsSpace(s[|s| - 1])
    ensures Strip(s) == s
  {
  }

  /** A character in no part, other than the separator, is absent from the join. */
  lemma {:induction false} JoinAvoids(parts: seq<string>, sep: char, ch: char)
    requires ch != sep
    requires forall i :: 0 <= i < |parts| ==> ch !in parts[i]
    ensures ch !in Join(parts, sep)
    decreases |parts|
  {
    if |parts| > 1 {
      JoinAvoids(parts[1..], sep, ch);
    }
  }

  /** A join starts with the first part's first character and ends with the
      last part's last character. */
  lemma {:induction false} JoinEnds(parts: seq<string>, sep: char)
    requires |parts| > 0 && forall i :: 0 <= i < |parts| ==> |parts[i]| > 0
    ensures var j := Join(parts, sep);
      |j| > 0 && j[0] == parts[0][0] && j[|j| - 1] == parts[|parts| - 1][|parts[|parts| - 1]| - 1]
    decreases |parts|
  {
    if |parts| > 1 {
      JoinEnds(parts[1..], sep);
    }
  }
}
