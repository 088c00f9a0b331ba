/** The string splitting and joining the script uses: `str.split(sep)` with a
    one-character separator (the dictionary file cut into lines, a generated
    line read back into words), `sep.join(words)`, and `str.split()` with no
    argument (a line or a text cut into whitespace-separated tokens). */
module Split {
  import opened CaseMap

  /** A non-empty piece of text, as `str.split()` produces. */
  type Token = s: string | s != [] witness "A"

  /** The concatenation of a list of strings. */
  function Concat(ss: seq<string>): string {
    if ss == [] then [] else ss[0] + Concat(ss[1..])
  }

  /** `str.split(sep)`: the pieces between occurrences of `sep`, empty pieces
      included, so there is always at least one piece. */
  function SplitOn(s: string, sep: char): (r: seq<string>)
    ensures |r| >= 1
  {
    if s == [] then [[]]
    else if s[0] == sep then [[]] + SplitOn(s[1..], sep)
    else
      var rest := SplitOn(s[1..], sep);
      [[s[0]] + rest[0]] + rest[1..]
  }

  /** `sep.join(ws)`: the words, in order, with one separator between each
      neighbouring pair. */
  function JoinWith(ws: seq<string>, sep: char): (r: string)
    ensures |ws| >= 1 ==> |r| == |Concat(ws)| + |ws| - 1
  {
    if |ws| == 0 then []
    else if |ws| == 1 then ws[0]
    else ws[0] + [sep] + JoinWith(ws[1..], sep)
  }

  /** No piece returned by `SplitOn` contains the separator. */
  lemma {:induction false} SplitOnPiecesAvoidSep(s: string, sep: char)
    ensures forall i :: 0 <= i < |SplitOn(s, sep)| ==> sep !in SplitOn(s, sep)[i]
  {
    if s != [] {
      SplitOnPiecesAvoidSep(s[1..], sep);
    }
  }

  /** Joining the pieces of a split with the same separator restores the text. */
  lemma {:induction false} JoinSplitOn(s: string, sep: char)
    ensures JoinWith(SplitOn(s, sep), sep) == s
  {
    if s != [] {
      var rest := SplitOn(s[1..], sep);
      JoinSplitOn(s[1..], sep);
      if s[0] == sep {
        assert SplitOn(s, sep)[1..] == rest;
      } else {
        var r := SplitOn(s, sep);
        assert r[1..] == rest[1..];
        if |rest| == 1 {
          assert s == [s[0]] + s[1..];
        } else {
          assert JoinWith(rest, sep) == rest[0] + [sep] + JoinWith(rest[1..], sep);
          assert s == [s[0]] + s[1..];
        }
      }
    }
  }

  /** Splitting a piece free of the separator, followed by the separator and
      more text, splits off exactly that piece. */
  lemma {:induction false} SplitOnPrefix(a: string, b: string, sep: char)
    requires sep !in a
    ensures SplitOn(a + [sep] + b, sep) == [a] + SplitOn(b, sep)
    ensures SplitOn(a, sep) == [a]
  {
    if a != [] {
      SplitOnPrefix(a[1..], b, sep);
      assert (a + [sep] + b)[1..] == a[1..] + [sep] + b;
      assert [a[0]] + a[1..] == a;
    } else {
      assert a + [sep] + b == [sep] + b;
    }
  }

  /** Splitting a join recovers the words, provided there is at least one
      word (joining nothing gives the same text as joining one empty word) and
      no word contains the separator. */
  lemma {:induction false} SplitOnJoin(ws: seq<string>, sep: char)
    requires |ws| >= 1
    requires forall i :: 0 <= i < |ws| ==> sep !in ws[i]
    ensures SplitOn(JoinWith(ws, sep), sep) == ws
  {
    if |ws| == 1 {
      SplitOnPrefix(ws[0], [], sep);
    } else {
      SplitOnJoin(ws[1..], sep);
      SplitOnPrefix(ws[0], JoinWith(ws[1..], sep), sep);
      assert ws == [ws[0]] + ws[1..];
    }
  }

  /** The length of the run of non-space characters `s` starts with. */
  function WordLength(s: string): (n: nat)
    ensures n <= |s|
    ensures forall i :: 0 <= i < n ==> !IsSpace(s[i])
    ensures n == |s| || IsSpace(s[n])
  {
    if s == [] || IsSpace(s[0]) then 0 else 1 + WordLength(s[1..])
  }

  /** The length of the run of space characters `s` starts with. */
  function LeadingSpaces(s: string): (k: nat)
    ensures k <= |s|
    ensures forall i :: 0 <= i < k ==> IsSpace(s[i])
    ensures k == |s| || !IsSpace(s[k])
  {
    if s != [] && IsSpace(s[0]) then 1 + LeadingSpaces(s[1..]) else 0
  }

  /** `str.split()`: the maximal runs of non-space characters, in order. */
  function SplitWhitespace(s: string): (r: seq<Token>)
    ensures forall i, j :: 0 <= i < |r| && 0 <= j < |r[i]| ==> !IsSpace(r[i][j])
    decreases |s|
  {
    if s == [] then []
    else if IsSpace(s[0]) then SplitWhitespace(s[1..])
    else
      var n := WordLength(s);
      [s[..n]] + SplitWhitespace(s[n..])
  }

  /** The text with every space character removed. */
  function RemoveSpaces(s: string): string {
    if s == [] then []
    else if IsSpace(s[0]) then RemoveSpaces(s[1..])
    else [s[0]] + RemoveSpaces(s[1..])
  }

  lemma {:induction false} RemoveSpacesAppend(a: string, b: string)
    ensures RemoveSpaces(a + b) == RemoveSpaces(a) + RemoveSpaces(b)
  {
    if a != [] {
      RemoveSpacesAppend(a[1..], b);
      assert (a + b)[1..] == a[1..] + b;
    } else {
      assert a + b == b;
    }
  }

  lemma {:induction false} RemoveSpacesOfWord(s: string)
    requires forall i :: 0 <= i < |s| ==> !IsSpace(s[i])
    ensures RemoveSpaces(s) == s
  {
    if s != [] {
      RemoveSpacesOfWord(s[1..]);
      assert s == [s[0]] + s[1..];
    }
  }

  /** The tokens of `str.split()` together hold exactly the non-space
      characters of the text, in order. */
  lemma {:induction false} SplitWhitespaceTokens(s: string)
    ensures Concat(SplitWhitespace(s)) == RemoveSpaces(s)
    decreases |s|
  {
    if s != [] {
      if IsSpace(s[0]) {
        SplitWhitespaceTokens(s[1..]);
      } else {
        var n := WordLength(s);
        SplitWhitespaceTokens(s[n..]);
        var r := SplitWhitespace(s);
        assert r[1..] == SplitWhitespace(s[n..]);
        assert s == s[..n] + s[n..];
        RemoveSpacesAppend(s[..n], s[n..]);
        RemoveSpacesOfWord(s[..n]);
      }
    }
  }

  /** Joining space-free tokens with single spaces and splitting on
      whitespace gives the tokens back. */
  lemma {:induction false} SplitWhitespaceJoin(ts: seq<Token>)
    requires forall i, j :: 0 <= i < |ts| && 0 <= j < |ts[i]| ==> !IsSpace(ts[i][j])
    ensures SplitWhitespace(JoinWith(ts, ' ')) == ts
  {
    if |ts| == 1 {
      var w := ts[0];
      WordLengthOfWord(w, []);
      assert w + [] == w;
      assert w[..|w|] == w && w[|w|..] == [];
      assert SplitWhitespace(w) == [w] + SplitWhitespace([]);
    } else if |ts| > 1 {
      var w := ts[0];
      var rest := JoinWith(ts[1..], ' ');
      var s := w + [' '] + rest;
      assert JoinWith(ts, ' ') == s;
      SplitWhitespaceJoin(ts[1..]);
      WordLengthOfWord(w, [' '] + rest);
      assert s == w + ([' '] + rest);
      assert s[..|w|] == w;
      assert s[|w|..] == [' '] + rest;
      assert !IsSpace(s[0]);
      assert SplitWhitespace(s) == [w] + SplitWhitespace([' '] + rest);
      assert ([' '] + rest)[1..] == rest;
      assert SplitWhitespace([' '] + rest) == SplitWhitespace(rest);
      assert ts == [w] + ts[1..];
    }
  }

  /** A text of whitespace only has no token. */
  lemma {:induction false} SplitWhitespaceOfSpaces(sp: string)
    requires forall i :: 0 <= i < |sp| ==> IsSpace(sp[i])
    ensures SplitWhitespace(sp) == []
  {
    if sp != [] {
      SplitWhitespaceOfSpaces(sp[1..]);
    }
  }

  /** Whitespace, then a space-free token, then nothing or more text that
      starts with whitespace: the token is the first one split off, whatever
      the amount and kind of whitespace around it. Together with
      `SplitWhitespaceOfSpaces` this fixes where every token begins and ends. */
  lemma {:induction false} SplitWhitespaceRun(sp: string, w: Token, tail: string)
    requires forall i :: 0 <= i < |sp| ==> IsSpace(sp[i])
    requires forall j :: 0 <= j < |w| ==> !IsSpace(w[j])
    requires tail == [] || IsSpace(tail[0])
    ensures SplitWhitespace(sp + w + tail) == [w] + SplitWhitespace(tail)
    decreases |sp|
  {
    var s := sp + w + tail;
    if sp == [] {
      assert s == w + tail;
      WordLengthOfWord(w, tail);
      assert s[..|w|] == w;
      assert s[|w|..] == tail;
    } else {
      SplitWhitespaceRun(sp[1..], w, tail);
      assert s[1..] == sp[1..] + w + tail;
    }
  }

  /** Leading whitespace contributes no token: splitting the text splits what
      follows it. */
  lemma {:induction false} SplitAfterLeadingSpaces(s: string)
    ensures SplitWhitespace(s) == SplitWhitespace(s[LeadingSpaces(s)..])
    decreases |s|
  {
    if s != [] && IsSpace(s[0]) {
      var t := s[1..];
      SplitAfterLeadingSpaces(t);
      assert t[LeadingSpaces(t)..] == s[LeadingSpaces(s)..];
    } else {
      assert s[0..] == s;
    }
  }

  lemma {:induction false} WordLengthOfWord(w: Token, tail: string)
    requires forall j :: 0 <= j < |w| ==> !IsSpace(w[j])
    requires tail == [] || IsSpace(tail[0])
    ensures WordLength(w + tail) == |w|
    decreases |w|
  {
    if |w| > 1 {
      WordLengthOfWord(w[1..], tail);
      assert (w + tail)[1..] == w[1..] + tail;
    } else {
      assert (w + tail)[1..] == tail;
    }
  }
}
