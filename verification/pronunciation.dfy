/** The pronunciation dictionary (`get_pron_dict` and `filter_dict` in
    random_haiku.py): one entry per line of the CMU Pronouncing Dictionary
    file, the word first and its ARPAbet phoneme codes after it. The file read
    is not modelled; the dictionary is parsed from the text it returns. */
module Pronunciation {
  import opened Wrappers
  import opened CaseMap
  import opened Split

  /** Word -> phoneme codes. Phoneme codes come out of `str.split()`, so none
      is empty. */
  type PronDict = map<string, seq<Token>>

  /** A line with at least one whitespace-separated token. */
  predicate HasWord(line: string) {
    SplitWhitespace(line) != []
  }

  predicate EveryLineHasWord(lines: seq<string>) {
    forall i :: 0 <= i < |lines| ==> HasWord(lines[i])
  }

  function WordOf(line: string): string
    requires HasWord(line)
  {
    SplitWhitespace(line)[0]
  }

  function PhonemesOf(line: string): seq<Token>
    requires HasWord(line)
  {
    SplitWhitespace(line)[1..]
  }

  /** Line `i` is the last line of `lines` that defines its word, so its
      entry is the one the dictionary keeps. */
  predicate IsLastDefinition(lines: seq<string>, i: nat)
    requires i < |lines| && HasWord(lines[i])
  {
    forall j :: i < j < |lines| && HasWord(lines[j]) ==> WordOf(lines[j]) != WordOf(lines[i])
  }

  /** One line: the first token is the word, the rest its phonemes. A line
      with no token at all makes `line.split()[0]` raise IndexError. */
  function ParsePronLine(line: string): (r: Result<(string, seq<Token>)>)
    ensures r.Ok? <==> RemoveSpaces(line) != []
    ensures r.Err? ==> r.error == IndexError
    ensures r.Ok? ==> r.value.0 != [] && Concat([r.value.0] + r.value.1) == RemoveSpaces(line)
    ensures r.Ok? ==>
              var rest := line[LeadingSpaces(line)..];
              var n := WordLength(rest);
              r.value.0 == rest[..n] && r.value.1 == SplitWhitespace(rest[n..])
  {
    var toks := SplitWhitespace(line);
    SplitWhitespaceTokens(line);
    FirstRunIsWord(line);
    if toks == [] then Err(IndexError)
    else
      assert toks == [toks[0]] + toks[1..];
      Ok((toks[0], toks[1..]))
  }

  /** The first token of a line is the maximal run of non-space characters
      that follows its leading whitespace; the remaining tokens are those of
      the rest of the line. A line of whitespace alone has no token. */
  lemma FirstRunIsWord(line: string)
    ensures var rest := line[LeadingSpaces(line)..];
            var n := WordLength(rest);
            && (SplitWhitespace(line) != [] <==> rest != [])
            && (rest != [] ==> n > 0 && SplitWhitespace(line) == [rest[..n]] + SplitWhitespace(rest[n..]))
  {
    var rest := line[LeadingSpaces(line)..];
    SplitAfterLeadingSpaces(line);
    if rest == [] {
      assert SplitWhitespace(rest) == [];
    } else {
      assert rest[0] == line[LeadingSpaces(line)];
    }
  }

  /** The parsing loop over lines, in order; a later line for the same word
      overwrites the earlier entry. The loop stops at the first line with no
      token. */
  function ParseLines(lines: seq<string>): (r: Result<PronDict>)
    ensures r.Ok? <==> EveryLineHasWord(lines)
    ensures r.Err? ==> r.error == IndexError
  {
    if lines == [] then Ok(map[])
    else
      var prev :- ParseLines(lines[..|lines| - 1]);
      var entry :- ParsePronLine(lines[|lines| - 1]);
      SplitWhitespaceTokens(lines[|lines| - 1]);
      Ok(prev[entry.0 := entry.1])
  }

  /** Every word of the parsed dictionary is the word of some line. */
  lemma {:induction false} ParseLinesKeys(lines: seq<string>)
    requires ParseLines(lines).Ok?
    ensures forall w :: w in ParseLines(lines).value ==>
              exists i :: 0 <= i < |lines| && HasWord(lines[i]) && WordOf(lines[i]) == w
  {
    if lines != [] {
      var init := lines[..|lines| - 1];
      ParseLinesKeys(init);
      SplitWhitespaceTokens(lines[|lines| - 1]);
      forall w | w in ParseLines(lines).value
        ensures exists i :: 0 <= i < |lines| && HasWord(lines[i]) && WordOf(lines[i]) == w
      {
        if w != WordOf(lines[|lines| - 1]) {
          var i :| 0 <= i < |init| && HasWord(init[i]) && WordOf(init[i]) == w;
          assert lines[i] == init[i];
        }
      }
    }
  }

  /** The entry the dictionary keeps for a word is the one on the last line
      that defines it. */
  lemma {:induction false} ParseLinesLastWins(lines: seq<string>, i: nat)
    requires ParseLines(lines).Ok?
    requires i < |lines| && HasWord(lines[i]) && IsLastDefinition(lines, i)
    ensures WordOf(lines[i]) in ParseLines(lines).value
    ensures ParseLines(lines).value[WordOf(lines[i])] == PhonemesOf(lines[i])
  {
    var init := lines[..|lines| - 1];
    var last := lines[|lines| - 1];
    SplitWhitespaceTokens(last);
    assert ParseLines(init).Ok?;
    assert ParseLines(lines).value == ParseLines(init).value[WordOf(last) := PhonemesOf(last)];
    if i < |lines| - 1 {
      assert init[i] == lines[i];
      forall j | i < j < |init| && HasWord(init[j]) ensures WordOf(init[j]) != WordOf(init[i]) {
        assert init[j] == lines[j];
      }
      ParseLinesLastWins(init, i);
    }
  }

  /** `get_pron_dict` applied to the text of the file: the text is cut at
      each newline and every line parsed. */
  function ParsePronDict(text: string): (r: Result<PronDict>)
    ensures r.Ok? <==> EveryLineHasWord(SplitOn(text, '\n'))
    ensures r.Err? ==> r.error == IndexError
  {
    ParseLines(SplitOn(text, '\n'))
  }

  /** Every word of a parsed dictionary is a non-empty token free of spaces. */
  lemma ParsedWordsAreTokens(text: string)
    requires ParsePronDict(text).Ok?
    ensures forall w :: w in ParsePronDict(text).value ==>
              w != [] && forall j :: 0 <= j < |w| ==> !IsSpace(w[j])
  {
    var lines := SplitOn(text, '\n');
    ParseLinesKeys(lines);
    forall w | w in ParsePronDict(text).value ensures w != [] && forall j :: 0 <= j < |w| ==> !IsSpace(w[j]) {
      var i :| 0 <= i < |lines| && HasWord(lines[i]) && WordOf(lines[i]) == w;
      SplitWhitespaceTokens(lines[i]);
    }
  }

  /** A piece of text that ends with the separator splits into at least two
      pieces, the last of them empty. */
  lemma {:induction false} SplitOnTrailingSep(s: string, sep: char)
    requires s != [] && s[|s| - 1] == sep
    ensures |SplitOn(s, sep)| >= 2 && SplitOn(s, sep)[|SplitOn(s, sep)| - 1] == []
  {
    var r := SplitOn(s, sep);
    if |s| == 1 {
      assert s[1..] == [];
      assert r == [[], []];
    } else {
      var rest := SplitOn(s[1..], sep);
      SplitOnTrailingSep(s[1..], sep);
      if s[0] == sep {
        assert r == [[]] + rest;
      } else {
        assert r == [[s[0]] + rest[0]] + rest[1..];
        assert r[|r| - 1] == rest[|rest| - 1];
      }
    }
  }

  /** A dictionary file that ends with a newline has an empty last line, and
      parsing it raises IndexError. */
  lemma TrailingNewlineFails(text: string)
    requires text != [] && text[|text| - 1] == '\n'
    ensures ParsePronDict(text) == Err(IndexError)
  {
    SplitOnTrailingSep(text, '\n');
    var lines := SplitOn(text, '\n');
    assert !HasWord(lines[|lines| - 1]);
  }

  /** `filter_dict`: deletes, one by one, every entry whose word is not in the
      lexicon, iterating over a snapshot of the keys. */
  method FilterDict<V>(pron: map<string, V>, lexicon: map<string, nat>) returns (d: map<string, V>)
    ensures forall k :: k in d <==> k in pron && k in lexicon
    ensures forall k :: k in d ==> d[k] == pron[k]
  {
    d := pron;
    var remaining := pron.Keys;
    while remaining != {}
      invariant remaining <= pron.Keys
      invariant forall k :: k in d ==> k in pron && d[k] == pron[k]
      invariant forall k :: k in remaining ==> k in d
      invariant forall k :: k in pron && k !in remaining ==> (k in d <==> k in lexicon)
      decreases remaining
    {
      var k :| k in remaining;
      if k !in lexicon {
        d := d - {k};
      }
      remaining := remaining - {k};
    }
  }
}
