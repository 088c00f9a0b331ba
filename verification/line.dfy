/** Assembling one line of the poem (`random_line` in random_haiku.py).
    Words are drawn one at a time; a word not yet on the line is appended, a
    word that overshoots the syllable target is taken off again, and the loop
    stops as soon as the line's count equals the target. The draws that
    `random.choice` would make are supplied as a sequence, and running out of
    them stands for the loop not having finished yet. */
module Line {
  import opened Wrappers
  import opened CaseMap
  import opened Split
  import opened Syllables

  /** The result of a run: a value, a raised exception, or no result within
      the supplied draws (the source loop would keep drawing). */
  datatype Outcome<+T> = Done(value: T) | Raised(error: Error) | OutOfDraws

  /** No word occurs twice. */
  predicate Distinct(ws: seq<string>) {
    forall i, j :: 0 <= i < j < |ws| ==> ws[i] != ws[j]
  }

  /** The selection loop of `random_line`, with the draws of `random.choice`
      over the keys of `counts` given as `draws`. */
  method SelectWords(counts: map<string, nat>, syls: int, draws: seq<string>)
    returns (out: Outcome<seq<string>>)
    requires forall i :: 0 <= i < |draws| ==> draws[i] in counts
    ensures syls <= 0 ==> out == Done([])
    ensures syls > 0 && counts == map[] ==> out == Raised(IndexError)
    ensures out.Done? && syls >= 0 ==> CountSyls(counts, out.value) == Ok(syls)
    ensures out.Done? ==> Distinct(out.value)
    ensures out.Done? ==> forall i :: 0 <= i < |out.value| ==> out.value[i] in counts
    ensures out.Raised? ==>
              (out.error == IndexError && counts == map[])
              || (out.error.KeyError? && out.error.key !in counts
                  && exists k :: k in counts && Upper(k) == out.error.key)
  {
    var words: seq<string> := [];
    var total: nat := 0;
    var next := 0;
    while total < syls
      invariant 0 <= next <= |draws|
      invariant CountSyls(counts, words) == Ok(total)
      invariant words != [] ==> total <= syls
      invariant syls <= 0 ==> words == []
      invariant Distinct(words)
      invariant forall i :: 0 <= i < |words| ==> words[i] in counts
      decreases |draws| - next
    {
      if counts == map[] {
        return Raised(IndexError);
      }
      if next == |draws| {
        return OutOfDraws;
      }
      var newWord := draws[next];
      next := next + 1;
      var before := words;
      if newWord !in words {
        words := words + [newWord];
      }
      var count := CountSyls(counts, words);
      if count.Err? {
        return Raised(count.error);
      }
      if count.value > syls {
        assert words != before;
        words := words[..|words| - 1];
        assert words == before;
      } else {
        total := count.value;
      }
    }
    return Done(words);
  }

  /** `str.lower()` applied to every word. Each word keeps its dictionary
      key (its upper-cased form) and its spaces, and loses its upper-case
      letters. */
  function LowerAll(ws: seq<string>): (ls: seq<string>)
    ensures |ls| == |ws|
    ensures forall i :: 0 <= i < |ws| ==> ls[i] == Lower(ws[i])
    ensures forall i :: 0 <= i < |ws| ==> Upper(ls[i]) == Upper(ws[i])
    ensures forall i :: 0 <= i < |ws| ==> (' ' in ls[i] <==> ' ' in ws[i])
    ensures forall i, j :: 0 <= i < |ws| && 0 <= j < |ls[i]| ==> !IsUpperChar(ls[i][j])
  {
    var ls := seq(|ws|, i requires 0 <= i < |ws| => Lower(ws[i]));
    assert forall i :: 0 <= i < |ws| ==> Upper(ls[i]) == Upper(ws[i]) && (' ' in ls[i] <==> ' ' in ws[i]) by {
      forall i | 0 <= i < |ws| ensures Upper(ls[i]) == Upper(ws[i]) && (' ' in ls[i] <==> ' ' in ws[i]) {
        UpperOfLower(ws[i]);
        CaseMapsKeepSpaces(ws[i], ' ');
      }
    }
    ls
  }

  /** The last three statements of `random_line`: lower-case every word,
      capitalize the first, join with single spaces. With no word at all,
      `words[0]` raises IndexError. */
  function ShapeLine(words: seq<string>): (r: Result<string>)
    ensures r.Err? <==> words == []
    ensures r.Err? ==> r.error == IndexError
  {
    if words == [] then Err(IndexError)
    else
      var lowered := LowerAll(words);
      Ok(JoinWith(lowered[0 := Capitalize(lowered[0])], ' '))
  }

  /** Reading a shaped line back into words gives one word per selected word,
      each naming the same dictionary key once upper-cased; the first is
      capitalized and the others are lower-case. */
  lemma ShapeLineWords(words: seq<string>)
    requires words != []
    requires forall i :: 0 <= i < |words| ==> ' ' !in words[i]
    ensures |SplitOn(ShapeLine(words).value, ' ')| == |words|
    ensures forall i :: 0 <= i < |words| ==> Upper(SplitOn(ShapeLine(words).value, ' ')[i]) == Upper(words[i])
    ensures SplitOn(ShapeLine(words).value, ' ')[0] == Capitalize(words[0])
    ensures forall i :: 1 <= i < |words| ==> SplitOn(ShapeLine(words).value, ' ')[i] == Lower(words[i])
  {
    var lowered := LowerAll(words);
    var pieces := lowered[0 := Capitalize(lowered[0])];
    CaseMapsKeepSpaces(lowered[0], ' ');
    UpperOfCapitalize(lowered[0]);
    assert forall i :: 0 <= i < |pieces| ==> ' ' !in pieces[i] && Upper(pieces[i]) == Upper(words[i]);
    SplitOnJoin(pieces, ' ');
    assert Capitalize(Lower(words[0])) == Capitalize(words[0]);
  }

  /** `random_line`: select the words, then shape them into a line. */
  method RandomLine(counts: map<string, nat>, syls: int, draws: seq<string>)
    returns (out: Outcome<string>)
    requires forall i :: 0 <= i < |draws| ==> draws[i] in counts
    ensures syls <= 0 ==> out == Raised(IndexError)
    ensures out.Done? ==> syls > 0
    ensures out.Done? && (forall k :: k in counts ==> ' ' !in k) ==>
              CountSyls(counts, SplitOn(out.value, ' ')) == Ok(syls)
    ensures out.Raised? ==>
              out.error == IndexError
              || (out.error.KeyError? && out.error.key !in counts
                  && exists k :: k in counts && Upper(k) == out.error.key)
  {
    var selection := SelectWords(counts, syls, draws);
    match selection
    case OutOfDraws =>
      return OutOfDraws;
    case Raised(e) =>
      return Raised(e);
    case Done(words) =>
      var line := ShapeLine(words);
      if line.Err? {
        return Raised(line.error);
      }
      if forall k :: k in counts ==> ' ' !in k {
        ShapeLineWords(words);
        CountSylsUpperOnly(counts, SplitOn(line.value, ' '), words);
      }
      return Done(line.value);
  }
}
