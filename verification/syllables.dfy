/** Syllable counts (`get_syl_count_dict` and `count_syls` in
    random_haiku.py). In the CMU Pronouncing Dictionary every vowel phoneme,
    and no consonant, ends in a stress digit 0, 1 or 2, so a word has as many
    syllables as its pronunciation has phonemes ending in one of those. */
module Syllables {
  import opened Wrappers
  import opened CaseMap
  import opened Split
  import opened Pronunciation

  /** A phoneme code that carries a stress digit, i.e. a vowel. */
  predicate IsVowel(ph: Token) {
    '0' <= ph[|ph| - 1] <= '2'
  }

  /** The number of vowels of a pronunciation, counted from the left. */
  function SylCount(ps: seq<Token>): (n: nat)
    ensures n <= |ps|
  {
    if ps == [] then 0
    else SylCount(ps[..|ps| - 1]) + (if IsVowel(ps[|ps| - 1]) then 1 else 0)
  }

  /** The positions of the vowels of a pronunciation. */
  function VowelPositions(ps: seq<Token>): set<nat> {
    set i: nat | i < |ps| && IsVowel(ps[i])
  }

  /** The count is exactly the number of vowel positions. */
  lemma {:induction false} SylCountIsVowelPositions(ps: seq<Token>)
    ensures SylCount(ps) == |VowelPositions(ps)|
  {
    if ps != [] {
      var init := ps[..|ps| - 1];
      SylCountIsVowelPositions(init);
      var n := |ps| - 1;
      var before := VowelPositions(init);
      var after := VowelPositions(ps);
      forall i: nat ensures i in after <==> i in before || (i == n && IsVowel(ps[n])) {
        if i < n {
          assert init[i] == ps[i];
        }
      }
      assert n !in before;
      if IsVowel(ps[n]) {
        assert after == before + {n};
      } else {
        assert after == before;
      }
    }
  }

  /** The inner loop of `get_syl_count_dict`: one pass over the phonemes. */
  method CountVowels(phonemes: seq<Token>) returns (syls: nat)
    ensures syls == |VowelPositions(phonemes)|
    ensures syls <= |phonemes|
  {
    syls := 0;
    var i := 0;
    while i < |phonemes|
      invariant 0 <= i <= |phonemes|
      invariant syls == SylCount(phonemes[..i])
    {
      assert phonemes[..i + 1][..i] == phonemes[..i];
      if '0' <= phonemes[i][|phonemes[i]| - 1] <= '2' {
        syls := syls + 1;
      }
      i := i + 1;
    }
    assert phonemes[..i] == phonemes;
    SylCountIsVowelPositions(phonemes);
  }

  /** `get_syl_count_dict`: the same keys as the pronunciation dictionary,
      each mapped to the syllable count of its pronunciation. */
  method GetSylCountDict(pron: PronDict) returns (counts: map<string, nat>)
    ensures counts.Keys == pron.Keys
    ensures forall k :: k in counts ==> counts[k] == |VowelPositions(pron[k])| <= |pron[k]|
  {
    counts := map[];
    var remaining := pron.Keys;
    while remaining != {}
      invariant remaining <= pron.Keys
      invariant counts.Keys == pron.Keys - remaining
      invariant forall k :: k in counts ==> counts[k] == |VowelPositions(pron[k])| <= |pron[k]|
      decreases remaining
    {
      var key :| key in remaining;
      var syls := CountVowels(pron[key]);
      counts := counts[key := syls];
      remaining := remaining - {key};
    }
  }

  /** `count_syls`: the sum of the syllable counts of the words, each looked
      up upper-cased. The first word whose upper-cased form is not a key
      raises KeyError. */
  function CountSyls(counts: map<string, nat>, words: seq<string>): (r: Result<nat>)
    ensures r.Ok? <==> forall i :: 0 <= i < |words| ==> Upper(words[i]) in counts
    ensures r.Err? ==> exists i :: 0 <= i < |words| && r.error == KeyError(Upper(words[i]))
                                   && Upper(words[i]) !in counts
  {
    if words == [] then Ok(0)
    else if Upper(words[0]) !in counts then Err(KeyError(Upper(words[0])))
    else
      var rest :- CountSyls(counts, words[1..]);
      Ok(counts[Upper(words[0])] + rest)
  }

  /** The count of nothing is 0, and the count of a concatenation is the sum of
      the counts of its parts; a failure in either part is the failure of the
      whole, the left part's first. */
  lemma {:induction false} CountSylsAppend(counts: map<string, nat>, a: seq<string>, b: seq<string>)
    ensures CountSyls(counts, []) == Ok(0)
    ensures CountSyls(counts, a + b) ==
              if CountSyls(counts, a).Err? then CountSyls(counts, a)
              else if CountSyls(counts, b).Err? then CountSyls(counts, b)
              else Ok(CountSyls(counts, a).value + CountSyls(counts, b).value)
  {
    if a != [] {
      CountSylsAppend(counts, a[1..], b);
      assert (a + b)[1..] == a[1..] + b;
      assert (a + b)[0] == a[0];
    } else {
      assert a + b == b;
    }
  }

  /** The count only looks at the upper-cased form of each word. */
  lemma {:induction false} CountSylsUpperOnly(counts: map<string, nat>, a: seq<string>, b: seq<string>)
    requires |a| == |b|
    requires forall i :: 0 <= i < |a| ==> Upper(a[i]) == Upper(b[i])
    ensures CountSyls(counts, a) == CountSyls(counts, b)
  {
    if a != [] {
      CountSylsUpperOnly(counts, a[1..], b[1..]);
    }
  }

  /** When every key is upper-case, a list of keys never raises KeyError. */
  lemma UpperKeysCountWithoutError(counts: map<string, nat>, words: seq<string>)
    requires forall k :: k in counts ==> IsUpperCase(k)
    requires forall i :: 0 <= i < |words| ==> words[i] in counts
    ensures CountSyls(counts, words).Ok?
  {
    forall i | 0 <= i < |words| ensures Upper(words[i]) in counts {
      UpperIsUpperCase(words[i]);
    }
  }
}
