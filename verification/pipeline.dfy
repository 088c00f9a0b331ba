/** The data preparation of the script's main block: drop the dictionary
    words the reference text never uses, and count syllables. Reading the two
    files and printing the poems are not modelled; the parsed dictionary and
    the lexicon are parameters. */
module Pipeline {
  import opened CaseMap
  import opened Pronunciation
  import opened Syllables

  method BuildSylCounts(pron: PronDict, lexicon: map<string, nat>) returns (counts: map<string, nat>)
    ensures forall k :: k in counts <==> k in pron && k in lexicon
    ensures forall k :: k in counts ==> counts[k] == |VowelPositions(pron[k])|
    ensures (forall k :: k in lexicon ==> IsUpperCase(k)) ==>
              forall words :: (forall i :: 0 <= i < |words| ==> words[i] in counts) ==>
                CountSyls(counts, words).Ok?
  {
    var filtered := FilterDict(pron, lexicon);
    counts := GetSylCountDict(filtered);
    if forall k :: k in lexicon ==> IsUpperCase(k) {
      forall words | forall i :: 0 <= i < |words| ==> words[i] in counts
        ensures CountSyls(counts, words).Ok?
      {
        UpperKeysCountWithoutError(counts, words);
      }
    }
  }
}
