# Haiku word lists, modelled in Dafny

A model of the word-list logic of `random_haiku.py`, a script that prints
random 5/7/5-syllable poems. The script

1. reads the CMU Pronouncing Dictionary, one entry per line: a word followed
   by its ARPAbet phoneme codes (`get_pron_dict`);
2. builds the vocabulary of a reference text: every whitespace-separated token
   upper-cased, stripped of punctuation at both ends, and counted
   (`get_lexicon`);
3. drops every dictionary entry whose word is not in that vocabulary
   (`filter_dict`);
4. counts each word's syllables as the number of its phonemes that end in a
   stress digit `0`, `1` or `2` (`get_syl_count_dict`), and sums them over a
   word list (`count_syls`);
5. assembles a line by drawing distinct words at random, taking back a word
   that overshoots the syllable target, until the target is hit exactly, and
   then lower-cases the words, capitalizes the first and joins them with
   spaces (`random_line`).

Modules, one per step: `CaseMap` (ASCII `upper`/`lower`/`capitalize`, the
whitespace and punctuation sets), `Split` (`str.split(sep)`, `str.split()`,
`sep.join`), `Lexicon`, `Pronunciation`, `Syllables`, `Line`, and `Pipeline`
(the data preparation of the main block). `Wrappers` holds the `Result` type
and the two exceptions the code can raise: `KeyError` and `IndexError`.

The random draws are a parameter: `SelectWords` and `RandomLine` take the
sequence of words `random.choice` would return, each a key of the count map.
When the draws run out before the line is complete the outcome is
`OutOfDraws`. The source loop would keep drawing at that point, possibly
forever. So only partial correctness is proved: whenever a line is produced,
it is right.

Behaviour of the code that the model keeps:

- A dictionary text ending in a newline has an empty last line. For that
  line `line.split()[0]` raises IndexError (`TrailingNewlineFails`).
- The syllable map has exactly the keys of the filtered dictionary, not
  merely a subset of them.
- `count_syls` looks each word up upper-cased. A key whose upper-cased form is
  not itself a key raises KeyError. This cannot happen after the lexicon
  filter, because lexicon keys are upper-case (`GetLexicon`, `BuildSylCounts`).
- A target of 0 or less selects no word, and then `words[0]` raises
  IndexError (`RandomLine`).
- Drawing from an empty map raises IndexError.
- A drawn word already on the line is skipped. In that case the line's count
  is still below the target, so the "take back the last word" step never
  removes an earlier word (`SelectWords`).

## Model

| member | source | states |
|---|---|---|
| CaseMap.UpperChar | random_haiku.py:20 | an upper-cased character is never a lower-case letter; lower-case ASCII letters map to their capitals, everything else is kept |
| CaseMap.LowerChar | random_haiku.py:71 | a lower-cased character is never an upper-case letter; capitals map to their lower-case letters, everything else is kept |
| CaseMap.Upper | random_haiku.py:20 | `str.upper()` on ASCII, character by character; its meaning for lookups is given by `UpperIsUpperCase` (upper-case result, fixed on upper-case strings) |
| CaseMap.Lower | random_haiku.py:71 | `str.lower()` on ASCII, character by character; `UpperOfLower` shows a lower-cased word still looks up the same key |
| CaseMap.Capitalize | random_haiku.py:72 | `str.capitalize()`: first character upper-cased, rest lower-cased; `UpperOfCapitalize` shows the lookup key is kept |
| CaseMap.UpperIsUpperCase | random_haiku.py:20 | upper-casing leaves no lower-case letter, and a string is upper-case exactly when upper-casing fixes it |
| CaseMap.UpperOfLower | random_haiku.py:58-71 | lower-casing a word does not change the key it is looked up under |
| CaseMap.UpperOfCapitalize | random_haiku.py:58-72 | capitalizing a word does not change the key it is looked up under |
| CaseMap.CaseMapsKeepSpaces | random_haiku.py:70-73 | lower-casing and capitalizing neither add nor remove whitespace, so the joined words stay separable |
| Split.SplitOn | random_haiku.py:7 | `str.split(sep)` always yields at least one piece |
| Split.SplitOnPiecesAvoidSep | random_haiku.py:7 | no piece of `str.split(sep)` contains the separator |
| Split.JoinSplitOn | random_haiku.py:7 | joining the pieces with the separator restores the text |
| Split.SplitOnPrefix | random_haiku.py:7 | a separator-free prefix followed by the separator is split off as exactly one piece |
| Split.SplitOnJoin | random_haiku.py:73 | splitting a join of one or more separator-free words returns the words |
| Split.WordLength | random_haiku.py:10 | the leading run is non-space and ends at a space or at the end of the text |
| Split.SplitWhitespaceTokens | random_haiku.py:10 | `str.split()` tokens are space-free and together hold exactly the non-space characters, in order |
| Split.SplitWhitespaceJoin | random_haiku.py:16 | splitting space-free tokens joined by single spaces returns the tokens |
| Split.WordLengthOfWord | random_haiku.py:16 | a space-free token followed by a space or the end of the text is one whole run |
| Split.SplitWhitespace | random_haiku.py:10 | `str.split()` tokens are non-empty and contain no whitespace; `SplitWhitespaceOfSpaces` and `SplitWhitespaceRun` show they are exactly the maximal non-space runs |
| Split.LeadingSpaces | random_haiku.py:10 | the count covers only whitespace and stops at the first non-space character or at the end |
| Split.SplitWhitespaceOfSpaces | random_haiku.py:10 | a text of whitespace only, of any kind and length, splits into no tokens |
| Split.SplitWhitespaceRun | random_haiku.py:10 | after any whitespace, a maximal run of non-space characters is split off as one whole token, followed by the tokens of the rest |
| Split.SplitAfterLeadingSpaces | random_haiku.py:10 | leading whitespace yields no token: the text splits as the text after it does |
| Split.JoinWith | random_haiku.py:73 | `' '.join` of one or more words is as long as the words plus one separator between each pair; `SplitOnJoin` shows splitting on the separator recovers the words |
| Split.RemoveSpacesAppend | random_haiku.py:16 | removing whitespace distributes over concatenation |
| Split.RemoveSpacesOfWord | random_haiku.py:16 | removing whitespace leaves a space-free string unchanged |
| Lexicon.LeadingPunctuation | random_haiku.py:20 | the count covers only punctuation and stops at the first other character or at the end |
| Lexicon.TrailingPunctuation | random_haiku.py:20 | the count covers only punctuation at the end and stops at the last other character or at the start |
| Lexicon.Strip | random_haiku.py:20 | what `strip` leaves neither starts nor ends with punctuation |
| Lexicon.StripIsTrim | random_haiku.py:20 | `strip` keeps a contiguous slice of the token and drops only punctuation |
| Lexicon.Normalize | random_haiku.py:20 | a normalised token is upper-case with no punctuation at either end, and no longer than the token |
| Lexicon.NormalizeAll | random_haiku.py:18-20 | every normalised token is a lexicon key (upper-case, no punctuation at either end) no longer than its token |
| Lexicon.Tally | random_haiku.py:17-21 | the keys are exactly the tokens that occur, each mapped to its number of occurrences |
| Lexicon.GetLexicon | random_haiku.py:16-22 | lexicon keys are the normalised tokens of the text, each upper-case and punctuation-free at both ends, with a positive count equal to its occurrences |
| Lexicon.MapSumRemove | random_haiku.py:21 | the sum of a map's counts does not depend on the order in which keys are taken out |
| Lexicon.MapSumIncrement | random_haiku.py:21 | creating or incrementing one entry raises the total count by one |
| Lexicon.TallySum | random_haiku.py:17-21 | the counts of a tally add up to the number of tokens tallied |
| Lexicon.LexiconTotal | random_haiku.py:16-22 | the lexicon's counts add up to the number of whitespace-separated tokens in the text |
| Pronunciation.ParsePronLine | random_haiku.py:10 | a line parses exactly when it has a non-space character, otherwise IndexError; the word is the maximal non-space run after the leading whitespace, the phonemes are the tokens of the rest of the line, and together they hold all of its non-space characters |
| Pronunciation.FirstRunIsWord | random_haiku.py:10 | a line has a token exactly when it is not all whitespace, and then its first token is the maximal run after the leading whitespace, followed by the tokens of the rest |
| Pronunciation.ParseLines | random_haiku.py:8-11 | the loop succeeds exactly when every line has a token, and fails with IndexError otherwise |
| Pronunciation.ParseLinesKeys | random_haiku.py:9-10 | every dictionary word is the first token of some line |
| Pronunciation.ParseLinesLastWins | random_haiku.py:9-10 | a word's entry holds the phonemes of the last line that defines it |
| Pronunciation.ParsePronDict | random_haiku.py:4-11 | the file text parses exactly when every newline-separated line has a token |
| Pronunciation.ParsedWordsAreTokens | random_haiku.py:10 | every dictionary word is non-empty and free of whitespace |
| Pronunciation.SplitOnTrailingSep | random_haiku.py:7 | text ending in the separator splits into two or more pieces, the last one empty |
| Pronunciation.TrailingNewlineFails | random_haiku.py:7-10 | a dictionary text ending in a newline raises IndexError |
| Pronunciation.FilterDict | random_haiku.py:24-29 | exactly the entries whose word is in the lexicon remain, with their phoneme lists unchanged |
| Syllables.SylCount | random_haiku.py:44-51 | a word never has more syllables than phonemes |
| Syllables.SylCountIsVowelPositions | random_haiku.py:44-51 | the count equals the number of positions holding a phoneme that ends in a stress digit |
| Syllables.CountVowels | random_haiku.py:44-51 | the loop returns the number of phonemes ending in `0`-`2`, at most the number of phonemes |
| Syllables.GetSylCountDict | random_haiku.py:37-52 | the result has exactly the keys of the dictionary, each mapped to its pronunciation's vowel count |
| Syllables.CountSyls | random_haiku.py:54-59 | the sum succeeds exactly when every upper-cased word is a key, and otherwise raises KeyError naming a missing upper-cased word |
| Syllables.CountSylsAppend | random_haiku.py:54-59 | the count of no words is 0, and the count of `a + b` is the count of `a` plus that of `b`, with the left failure first |
| Syllables.CountSylsUpperOnly | random_haiku.py:58 | two lists whose words agree once upper-cased have the same count |
| Syllables.UpperKeysCountWithoutError | random_haiku.py:58 | with upper-case keys, a list of keys never raises KeyError |
| Line.SelectWords | random_haiku.py:63-69 | a finished selection has distinct words, all keys, whose count equals the target; a target of 0 or less selects nothing; an empty map raises IndexError; the only other failure is KeyError for a key not upper-case |
| Line.LowerAll | random_haiku.py:70-71 | every lower-cased word has no upper-case letter, still looks up the same key once upper-cased, and contains a space exactly when the word did |
| Line.ShapeLine | random_haiku.py:70-73 | shaping fails with IndexError exactly when there is no word |
| Line.ShapeLineWords | random_haiku.py:70-73 | read back on spaces, the line has one piece per word, the first capitalized, the rest lower-case, each naming the same key |
| Line.RandomLine | random_haiku.py:61-73 | a produced line is for a positive target, and read back on spaces its words' syllables sum to the target; a target of 0 or less raises IndexError |
| Pipeline.BuildSylCounts | random_haiku.py:88-90 | the count map's keys are exactly the dictionary words present in the lexicon, each mapped to its vowel count; with an upper-case lexicon, as `get_lexicon` builds it, no list of its keys raises KeyError |

## Left out

- File reading (`open(...).read()` in `get_pron_dict` and `get_lexicon`): I/O. The texts the reads return are parameters of `ParsePronDict` and `GetLexicon`, and `BuildSylCounts` takes their results.
- `print_dict`, `print_haiku` and the printing loop of the main block: output only.
- `random.choice`: replaced by a supplied sequence of draws, each a key of the count map. `random_line` may loop forever when the remaining count is unreachable, so termination is not modelled. Running out of draws gives `OutOfDraws`.
- Unicode: `upper`, `lower` and `capitalize` are modelled on ASCII letters only. `str.split()` separates on ASCII whitespace only. So length-changing case maps (such as `ß`) are not covered, and neither are the non-ASCII characters Python also splits on (such as U+0085, U+00A0, U+2000 to U+200A, U+2028, U+3000). The punctuation set is `string.punctuation` plus the two curly single quotes, as in the source.
- `filter_dict` deletes entries from its argument in place and returns `None`; the main block then uses the mutated dictionary. `FilterDict` instead returns the filtered map, and `BuildSylCounts` passes that map on, so the entries that reach `get_syl_count_dict` are the same.
- Dictionary iteration order: `filter_dict` and `get_syl_count_dict` visit keys in insertion order, while the model visits them in an unspecified order. Their results do not depend on the order.
- `ph[-1]` on an empty phoneme code: phoneme codes come from `str.split()` and are never empty. The model's `Token` type makes this explicit.
- RandomLine: the sum-equals-target property is stated for the line read back on spaces. It needs every key to be free of spaces, which parsed dictionary words are (`ParsedWordsAreTokens`).
