/** The vocabulary of the reference text (`get_lexicon` in random_haiku.py):
    every whitespace-separated token is upper-cased, stripped of punctuation at
    both ends, and counted. The file read is not modelled; the lexicon is built
    from the text it returns. */
module Lexicon {
  import opened CaseMap
  import opened Split

  /** The number of punctuation characters `s` starts with. */
  function LeadingPunctuation(s: string): (n: nat)
    ensures n <= |s|
    ensures forall k :: 0 <= k < n ==> IsPunctuation(s[k])
    ensures n == |s| || !IsPunctuation(s[n])
  {
    if s != [] && IsPunctuation(s[0]) then 1 + LeadingPunctuation(s[1..]) else 0
  }

  /** The number of punctuation characters `s` ends with. */
  function TrailingPunctuation(s: string): (n: nat)
    ensures n <= |s|
    ensures forall k :: |s| - n <= k < |s| ==> IsPunctuation(s[k])
    ensures n == |s| || !IsPunctuation(s[|s| - n - 1])
  {
    if s != [] && IsPunctuation(s[|s| - 1]) then 1 + TrailingPunctuation(s[..|s| - 1]) else 0
  }

  /** `str.strip(chars)` with the lexicon's punctuation set: what is left
      neither starts nor ends with punctuation. */
  function Strip(s: string): (r: string)
    ensures r == [] || (!IsPunctuation(r[0]) && !IsPunctuation(r[|r| - 1]))
  {
    var t := s[LeadingPunctuation(s)..];
    t[..|t| - TrailingPunctuation(t)]
  }

  /** `Strip` keeps a contiguous slice of the token, and everything it drops
      is punctuation. */
  lemma StripIsTrim(s: string) returns (i: nat, j: nat)
    ensures i <= j <= |s| && Strip(s) == s[i..j]
    ensures forall k :: 0 <= k < i ==> IsPunctuation(s[k])
    ensures forall k :: j <= k < |s| ==> IsPunctuation(s[k])
  {
    i := LeadingPunctuation(s);
    var t := s[i..];
    j := i + |t| - TrailingPunctuation(t);
    assert t[..|t| - TrailingPunctuation(t)] == s[i..j];
    forall k | j <= k < |s| ensures IsPunctuation(s[k]) {
      assert s[k] == t[k - i];
    }
  }

  /** A lexicon key: upper-case, with no punctuation at either end. */
  predicate IsLexiconKey(k: string) {
    IsUpperCase(k) && (k == [] || (!IsPunctuation(k[0]) && !IsPunctuation(k[|k| - 1])))
  }

  /** Stripping an upper-case token gives a lexicon key no longer than it. */
  lemma StripKeepsUpperCase(u: string)
    requires IsUpperCase(u)
    ensures IsLexiconKey(Strip(u)) && |Strip(u)| <= |u|
  {
  }

  /** One token as the lexicon records it: upper-cased, then stripped. */
  function Normalize(token: string): (k: string)
    ensures IsLexiconKey(k)
    ensures |k| <= |token|
  {
    var u := Upper(token);
    UpperIsUpperCase(token);
    StripKeepsUpperCase(u);
    Strip(u)
  }

  /** Every token normalised in place: each result is a lexicon key no longer
      than its token. */
  function NormalizeAll(tokens: seq<string>): (ks: seq<string>)
    ensures |ks| == |tokens|
    ensures forall i :: 0 <= i < |tokens| ==> ks[i] == Normalize(tokens[i])
    ensures forall i :: 0 <= i < |tokens| ==> IsLexiconKey(ks[i]) && |ks[i]| <= |tokens[i]|
  {
    seq(|tokens|, i requires 0 <= i < |tokens| => Normalize(tokens[i]))
  }

  /** The counting loop: create or increment one entry per token, in order.
      Each key is a token that occurs, and its value is how often it occurs. */
  function Tally(ts: seq<string>): (m: map<string, nat>)
    ensures forall t :: t in m <==> t in ts
    ensures forall t :: t in m ==> m[t] == multiset(ts)[t]
  {
    if ts == [] then map[]
    else
      var prev := Tally(ts[..|ts| - 1]);
      var t := ts[|ts| - 1];
      assert ts == ts[..|ts| - 1] + [t];
      prev[t := (if t in prev then prev[t] else 0) + 1]
  }

  /** `get_lexicon` applied to the text of the file. */
  function GetLexicon(text: string): (lex: map<string, nat>)
    ensures forall k :: k in lex ==> IsLexiconKey(k)
    ensures forall k :: k in lex <==> k in NormalizeAll(SplitWhitespace(text))
    ensures forall k :: k in lex ==> lex[k] == multiset(NormalizeAll(SplitWhitespace(text)))[k] > 0
  {
    Tally(NormalizeAll(SplitWhitespace(text)))
  }

  /** The sum of the values of a map. */
  ghost function MapSum(m: map<string, nat>): nat
    decreases |m|
  {
    if m == map[] then 0
    else
      var k :| k in m;
      assert (m - {k}).Keys == m.Keys - {k};
      m[k] + MapSum(m - {k})
  }

  /** The sum does not depend on which key is taken out first. */
  lemma {:induction false} MapSumRemove(m: map<string, nat>, k: string)
    requires k in m
    ensures MapSum(m) == m[k] + MapSum(m - {k})
    decreases |m|
  {
    var k' :| k' in m && MapSum(m) == m[k'] + MapSum(m - {k'});
    if k' != k {
      assert (m - {k'}).Keys == m.Keys - {k'};
      assert (m - {k}).Keys == m.Keys - {k};
      MapSumRemove(m - {k'}, k);
      MapSumRemove(m - {k}, k');
      assert m - {k'} - {k} == m - {k} - {k'};
    }
  }

  /** Counting one more occurrence raises the sum by one. */
  lemma MapSumIncrement(m: map<string, nat>, t: string)
    ensures MapSum(m[t := (if t in m then m[t] else 0) + 1]) == MapSum(m) + 1
  {
    var m' := m[t := (if t in m then m[t] else 0) + 1];
    MapSumRemove(m', t);
    assert m' - {t} == m - {t};
    if t in m {
      MapSumRemove(m, t);
    } else {
      assert m - {t} == m;
    }
  }

  lemma {:induction false} TallySum(ts: seq<string>)
    ensures MapSum(Tally(ts)) == |ts|
  {
    if ts != [] {
      var init := ts[..|ts| - 1];
      var t := ts[|ts| - 1];
      var prev := Tally(init);
      TallySum(init);
      assert Tally(ts) == prev[t := (if t in prev then prev[t] else 0) + 1];
      MapSumIncrement(prev, t);
    }
  }

  /** Every token of the text is counted exactly once: the lexicon's counts
      add up to the number of whitespace-separated tokens. */
  lemma LexiconTotal(text: string)
    ensures MapSum(GetLexicon(text)) == |SplitWhitespace(text)|
  {
    TallySum(NormalizeAll(SplitWhitespace(text)));
  }
}
