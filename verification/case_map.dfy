/** The character classes and case maps the script relies on: `str.upper`,
    `str.lower`, `str.capitalize`, the whitespace of `str.split()` and the
    punctuation stripped from lexicon tokens. Only ASCII is modelled. */
module CaseMap {

  predicate IsLowerChar(c: char) {
    'a' <= c <= 'z'
  }

  predicate IsUpperChar(c: char) {
    'A' <= c <= 'Z'
  }

  function UpperChar(c: char): (u: char)
    ensures !IsLowerChar(u)
    ensures IsLowerChar(c) ==> IsUpperChar(u) && u as int == c as int - 32
    ensures !IsLowerChar(c) ==> u == c
  {
    if IsLowerChar(c) then (c as int - 32) as char else c
  }

  function LowerChar(c: char): (l: char)
    ensures !IsUpperChar(l)
    ensures IsUpperChar(c) ==> IsLowerChar(l) && l as int == c as int + 32
    ensures !IsUpperChar(c) ==> l == c
  {
    if IsUpperChar(c) then (c as int + 32) as char else c
  }

  /** `str.upper()`, restricted to ASCII letters. */
  function Upper(s: string): (u: string)
    ensures |u| == |s|
    ensures forall i :: 0 <= i < |s| ==> u[i] == UpperChar(s[i])
  {
    seq(|s|, i requires 0 <= i < |s| => UpperChar(s[i]))
  }

  /** `str.lower()`, restricted to ASCII letters. */
  function Lower(s: string): (l: string)
    ensures |l| == |s|
    ensures forall i :: 0 <= i < |s| ==> l[i] == LowerChar(s[i])
  {
    seq(|s|, i requires 0 <= i < |s| => LowerChar(s[i]))
  }

  /** `str.capitalize()`: the first character upper-cased, the rest lower-cased. */
  function Capitalize(s: string): (c: string)
    ensures |c| == |s|
    ensures |s| > 0 ==> c[0] == UpperChar(s[0]) && c[1..] == Lower(s[1..])
  {
    if s == [] then [] else [UpperChar(s[0])] + Lower(s[1..])
  }

  /** A string with no lower-case letter, as `str.upper()` produces. */
  predicate IsUpperCase(s: string) {
    forall i :: 0 <= i < |s| ==> !IsLowerChar(s[i])
  }

  /** The ASCII characters `str.split()` with no argument separates on: the
      space, tab, line feed, vertical tab, form feed and carriage return, and
      the four information separators U+001C to U+001F, which Python also
      counts as whitespace. */
  predicate IsSpace(c: char) {
    || c == ' ' || c == '\t' || c == '\n' || c == '\r' || c == '\U{000B}' || c == '\U{000C}'
    || '\U{001C}' <= c <= '\U{001F}'
  }

  /** `string.punctuation` (the ASCII ranges `!`..`/`, `:`..`@`, `[`..`` ` ``
      and `{`..`~`) together with the two curly single quotes that the
      lexicon builder strips as well. */
  predicate IsPunctuation(c: char) {
    || '!' <= c <= '/'
    || ':' <= c <= '@'
    || '[' <= c <= '`'
    || '{' <= c <= '~'
    || c == '‘' || c == '’'
  }

  /** Upper-casing yields an upper-case string and fixes upper-case strings:
      applied twice it changes nothing more. */
  lemma UpperIsUpperCase(s: string)
    ensures IsUpperCase(Upper(s))
    ensures IsUpperCase(s) <==> Upper(s) == s
  {
  }

  /** Lower-casing a word first does not change which dictionary key it
      upper-cases to. */
  lemma UpperOfLower(s: string)
    ensures Upper(Lower(s)) == Upper(s)
  {
  }

  /** Capitalizing does not change which dictionary key a word upper-cases to. */
  lemma UpperOfCapitalize(s: string)
    ensures Upper(Capitalize(s)) == Upper(s)
  {
  }

  /** Case maps never introduce or remove a space character. */
  lemma CaseMapsKeepSpaces(s: string, c: char)
    requires IsSpace(c)
    ensures c in Lower(s) <==> c in s
    ensures c in Capitalize(s) <==> c in s
  {
  }
}
