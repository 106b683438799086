/**
 * Lower-casing of currency ids, as `String.toLowerCase` is used by the
 * currency lookup. Only the ASCII letters A-Z are mapped; every other
 * character is left as it is.
 */
module Text {

  predicate IsUpper(ch: char) {
    'A' <= ch <= 'Z'
  }

  /** A string with no upper-case letter in it. */
  predicate IsLowerCase(s: string) {
    forall i :: 0 <= i < |s| ==> !IsUpper(s[i])
  }

  function LowerChar(ch: char): (r: char)
    ensures !IsUpper(r)
    ensures !IsUpper(ch) ==> r == ch
  {
    if IsUpper(ch) then (ch as int - 'A' as int + 'a' as int) as char else ch
  }

  /** The string with every upper-case letter replaced by its lower-case form. */
  function ToLowerCase(s: string): (r: string)
    ensures |r| == |s|
    ensures IsLowerCase(r)
    ensures forall i :: 0 <= i < |s| ==> r[i] == LowerChar(s[i])
  {
    if s == [] then [] else [LowerChar(s[0])] + ToLowerCase(s[1..])
  }

  /** A string that is already lower-case is its own lower-case form. */
  lemma LowerCaseIsFixed(s: string)
    requires IsLowerCase(s)
    ensures ToLowerCase(s) == s
  {
  }

  /** Lower-casing twice is lower-casing once. */
  lemma ToLowerCaseIdempotent(s: string)
    ensures ToLowerCase(ToLowerCase(s)) == ToLowerCase(s)
  {
    LowerCaseIsFixed(ToLowerCase(s));
  }

  /**
   * No query lower-cases to a string that has an upper-case letter: a key
   * with one is out of reach of every case-insensitive lookup.
   */
  lemma NotLowerCaseNeverQueried(key: string, query: string)
    requires !IsLowerCase(key)
    ensures ToLowerCase(query) != key
  {
  }
}
