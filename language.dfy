/**
 * Case-insensitive comparison of language codes
 * (src/utils/language/isSameLanguage.ts). `toLowerCase` is modelled on the
 * ASCII letters.
 */
module Language {
  import opened Outcomes

  function LowerChar(c: char): (d: char)
    ensures 'A' <= c <= 'Z' ==> d as int == c as int + 32
    ensures !('A' <= c <= 'Z') ==> d == c
  {
    if 'A' <= c <= 'Z' then (c as int + 32) as char else c
  }

  function UpperChar(c: char): (d: char)
    ensures 'a' <= c <= 'z' ==> d as int == c as int - 32
    ensures !('a' <= c <= 'z') ==> d == c
  {
    if 'a' <= c <= 'z' then (c as int - 32) as char else c
  }

  /** `String.prototype.toLowerCase` on ASCII letters. */
  function ToLower(s: string): (r: string)
    ensures |r| == |s|
  {
    if s == [] then [] else [LowerChar(s[0])] + ToLower(s[1..])
  }

  /** `String.prototype.toUpperCase` on ASCII letters. */
  function ToUpper(s: string): (r: string)
    ensures |r| == |s|
  {
    if s == [] then [] else [UpperChar(s[0])] + ToUpper(s[1..])
  }

  /**
   * `isSameLanguage(lang1, lang2)`: false when either is missing or empty,
   * otherwise whether the two agree after lower-casing.
   */
  function IsSameLanguage(lang1: Option<string>, lang2: Option<string>): (r: bool)
    ensures lang1.None? || lang2.None? ==> !r
    ensures lang1 == Some([]) || lang2 == Some([]) ==> !r
    ensures lang1.Some? && lang2.Some? && lang1.value != [] && lang2.value != [] ==>
              (r <==> ToLower(lang1.value) == ToLower(lang2.value))
  {
    if lang1.None? || lang1.value == [] || lang2.None? || lang2.value == [] then false
    else ToLower(lang1.value) == ToLower(lang2.value)
  }

  lemma IsSameLanguageSymmetric(lang1: Option<string>, lang2: Option<string>)
    ensures IsSameLanguage(lang1, lang2) == IsSameLanguage(lang2, lang1)
  {
  }

  /** Lower-casing the upper-cased or the lower-cased string gives its lower-case form. */
  lemma {:induction false} LowerAbsorbsCase(s: string)
    ensures ToLower(ToUpper(s)) == ToLower(s)
    ensures ToLower(ToLower(s)) == ToLower(s)
  {
    if s != [] {
      LowerAbsorbsCase(s[1..]);
      assert ToUpper(s)[1..] == ToUpper(s[1..]);
      assert ToLower(s)[1..] == ToLower(s[1..]);
    }
  }

  /** A non-empty code matches itself and its upper- and lower-cased forms. */
  lemma MatchesOwnCases(s: string)
    requires s != []
    ensures IsSameLanguage(Some(s), Some(s))
    ensures IsSameLanguage(Some(s), Some(ToUpper(s)))
    ensures IsSameLanguage(Some(s), Some(ToLower(s)))
  {
    LowerAbsorbsCase(s);
  }

  /** Two codes that both match a third match each other. */
  lemma IsSameLanguageTransitive(a: Option<string>, b: Option<string>, c: Option<string>)
    requires IsSameLanguage(a, b) && IsSameLanguage(b, c)
    ensures IsSameLanguage(a, c)
  {
  }
}
