/** java.lang.String.equalsIgnoreCase, as far as the plugin relies on it.
    Case folding is modelled for the ASCII letters only. */
module JavaStrings {

  function ToUpperAscii(c: char): char {
    if 'a' <= c <= 'z' then (c as int - 32) as char else c
  }

  function ToLowerAscii(c: char): char {
    if 'A' <= c <= 'Z' then (c as int + 32) as char else c
  }

  /** Two characters match when they are equal, when their upper-case forms are
      equal, or when the lower-case forms of their upper-case forms are equal
      (the three tests of String.regionMatches with ignoreCase set). */
  predicate CharEqualsIgnoreCase(a: char, b: char) {
    || a == b
    || ToUpperAscii(a) == ToUpperAscii(b)
    || ToLowerAscii(ToUpperAscii(a)) == ToLowerAscii(ToUpperAscii(b))
  }

  /** s.equalsIgnoreCase(t): same length and pairwise matching characters. */
  predicate EqualsIgnoreCase(s: string, t: string) {
    |s| == |t| && forall i | 0 <= i < |s| :: CharEqualsIgnoreCase(s[i], t[i])
  }

  /** The string with every ASCII upper-case letter lowered. */
  function ToLowerCase(s: string): (r: string)
    ensures |r| == |s|
    ensures forall i | 0 <= i < |s| :: r[i] == ToLowerAscii(s[i])
  {
    seq(|s|, i requires 0 <= i < |s| => ToLowerAscii(s[i]))
  }

  lemma CharEqualsIgnoreCaseIsSameLower(a: char, b: char)
    ensures CharEqualsIgnoreCase(a, b) <==> ToLowerAscii(a) == ToLowerAscii(b)
  {
  }

  /** Ignoring case is the same as comparing the lower-cased strings. */
  lemma EqualsIgnoreCaseIsSameLower(s: string, t: string)
    ensures EqualsIgnoreCase(s, t) <==> ToLowerCase(s) == ToLowerCase(t)
  {
  }
}
