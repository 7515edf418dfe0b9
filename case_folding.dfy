/**
 * Case folding as `str.upper()` and `str.lower()` perform it on ASCII letters.
 * Characters other than `a`..`z` and `A`..`Z` are left unchanged.
 */
module CaseFolding {

  function UpperChar(c: char): char {
    if 'a' <= c <= 'z' then (c as int - 32) as char else c
  }

  function LowerChar(c: char): char {
    if 'A' <= c <= 'Z' then (c as int + 32) as char else c
  }

  /** `s.upper()` */
  function Upper(s: string): string {
    seq(|s|, i requires 0 <= i < |s| => UpperChar(s[i]))
  }

  /** `s.lower()` */
  function Lower(s: string): string {
    seq(|s|, i requires 0 <= i < |s| => LowerChar(s[i]))
  }

  /**
   * Two characters are the same letter up to case: equal, or an ASCII letter
   * and its counterpart in the other case, 32 code points away.
   */
  predicate SameIgnoringCase(x: char, y: char) {
    || x == y
    || ('a' <= x <= 'z' && y as int == x as int - 32)
    || ('A' <= x <= 'Z' && y as int == x as int + 32)
  }

  /**
   * Reference definition of case-insensitive equality, position by position,
   * stated without either folding function.
   */
  predicate EqualsIgnoringCase(a: string, b: string) {
    |a| == |b| && forall i :: 0 <= i < |a| ==> SameIgnoringCase(a[i], b[i])
  }

  lemma UpperCharEqualIffSame(x: char, y: char)
    ensures UpperChar(x) == UpperChar(y) <==> SameIgnoringCase(x, y)
  {
  }

  lemma LowerCharEqualIffSame(x: char, y: char)
    ensures LowerChar(x) == LowerChar(y) <==> SameIgnoringCase(x, y)
  {
  }

  /** Comparing upper-cased strings is case-insensitive equality. */
  lemma UpperEqualIffEqualsIgnoringCase(a: string, b: string)
    ensures Upper(a) == Upper(b) <==> EqualsIgnoringCase(a, b)
  {
    if Upper(a) == Upper(b) {
      forall i | 0 <= i < |a| ensures SameIgnoringCase(a[i], b[i]) {
        assert Upper(a)[i] == Upper(b)[i];
        UpperCharEqualIffSame(a[i], b[i]);
      }
    }
    if EqualsIgnoringCase(a, b) {
      forall i | 0 <= i < |a| ensures Upper(a)[i] == Upper(b)[i] {
        UpperCharEqualIffSame(a[i], b[i]);
      }
    }
  }

  /** Comparing lower-cased strings is case-insensitive equality. */
  lemma LowerEqualIffEqualsIgnoringCase(a: string, b: string)
    ensures Lower(a) == Lower(b) <==> EqualsIgnoringCase(a, b)
  {
    if Lower(a) == Lower(b) {
      forall i | 0 <= i < |a| ensures SameIgnoringCase(a[i], b[i]) {
        assert Lower(a)[i] == Lower(b)[i];
        LowerCharEqualIffSame(a[i], b[i]);
      }
    }
    if EqualsIgnoringCase(a, b) {
      forall i | 0 <= i < |a| ensures Lower(a)[i] == Lower(b)[i] {
        LowerCharEqualIffSame(a[i], b[i]);
      }
    }
  }
}
