/**
 * The client's email check: does `/\S+@\S+\.\S+/` find a match anywhere in
 * the string? The pattern is not anchored, so it asks for some stretch of
 * the string made of non-blank text, an "@", non-blank text, a "." and
 * non-blank text.
 */
module EmailPattern {

  /** `\s` in a JavaScript regular expression. */
  predicate IsSpace(c: char)
    ensures '!' <= c <= '~' ==> !IsSpace(c)
  {
    || c == ' ' || c == '\t' || c == '\n' || c == '\r' || c == '\U{000B}' || c == '\U{000C}'
    || c == '\U{00A0}' || c == '\U{1680}' || ('\U{2000}' <= c <= '\U{200A}')
    || c == '\U{2028}' || c == '\U{2029}' || c == '\U{202F}' || c == '\U{205F}'
    || c == '\U{3000}' || c == '\U{FEFF}'
  }

  /** `s[lo..hi]` is non-empty and matches `\S+`. */
  ghost predicate NonBlankRun(s: string, lo: int, hi: int) {
    0 <= lo < hi <= |s| && forall k :: lo <= k < hi ==> !IsSpace(s[k])
  }

  /** `s[a..d]` matches `\S+@\S+\.\S+` with the "@" at `b` and the "." at `c`. */
  ghost predicate MatchAt(s: string, a: int, b: int, c: int, d: int) {
    && NonBlankRun(s, a, b)
    && 0 <= b < |s| && s[b] == '@'
    && NonBlankRun(s, b + 1, c)
    && 0 <= c < |s| && s[c] == '.'
    && NonBlankRun(s, c + 1, d)
  }

  /** `/\S+@\S+\.\S+/.test(s)`. */
  ghost predicate EmailLike(s: string)
    ensures EmailLike(s) ==> |s| >= 5 && '@' in s && '.' in s
  {
    exists a, b, c, d :: MatchAt(s, a, b, c, d)
  }

  /**
   * The shortest form of a match: one non-blank character before the "@",
   * non-blank text up to the ".", one non-blank character after it.
   */
  ghost predicate Witness(s: string, b: int, c: int) {
    && 1 <= b && b + 1 < c && c + 1 < |s|
    && s[b] == '@' && s[c] == '.'
    && !IsSpace(s[b - 1]) && !IsSpace(s[c + 1])
    && forall k :: b < k < c ==> !IsSpace(s[k])
  }

  /** A match exists exactly when a shortest-form match does. */
  lemma EmailLikeByWitness(s: string)
    ensures EmailLike(s) <==> exists b, c :: Witness(s, b, c)
  {
    if EmailLike(s) {
      var a, b, c, d :| MatchAt(s, a, b, c, d);
      assert Witness(s, b, c);
    }
    if exists b, c :: Witness(s, b, c) {
      var b, c :| Witness(s, b, c);
      assert MatchAt(s, b - 1, b, c, c + 2);
    }
  }

  /** An "@" at `b` that a match could use: some non-blank character right before it. */
  ghost predicate ValidAt(s: string, b: int) {
    1 <= b < |s| && s[b] == '@' && !IsSpace(s[b - 1])
  }

  /** A blank lies strictly between `b` and `i`. */
  ghost predicate BrokenBefore(s: string, b: int, i: int) {
    exists k :: b < k < i && 0 <= k < |s| && IsSpace(s[k])
  }

  /**
   * Decides the pattern in one left-to-right pass, remembering the earliest
   * usable "@" since the last blank.
   */
  method ContainsEmailPattern(s: string) returns (found: bool)
    ensures found <==> EmailLike(s)
  {
    EmailLikeByWitness(s);
    var at := -1;
    var i := 0;
    while i < |s|
      invariant 0 <= i <= |s|
      invariant forall b, c :: 0 <= c < i ==> !Witness(s, b, c)
      invariant at == -1 ==> forall b :: 0 <= b < i && ValidAt(s, b) ==> BrokenBefore(s, b, i)
      invariant at >= 0 ==> at < i && ValidAt(s, at) && !BrokenBefore(s, at, i)
      invariant at >= 0 ==> forall b :: 0 <= b < at && ValidAt(s, b) ==> BrokenBefore(s, b, i)
    {
      var ch := s[i];
      if ch == '.' && at >= 0 && at + 1 < i && i + 1 < |s| && !IsSpace(s[i + 1]) {
        assert Witness(s, at, i);
        return true;
      }
      forall b ensures !Witness(s, b, i) {
        if 0 <= b < i && ValidAt(s, b) && !BrokenBefore(s, b, i) {
          assert 0 <= at <= b;
        }
      }
      if IsSpace(ch) {
        at := -1;
        forall b | 0 <= b < i + 1 && ValidAt(s, b) ensures BrokenBefore(s, b, i + 1) {
          assert b < i && IsSpace(s[i]);
        }
      } else if ch == '@' && at == -1 && i >= 1 && !IsSpace(s[i - 1]) {
        at := i;
      } else if at >= 0 {
        assert !BrokenBefore(s, at, i + 1);
      }
      i := i + 1;
    }
    return false;
  }
}
