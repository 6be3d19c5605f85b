/** The e-mail check and normalisation of `User.__init__` (models.py, lines 14-16):
    `re.match(r"[^@]+@[^@]+\.[^@]+", email)` and `email.lower()`. */
module Emails {
  import opened Results

  /** No `@` among `s[lo..hi]`. */
  predicate NoAtBetween(s: string, lo: int, hi: int)
    requires 0 <= lo <= hi <= |s|
  {
    forall n | lo <= n < hi :: s[n] != '@'
  }

  /** The pattern matches the prefix `s[..k]` with its `@` at `i` and its `.` at `j`: one or
      more non-`@` characters, `@`, one or more non-`@` characters, `.`, one or more non-`@`
      characters. */
  ghost predicate MatchAt(s: string, i: int, j: int, k: int) {
    && 0 < i && i + 1 < j && j + 1 < k <= |s|
    && NoAtBetween(s, 0, i) && s[i] == '@'
    && NoAtBetween(s, i + 1, j) && s[j] == '.'
    && NoAtBetween(s, j + 1, k)
  }

  /** `re.match` anchors the pattern at the start of the string only, so any prefix may match. */
  ghost predicate MatchesPattern(s: string) {
    exists i, j, k :: MatchAt(s, i, j, k)
  }

  /** The position of the first `c` at or after `from`, or `|s|` when there is none. */
  function IndexOfChar(s: string, c: char, from: nat): (i: nat)
    requires from <= |s|
    ensures from <= i <= |s|
    ensures forall n | from <= n < i :: s[n] != c
    ensures i < |s| ==> s[i] == c
    decreases |s| - from
  {
    if from == |s| || s[from] == c then from else IndexOfChar(s, c, from + 1)
  }

  /** Decides the pattern: the first `@` is not the first character, and the run of non-`@`
      characters after it has a `.` that is neither its first nor its last character. */
  function IsValidEmail(s: string): (r: bool)
    ensures r <==> MatchesPattern(s)
  {
    var i := IndexOfChar(s, '@', 0);
    if i == 0 || i == |s| then
      NoMatchWithoutLeadingPart(s);
      false
    else
      var e := IndexOfChar(s, '@', i + 1);
      var ok := exists j | i + 2 <= j < e - 1 :: s[j] == '.';
      if ok then
        var j :| i + 2 <= j < e - 1 && s[j] == '.';
        assert MatchAt(s, i, j, e);
        true
      else
        MatchHasDotInSegment(s);
        false
  }

  lemma NoMatchWithoutLeadingPart(s: string)
    requires IndexOfChar(s, '@', 0) == 0 || IndexOfChar(s, '@', 0) == |s|
    ensures !MatchesPattern(s)
  {
  }

  /** A match uses the first `@`, and its dot lies strictly inside the run of non-`@`
      characters that follows it. */
  lemma MatchHasDotInSegment(s: string)
    requires 0 < IndexOfChar(s, '@', 0) < |s|
    ensures var i := IndexOfChar(s, '@', 0);
            var e := IndexOfChar(s, '@', i + 1);
            MatchesPattern(s) ==> exists j | i + 2 <= j < e - 1 :: s[j] == '.'
  {
    var i := IndexOfChar(s, '@', 0);
    var e := IndexOfChar(s, '@', i + 1);
    if MatchesPattern(s) {
      var a, b, c :| MatchAt(s, a, b, c);
      assert i + 2 <= b < e - 1 && s[b] == '.';
    }
  }

  /** An address without `@` never matches. */
  lemma NoAtRejected(s: string)
    requires '@' !in s
    ensures !MatchesPattern(s)
  {
    forall n | 0 <= n < |s| ensures s[n] != '@' {
      assert s[n] in s;
    }
  }

  /** An address whose only `@` is its last character never matches: the pattern needs at
      least three characters after the `@`. */
  lemma NothingAfterAtRejected(s: string)
    requires |s| > 0 && s[|s| - 1] == '@' && '@' !in s[..|s| - 1]
    ensures !MatchesPattern(s)
  {
    forall n | 0 <= n < |s| - 1 ensures s[n] != '@' {
      assert s[n] == s[..|s| - 1][n];
    }
  }

  /** Python's `str.lower()` on the ASCII letters. */
  function LowerChar(c: char): char {
    if 'A' <= c <= 'Z' then (c as int + 32) as char else c
  }

  /** `email.lower()`, character by character. */
  function Lower(s: string): (r: string)
    ensures |r| == |s|
    ensures forall n | 0 <= n < |s| :: r[n] == LowerChar(s[n])
  {
    seq(|s|, n requires 0 <= n < |s| => LowerChar(s[n]))
  }

  /** Lower-casing twice is lower-casing once: a normalised address stays as it is. */
  lemma LowerIdempotent(s: string)
    ensures Lower(Lower(s)) == Lower(s)
  {
    assert forall n | 0 <= n < |s| :: LowerChar(LowerChar(s[n])) == LowerChar(s[n]);
  }

  /** Two characters that are equal, or an ASCII capital and its small letter. */
  predicate SameUpToCase(a: char, b: char) {
    || a == b
    || ('A' <= a <= 'Z' && b as int == a as int + 32)
    || ('A' <= b <= 'Z' && a as int == b as int + 32)
  }

  /** Two addresses normalise to the same address exactly when they differ only in the case of
      letters, which is what lets callers find duplicates by the stored e-mail. */
  lemma LowerIgnoresCase(s: string, t: string)
    ensures Lower(s) == Lower(t) <==> |s| == |t| && forall n | 0 <= n < |s| :: SameUpToCase(s[n], t[n])
  {
    if Lower(s) == Lower(t) {
      forall n | 0 <= n < |s| ensures SameUpToCase(s[n], t[n]) {
        assert Lower(s)[n] == Lower(t)[n];
      }
    }
  }

  /** Lower-casing never turns a character into `@` or `.` or takes one away, so the stored,
      normalised address still matches the pattern. */
  lemma LowerKeepsPattern(s: string)
    requires MatchesPattern(s)
    ensures MatchesPattern(Lower(s))
  {
    var i, j, k :| MatchAt(s, i, j, k);
    assert MatchAt(Lower(s), i, j, k);
  }

  /** Since only the start is anchored, whatever follows a matching address is never checked. */
  lemma MatchIgnoresSuffix(s: string, tail: string)
    requires MatchesPattern(s)
    ensures MatchesPattern(s + tail)
  {
    var i, j, k :| MatchAt(s, i, j, k);
    assert MatchAt(s + tail, i, j, k);
  }

  const InvalidEmail := ValueError("Invalid email format")

  /** The first step of `User.__init__`: reject an address that does not match, else keep its
      lower-cased form. */
  function NormalizeEmail(email: string): (r: Result<string>)
    ensures r.Err? <==> !MatchesPattern(email)
    ensures r.Err? ==> r.error == InvalidEmail
    ensures r.Ok? ==> r.value == Lower(email) && MatchesPattern(r.value) && Lower(r.value) == r.value
  {
    if IsValidEmail(email) then
      LowerKeepsPattern(email);
      LowerIdempotent(email);
      Ok(Lower(email))
    else
      Err(InvalidEmail)
  }
}
