/** String predicates that stand in for the regular expressions of the bot.
    Ruby's `^` matches at the start of the string and just after every
    newline; `.` matches any character except a newline. */
module Text {

  /** `p` occurs in `s` starting at index `i`. */
  predicate OccursAt(s: string, i: int, p: string) {
    0 <= i && i + |p| <= |s| && s[i..i + |p|] == p
  }

  /** `p` occurs somewhere in `s` (an unanchored regex match of a literal). */
  predicate Contains(s: string, p: string) {
    exists i | 0 <= i <= |s| :: OccursAt(s, i, p)
  }

  /** Index `i` is where Ruby's `^` matches: the start of `s` or just after a newline. */
  predicate LineStart(s: string, i: int) {
    i == 0 || (0 < i <= |s| && s[i - 1] == '\n')
  }

  /** `p` occurs in `s` at the start of some line (`/^p/`). */
  predicate AtSomeLineStart(s: string, p: string) {
    exists i | 0 <= i <= |s| :: LineStart(s, i) && OccursAt(s, i, p)
  }

  /** No newline in `s[lo..hi]`: a `.*` can cover exactly such a stretch. */
  predicate NoNewline(s: string, lo: int, hi: int)
    requires 0 <= lo <= hi <= |s|
  {
    forall k | lo <= k < hi :: s[k] != '\n'
  }

  /** A character at the occurrence of a non-empty pattern is a character of the text. */
  lemma OccurrenceChars(s: string, i: int, p: string, k: int)
    requires OccursAt(s, i, p) && 0 <= k < |p|
    ensures s[i + k] == p[k]
  {
    assert s[i..i + |p|][k] == p[k];
  }
}
