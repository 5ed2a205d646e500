/** UUID recognition and `match_uuid` (bot.rb:33-35).

    The pattern `[0-9a-f]{8}-[0-9a-f]{4}-[0-9a-f]{4}-[0-9a-f]{4}-[0-9a-f]{12}`
    accepts lowercase hexadecimal digits only. `match_uuid` matches
    the regex `.*(UUID).*` without the multiline flag, so `.` stops at a newline:
    Ruby reports the match that starts leftmost and, for that start, the one
    whose greedy `.*` is longest. */
module Uuid {
  import opened Results
  import opened Text

  predicate IsLowerHex(c: char) {
    '0' <= c <= '9' || 'a' <= c <= 'f'
  }

  /** The canonical 8-4-4-4-12 form in lowercase hexadecimal. */
  predicate IsUuid(u: string) {
    |u| == 36 &&
    forall k | 0 <= k < 36 ::
      if k == 8 || k == 13 || k == 18 || k == 23 then u[k] == '-' else IsLowerHex(u[k])
  }

  /** A UUID occupies `s[i..i + 36]`. */
  predicate UuidAt(s: string, i: int) {
    0 <= i && i + 36 <= |s| && IsUuid(s[i..i + 36])
  }

  /** the regex `.*(UUID).*` matches `s` with the match starting at `p` and the group
      starting at `i`: the leading `.*` covers `s[p..i]`, which therefore holds
      no newline (the trailing `.*` always matches, possibly empty). */
  predicate RegexMatch(s: string, p: int, i: int) {
    0 <= p <= i && UuidAt(s, i) && NoNewline(s, p, i)
  }

  /** The match Ruby reports: no match starts further left, and for its start
      no group starts further right (greedy `.*`). */
  ghost predicate LeftmostGreedy(s: string, p: int, i: int) {
    && RegexMatch(s, p, i)
    && (forall p', i' | 0 <= p' < p :: !RegexMatch(s, p', i'))
    && (forall i' | i < i' :: !RegexMatch(s, p, i'))
  }

  /** Start index and group index of a match. */
  datatype Span = Span(start: int, index: int)

  /** The end of the line that begins at `from`: the next newline, or the end of `s`. */
  function LineEnd(s: string, from: int): (e: int)
    requires 0 <= from <= |s|
    ensures from <= e <= |s| && NoNewline(s, from, e)
    ensures e < |s| ==> s[e] == '\n'
    decreases |s| - from
  {
    if from == |s| || s[from] == '\n' then from else LineEnd(s, from + 1)
  }

  /** The right-most UUID lying wholly inside `s[lo..hi]`. */
  function LastUuidIn(s: string, lo: int, hi: int): (r: Option<int>)
    requires 0 <= lo <= hi <= |s|
    ensures r.Some? ==> lo <= r.value && r.value + 36 <= hi && UuidAt(s, r.value)
    ensures r.Some? ==> forall j | r.value < j && j + 36 <= hi :: !UuidAt(s, j)
    ensures r.None? ==> forall j | lo <= j && j + 36 <= hi :: !UuidAt(s, j)
    decreases hi - lo
  {
    if hi - lo < 36 then None
    else if IsUuid(s[hi - 36..hi]) then Some(hi - 36)
    else LastUuidIn(s, lo, hi - 1)
  }

  /** Scans line by line from `from`: the first line that holds a UUID gives
      the match, its right-most UUID the group. */
  function MatchFrom(s: string, from: int): (r: Option<Span>)
    requires 0 <= from <= |s|
    ensures r.Some? ==> from <= r.value.start && RegexMatch(s, r.value.start, r.value.index)
    decreases |s| - from
  {
    var e := LineEnd(s, from);
    match LastUuidIn(s, from, e)
    case Some(i) => Some(Span(from, i))
    case None => if e == |s| then None else MatchFrom(s, e + 1)
  }

  /** `match_uuid(data)`: the first capture group of the regex `.*(UUID).*`; with no
      match Ruby evaluates `nil[1]` and raises. */
  function MatchUuid(s: string): (r: Result<string>)
    ensures r.Success? ==> IsUuid(r.value) && Contains(s, r.value)
    ensures r.Fail? ==> r.error == UuidNotFound
  {
    match MatchFrom(s, 0)
    case Some(m) => assert OccursAt(s, m.index, s[m.index..m.index + 36]); Success(s[m.index..m.index + 36])
    case None => Fail(UuidNotFound)
  }

  /** A UUID holds no newline. */
  lemma UuidCharNotNewline(s: string, i: int, k: int)
    requires UuidAt(s, i) && i <= k < i + 36
    ensures s[k] != '\n'
  {
    assert s[i..i + 36][k - i] == s[k];
  }

  /** A match starting inside a line lies wholly inside that line. */
  lemma MatchStaysInLine(s: string, p: int, i: int, e: int)
    requires RegexMatch(s, p, i) && p <= e <= |s|
    requires e < |s| ==> s[e] == '\n'
    ensures i + 36 <= e
  {
    if i <= e < i + 36 {
      UuidCharNotNewline(s, i, e);
    }
  }

  /** What `MatchFrom` returns is the leftmost-starting, greedy match among
      those starting at or after `from`; `None` means there is none. */
  lemma {:induction false} MatchFromLeftmostGreedy(s: string, from: int)
    requires 0 <= from <= |s|
    ensures MatchFrom(s, from).Some? ==>
      var m := MatchFrom(s, from).value;
      && (forall p, i | from <= p < m.start :: !RegexMatch(s, p, i))
      && (forall i | m.index < i :: !RegexMatch(s, m.start, i))
    ensures MatchFrom(s, from).None? ==> forall p, i | from <= p :: !RegexMatch(s, p, i)
    decreases |s| - from
  {
    var e := LineEnd(s, from);
    var last := LastUuidIn(s, from, e);
    if last.Some? {
      forall i | last.value < i
        ensures !RegexMatch(s, from, i)
      {
        if RegexMatch(s, from, i) {
          MatchStaysInLine(s, from, i, e);
        }
      }
    } else {
      forall p, i | from <= p <= e
        ensures !RegexMatch(s, p, i)
      {
        if RegexMatch(s, p, i) {
          MatchStaysInLine(s, p, i, e);
        }
      }
      if e < |s| {
        MatchFromLeftmostGreedy(s, e + 1);
      }
    }
  }

  /** `match_uuid` fails exactly when no UUID occurs anywhere, and otherwise
      returns the group of the match Ruby reports: the last UUID on the first
      line that holds one. */
  lemma MatchUuidIsRubyMatch(s: string)
    ensures MatchUuid(s).Fail? <==> forall i :: !UuidAt(s, i)
    ensures MatchUuid(s).Success? ==>
      exists p, i :: LeftmostGreedy(s, p, i) && MatchUuid(s).value == s[i..i + 36]
  {
    MatchFromLeftmostGreedy(s, 0);
    if MatchFrom(s, 0).None? {
      forall i ensures !UuidAt(s, i) {
        if UuidAt(s, i) {
          assert RegexMatch(s, i, i);
        }
      }
    } else {
      var m := MatchFrom(s, 0).value;
      assert LeftmostGreedy(s, m.start, m.index);
    }
  }

  /** On a text without newlines that ends with a UUID, `match_uuid` returns
      that final UUID, whatever UUIDs come before it. */
  lemma MatchUuidSingleLineLast(s: string)
    requires |s| >= 36 && NoNewline(s, 0, |s|) && UuidAt(s, |s| - 36)
    ensures MatchUuid(s) == Success(s[|s| - 36..])
  {
    var e := LineEnd(s, 0);
    assert e == |s|;
    assert IsUuid(s[|s| - 36..|s|]);
    assert LastUuidIn(s, 0, e) == Some(|s| - 36);
    assert MatchFrom(s, 0) == Some(Span(0, |s| - 36));
    assert s[|s| - 36..|s|] == s[|s| - 36..];
  }
}
