/**
 * The regular expression the mock translator uses to pull a value out of a
 * request, `KEY(.+?)($|\s+and|\s+where|\s+with)` with `KEY` either
 * `email is ` or `category is ` (src/lib/database.ts:183,188): `String.match`
 * tries the start positions from the left; at each one the lazy group takes
 * the shortest non-empty run of characters other than line terminators after
 * which the alternation matches. Group 1 is the value returned here.
 * The `i` flag changes nothing: the text searched is already lower case and
 * the pattern's letters are lower-case ASCII.
 */
module CapturePattern {
  import opened Records
  import opened Strings

  /** The characters `.` does not match. */
  predicate IsLineTerminator(c: char) {
    c == '\n' || c == '\r' || c == '\U{2028}' || c == '\U{2029}'
  }

  predicate NoLineTerminator(s: string) {
    forall i :: 0 <= i < |s| ==> !IsLineTerminator(s[i])
  }

  /** The end of the run of whitespace that starts at `k`. */
  function SkipWhitespace(s: string, k: nat): (j: nat)
    requires k <= |s|
    ensures k <= j <= |s|
    ensures forall m :: k <= m < j ==> IsJsWhitespace(s[m])
    ensures j == |s| || !IsJsWhitespace(s[j])
    decreases |s| - k
  {
    if k < |s| && IsJsWhitespace(s[k]) then SkipWhitespace(s, k + 1) else k
  }

  /** One of the words that may follow the whitespace run. */
  predicate StopWordAt(s: string, j: nat) {
    OccursAt(s, "and", j) || OccursAt(s, "where", j) || OccursAt(s, "with", j)
  }

  /** The alternation `($|\s+and|\s+where|\s+with)` matches at `k`. The
      greedy run is taken whole: no stop word starts with whitespace, so
      backing off inside the run never helps (see StopsAtIff). */
  predicate StopsAt(s: string, k: nat) {
    k <= |s| &&
    (k == |s| || (IsJsWhitespace(s[k]) && StopWordAt(s, SkipWhitespace(s, k))))
  }

  /** A stop word starts with a letter, not with whitespace. */
  lemma StopWordStartsWithLetter(s: string, j: nat)
    requires StopWordAt(s, j)
    ensures j < |s| && !IsJsWhitespace(s[j])
  {
    if OccursAt(s, "and", j) {
      assert s[j..j + 3][0] == s[j];
    } else if OccursAt(s, "where", j) {
      assert s[j..j + 5][0] == s[j];
    } else {
      assert s[j..j + 4][0] == s[j];
    }
  }

  /** A whitespace run from `k` that stops before a non-whitespace
      character ends where SkipWhitespace ends. */
  lemma BlankRunEndsAtSkip(s: string, k: nat, j: nat)
    requires k < j < |s|
    requires IsBlank(s[k..j]) && !IsJsWhitespace(s[j])
    ensures SkipWhitespace(s, k) == j
  {
    var e := SkipWhitespace(s, k);
    assert forall m :: k <= m < j ==> s[m] == s[k..j][m - k];
    assert e <= j;
  }

  /** The regular-expression reading of the alternation: end of input, or
      one or more whitespace characters and then a stop word. */
  lemma StopsAtIff(s: string, k: nat)
    requires k < |s|
    ensures StopsAt(s, k) <==>
      exists j :: k < j <= |s| && IsBlank(s[k..j]) && StopWordAt(s, j)
  {
    var e := SkipWhitespace(s, k);
    if StopsAt(s, k) {
      assert e > k;
      assert IsBlank(s[k..e]);
    }
    if exists j :: k < j <= |s| && IsBlank(s[k..j]) && StopWordAt(s, j) {
      var j :| k < j <= |s| && IsBlank(s[k..j]) && StopWordAt(s, j);
      StopWordStartsWithLetter(s, j);
      BlankRunEndsAtSkip(s, k, j);
      assert IsJsWhitespace(s[k]) by {
        assert s[k..j][0] == s[k];
      }
    }
  }

  /** The lazy group may end at `e` when it started at `b`. */
  predicate LazyAccepts(s: string, b: nat, e: nat) {
    b < e <= |s| && NoLineTerminator(s[b..e]) && StopsAt(s, e)
  }

  /** No end is accepted for a group that starts at `b`. */
  ghost predicate NeverAccepts(s: string, b: nat) {
    forall e :: !LazyAccepts(s, b, e)
  }

  /** `(.+?)` then the alternation, the group starting at `b`: the smallest
      end `e >= k` the expression accepts, trying `k, k + 1, ...` in turn. */
  function LazyEnd(s: string, b: nat, k: nat): (r: Option<nat>)
    requires b < k <= |s|
    requires NoLineTerminator(s[b..k - 1])
    requires forall m :: b < m < k ==> !StopsAt(s, m)
    ensures r.Some? ==> k <= r.value && LazyAccepts(s, b, r.value)
    ensures r.Some? ==> forall m :: b < m < r.value ==> !StopsAt(s, m)
    ensures r.None? ==> NeverAccepts(s, b)
    decreases |s| - k
  {
    if IsLineTerminator(s[k - 1]) then
      assert forall e :: k <= e <= |s| ==> s[b..e][k - 1 - b] == s[k - 1];
      None
    else
      assert s[b..k] == s[b..k - 1] + [s[k - 1]];
      if StopsAt(s, k) then Some(k)
      else LazyEnd(s, b, k + 1)
  }

  /** The group of a match that starts at position `p`, if there is one. */
  function CaptureAt(s: string, key: string, p: nat): (r: Option<string>)
    ensures r.Some? ==> OccursAt(s, key, p)
    ensures r.Some? ==> |r.value| >= 1 && LazyAccepts(s, p + |key|, p + |key| + |r.value|)
    ensures r.Some? ==> s[p + |key|..p + |key| + |r.value|] == r.value
    ensures r.Some? ==> forall m :: p + |key| < m < p + |key| + |r.value| ==> !StopsAt(s, m)
    ensures r.None? ==> !OccursAt(s, key, p) || NeverAccepts(s, p + |key|)
  {
    var b := p + |key|;
    if OccursAt(s, key, p) && b < |s| then
      match LazyEnd(s, b, b + 1)
      case Some(e) => Some(s[b..e])
      case None => None
    else None
  }

  /** The leftmost start position from `p` on at which a match exists. */
  function FirstMatchFrom(s: string, key: string, p: nat): (r: Option<nat>)
    requires p <= |s|
    ensures r.Some? ==> p <= r.value <= |s| && CaptureAt(s, key, r.value).Some?
    ensures r.Some? ==> forall q :: p <= q < r.value ==> CaptureAt(s, key, q).None?
    ensures r.None? ==> forall q :: p <= q <= |s| ==> CaptureAt(s, key, q).None?
    decreases |s| - p
  {
    if CaptureAt(s, key, p).Some? then Some(p)
    else if p == |s| then None
    else FirstMatchFrom(s, key, p + 1)
  }

  /** `s.match(KEY(.+?)(...))?.[1]`: the group of the leftmost match. */
  function Capture(s: string, key: string): (r: Option<string>)
    ensures r.Some? ==> |r.value| >= 1 && NoLineTerminator(r.value)
    ensures r.Some? ==> Includes(s, key + r.value)
    ensures r.None? <==> forall q :: 0 <= q <= |s| ==> CaptureAt(s, key, q).None?
  {
    match FirstMatchFrom(s, key, 0)
    case Some(p) =>
      var c := CaptureAt(s, key, p).value;
      assert s[p..p + |key| + |c|] == s[p..p + |key|] + s[p + |key|..p + |key| + |c|];
      IncludesAt(s, key + c, p);
      CaptureAt(s, key, p)
    case None => None
  }

  /** A value taken from a lower-cased text has no upper-case letter. */
  lemma CaptureOfLowerCase(s: string, key: string)
    requires forall i :: 0 <= i < |s| ==> !IsUpperAscii(s[i])
    requires Capture(s, key).Some?
    ensures forall i :: 0 <= i < |Capture(s, key).value| ==> !IsUpperAscii(Capture(s, key).value[i])
  {
    var c := Capture(s, key).value;
    IncludesIff(s, key + c);
    var i: nat :| OccursAt(s, key + c, i);
    forall k | 0 <= k < |c|
      ensures !IsUpperAscii(c[k])
    {
      assert c[k] == (key + c)[|key| + k] == s[i + |key| + k];
    }
  }
}
