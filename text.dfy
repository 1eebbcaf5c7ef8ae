/** First-occurrence substring search and replacement on strings, with the
    semantics of JavaScript's `String.prototype.indexOf(pattern)` and
    `String.prototype.replace(pattern, replacement)` for a string pattern and
    a replacement without `$` sequences. Indices count characters, not
    UTF-16 code units. */
module Text {
  import opened Options

  /** `pat` occurs in `s` starting at index `i`. */
  predicate OccursAt(s: string, pat: string, i: nat) {
    i + |pat| <= |s| && s[i..i + |pat|] == pat
  }

  /** `pat` occurs somewhere in `s`. */
  predicate Contains(s: string, pat: string) {
    exists i: nat :: i <= |s| && OccursAt(s, pat, i)
  }

  /** `i` is the leftmost occurrence of `pat` in `s`. */
  predicate FirstAt(s: string, pat: string, i: nat) {
    OccursAt(s, pat, i) && forall j: nat :: j < i ==> !OccursAt(s, pat, j)
  }

  /** Leftmost occurrence of `pat` in `s` at or after `from`. */
  function IndexFrom(s: string, pat: string, from: nat): (r: Option<nat>)
    ensures r.Some? ==> from <= r.value && OccursAt(s, pat, r.value)
    ensures forall j: nat :: from <= j && (r.None? || j < r.value) ==> !OccursAt(s, pat, j)
    decreases |s| - from
  {
    if from + |pat| > |s| then None
    else if s[from..from + |pat|] == pat then Some(from)
    else IndexFrom(s, pat, from + 1)
  }

  /** `s.indexOf(pat)`, with `None` for -1; the index counts characters, not
      UTF-16 code units. */
  function IndexOf(s: string, pat: string): (r: Option<nat>)
    ensures r.Some? <==> Contains(s, pat)
    ensures r.Some? ==> FirstAt(s, pat, r.value)
  {
    IndexFrom(s, pat, 0)
  }

  /** `s.replace(pat, rep)` for a string `pat`: only the leftmost occurrence
      is replaced, and `rep` is inserted as it stands (JavaScript would
      expand `$&`, `$$`, `` $` `` and `$'` in it). */
  function ReplaceFirst(s: string, pat: string, rep: string): (r: string)
    ensures !Contains(s, pat) ==> r == s
    ensures forall i: nat :: FirstAt(s, pat, i) ==> r == s[..i] + rep + s[i + |pat|..]
    ensures Contains(s, pat) ==> |r| == |s| - |pat| + |rep|
  {
    match IndexOf(s, pat)
    case None => s
    case Some(i) => s[..i] + rep + s[i + |pat|..]
  }

  /** A pattern that starts with a dash and has no other dash in it. */
  predicate DashLed(p: string) {
    |p| > 0 && p[0] == '-' && forall k :: 0 < k < |p| ==> p[k] != '-'
  }

  /** Appending a dash-led tail to a string free of a dash-led pattern `p`
      cannot create an occurrence of `p` that starts inside the original string:
      it would have to put the tail's leading dash at a position where `p` has none. */
  lemma NoEarlyOccurrence(x: string, t: string, p: string, i: nat)
    requires !Contains(x, p) && DashLed(p)
    requires |t| > 0 && t[0] == '-'
    requires i < |x|
    ensures !OccursAt(x + t, p, i)
  {
    if i + |p| <= |x| {
      assert (x + t)[i..i + |p|] == x[i..i + |p|];
      assert !OccursAt(x, p, i);
    } else if i + |p| <= |x + t| {
      var k := |x| - i;
      assert (x + t)[i..i + |p|][k] == t[0] == '-' != p[k];
    }
  }

  /** In `x + p` with `x` free of the dash-led pattern `p`, the leftmost
      occurrence of `p` is the appended one. */
  lemma FirstAtSuffix(x: string, p: string)
    requires !Contains(x, p) && DashLed(p)
    ensures FirstAt(x + p, p, |x|)
  {
    assert (x + p)[|x|..|x| + |p|] == p;
    forall j: nat | j < |x| ensures !OccursAt(x + p, p, j) {
      NoEarlyOccurrence(x, p, p, j);
    }
  }

  /** A dash-led tail shorter than the dash-led pattern `p` appended to a string
      free of `p` leaves it free of `p`. */
  lemma AbsentAfterShortTail(x: string, t: string, p: string)
    requires !Contains(x, p) && DashLed(p)
    requires 0 < |t| < |p| && t[0] == '-'
    ensures !Contains(x + t, p)
  {
    forall i: nat ensures !OccursAt(x + t, p, i) {
      if i < |x| {
        NoEarlyOccurrence(x, t, p, i);
      }
    }
  }
}
