/**
 The three string operations the page script relies on, over `seq<char>`:
 `String.prototype.includes`, `String.prototype.replace` with a string
 pattern (first occurrence only), and `replace(/\/$/, '')` (drop one
 trailing slash).
 */
module JsStrings {
  import opened Wrappers

  /** `t` occurs in `s` starting at index `i`. */
  ghost predicate OccursAt(s: string, t: string, i: int)
  {
    0 <= i <= |s| && t <= s[i..]
  }

  /** `s.includes(t)`: `t` is a prefix of `s` or of one of its tails. */
  predicate Includes(s: string, t: string)
    ensures Includes(s, t) ==> |t| <= |s|
    decreases |s|
  {
    t <= s || (|s| > 0 && Includes(s[1..], t))
  }

  /** An occurrence in the tail `s[1..]` is an occurrence in `s`, one index further on. */
  lemma OccursInTail(s: string, t: string)
    requires |s| > 0
    ensures forall k :: 0 < k <= |s| ==> (OccursAt(s, t, k) <==> OccursAt(s[1..], t, k - 1))
  {
  }

  /** `includes` holds exactly when there is an index where `t` occurs. */
  lemma {:induction false} IncludesIff(s: string, t: string)
    ensures Includes(s, t) <==> exists i :: OccursAt(s, t, i)
    decreases |s|
  {
    if t <= s {
      assert OccursAt(s, t, 0);
    } else if |s| > 0 {
      IncludesIff(s[1..], t);
      OccursInTail(s, t);
      if Includes(s, t) {
        var j :| OccursAt(s[1..], t, j);
        assert OccursAt(s, t, j + 1);
      }
      if exists i :: OccursAt(s, t, i) {
        var i :| OccursAt(s, t, i);
        assert OccursAt(s[1..], t, i - 1);
      }
    }
  }

  /** A string always includes itself when it is glued between any two strings. */
  lemma IncludesInfix(a: string, t: string, b: string)
    ensures Includes(a + t + b, t)
  {
    var s := a + t + b;
    assert s[|a|..] == t + b;
    assert OccursAt(s, t, |a|);
    IncludesIff(s, t);
  }

  /** Inclusion is transitive: a substring of a substring is a substring. */
  lemma IncludesTransitive(s: string, u: string, t: string)
    requires Includes(s, u) && Includes(u, t)
    ensures Includes(s, t)
  {
  }

  /** A string holding a character that `s` lacks is not included in `s`. */
  lemma MissingCharExcludes(s: string, t: string, k: int)
    requires 0 <= k < |t| && t[k] !in s
    ensures !Includes(s, t)
  {
  }

  /** `s.indexOf(t)`: the first index where `t` occurs, or None (JavaScript's -1). */
  function IndexOf(s: string, t: string): (r: Option<nat>)
    ensures r.Some? ==> OccursAt(s, t, r.value) && forall k :: 0 <= k < r.value ==> !OccursAt(s, t, k)
    ensures r.None? <==> !Includes(s, t)
    decreases |s|
  {
    if t <= s then Some(0)
    else if |s| == 0 then None
    else
      OccursInTail(s, t);
      match IndexOf(s[1..], t)
      case None => None
      case Some(i) => Some(i + 1)
  }

  /**
   `s.replace(pat, rep)` with a string pattern: the first occurrence of `pat`
   is replaced by `rep`, everything before and after it is kept; with no
   occurrence the string is returned as it is.
   */
  function ReplaceFirst(s: string, pat: string, rep: string): (r: string)
    ensures !Includes(s, pat) ==> r == s
    ensures Includes(s, pat) ==>
      var i := IndexOf(s, pat).value;
      && |r| == |s| - |pat| + |rep|
      && r[..i] == s[..i]
      && r[i..i + |rep|] == rep
      && r[i + |rep|..] == s[i + |pat|..]
  {
    match IndexOf(s, pat)
    case None => s
    case Some(i) => s[..i] + rep + s[i + |pat|..]
  }

  /** `s.replace(/\/$/, '')`: `$` without the `m` flag anchors at the very end, so one slash at most goes. */
  function StripTrailingSlash(s: string): (r: string)
    ensures r <= s && |s| - 1 <= |r|
    ensures |r| < |s| <==> |s| > 0 && s[|s| - 1] == '/'
  {
    if |s| > 0 && s[|s| - 1] == '/' then s[..|s| - 1] else s
  }
}
