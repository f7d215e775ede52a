/**
 * Literal replace-all on strings, as JavaScript's `s.replace(/marker/g, ...)` does it
 * when the pattern is a plain marker text: the string is scanned from the left, each
 * match is replaced, and scanning resumes after the match (matches never overlap).
 * The lemmas say when a replacement leaves text alone, when it distributes over a
 * concatenation, and when two successive replacements collapse into one.
 */
module Text {

  /** `p` occurs in `s` starting at index `i`. */
  predicate OccursAt(s: string, p: string, i: nat)
  {
    i + |p| <= |s| && s[i..i + |p|] == p
  }

  predicate StartsWith(s: string, p: string)
  {
    |p| <= |s| && s[..|p|] == p
  }

  /** `p` occurs somewhere in `s` (what a regex made of plain characters matches). */
  predicate Occurs(s: string, p: string)
    decreases |s|
  {
    StartsWith(s, p) || (|s| > 0 && Occurs(s[1..], p))
  }

  /** Every match of `p` in `s` replaced by `r`, scanning left to right. */
  function ReplaceAll(s: string, p: string, r: string): string
    requires |p| > 0
    decreases |s|
  {
    if |s| < |p| then s
    else if StartsWith(s, p) then r + ReplaceAll(s[|p|..], p, r)
    else [s[0]] + ReplaceAll(s[1..], p, r)
  }

  /** The number of matches ReplaceAll replaces. */
  function MatchCount(s: string, p: string): nat
    requires |p| > 0
    decreases |s|
  {
    if |s| < |p| then 0
    else if StartsWith(s, p) then 1 + MatchCount(s[|p|..], p)
    else MatchCount(s[1..], p)
  }

  /** The first character of `p` appears nowhere else in `p` (true of `<!--...-->` markers). */
  predicate FirstCharUnique(p: string)
  {
    |p| > 0 && forall j :: 0 < j < |p| ==> p[j] != p[0]
  }

  /** The last character of `p` appears nowhere else in `p`. */
  predicate LastCharUnique(p: string)
  {
    |p| > 0 && forall j :: 0 <= j < |p| - 1 ==> p[j] != p[|p| - 1]
  }

  /** `c` is not a character of `s`. */
  predicate Lacks(s: string, c: char)
  {
    forall j :: 0 <= j < |s| ==> s[j] != c
  }

  /** No match of `p` in `a + b` starts inside `a` and ends inside `b`. */
  predicate NoStraddle(a: string, b: string, p: string)
  {
    forall i: nat :: i < |a| && |a| < i + |p| ==> !OccursAt(a + b, p, i)
  }

  lemma {:induction false} OccursNeedsLength(s: string, p: string)
    requires Occurs(s, p)
    ensures |p| <= |s|
    decreases |s|
  {
    if !StartsWith(s, p) {
      OccursNeedsLength(s[1..], p);
    }
  }

  /** A match inside `t` is still a match inside `a + t`. */
  lemma {:induction false} OccursAfterPrefix(a: string, t: string, p: string)
    requires Occurs(t, p)
    ensures Occurs(a + t, p)
    decreases |a|
  {
    if |a| == 0 {
      assert a + t == t;
    } else {
      assert (a + t)[1..] == a[1..] + t;
      OccursAfterPrefix(a[1..], t, p);
    }
  }

  /** Text with no match comes back unchanged. */
  lemma {:induction false} ReplaceAllWithoutMatch(s: string, p: string, r: string)
    requires |p| > 0 && !Occurs(s, p)
    ensures ReplaceAll(s, p, r) == s
    decreases |s|
  {
    if |s| >= |p| {
      ReplaceAllWithoutMatch(s[1..], p, r);
      assert [s[0]] + s[1..] == s;
    }
  }

  /** Replacing a pattern by itself changes nothing. */
  lemma {:induction false} ReplaceAllBySelf(s: string, p: string)
    requires |p| > 0
    ensures ReplaceAll(s, p, p) == s
    decreases |s|
  {
    if |s| >= |p| {
      if StartsWith(s, p) {
        ReplaceAllBySelf(s[|p|..], p);
        assert s[..|p|] + s[|p|..] == s;
      } else {
        ReplaceAllBySelf(s[1..], p);
        assert [s[0]] + s[1..] == s;
      }
    }
  }

  /** If the text has a match, the replacement text shows up in the result. */
  lemma {:induction false} ReplacementAppears(s: string, p: string, r: string)
    requires |p| > 0 && Occurs(s, p)
    ensures Occurs(ReplaceAll(s, p, r), r)
    decreases |s|
  {
    OccursNeedsLength(s, p);
    var t := ReplaceAll(s, p, r);
    if StartsWith(s, p) {
      assert t[..|r|] == r;
    } else {
      ReplacementAppears(s[1..], p, r);
      OccursAfterPrefix([s[0]], ReplaceAll(s[1..], p, r), r);
    }
  }

  /** Each match replaced by `r` changes the length by `|r| - |p|`. */
  lemma {:induction false} ReplaceAllLength(s: string, p: string, r: string)
    requires |p| > 0
    ensures |ReplaceAll(s, p, r)| == |s| + MatchCount(s, p) * (|r| - |p|)
    decreases |s|
  {
    if |s| >= |p| {
      var d := |r| - |p|;
      if StartsWith(s, p) {
        var c := MatchCount(s[|p|..], p);
        ReplaceAllLength(s[|p|..], p, r);
        MulSucc(c, d);
      } else {
        ReplaceAllLength(s[1..], p, r);
      }
    }
  }

  lemma MulSucc(c: nat, d: int)
    ensures (1 + c) * d == d + c * d
  {
  }

  /** Matches are what Occurs finds: the count is positive exactly when the pattern occurs. */
  lemma {:induction false} MatchCountPositive(s: string, p: string)
    requires |p| > 0
    ensures MatchCount(s, p) > 0 <==> Occurs(s, p)
    decreases |s|
  {
    if |s| < |p| {
      if Occurs(s, p) { OccursNeedsLength(s, p); }
    } else if !StartsWith(s, p) {
      MatchCountPositive(s[1..], p);
    }
  }

  /** Dropping the first `k` characters of the left part keeps a concatenation straddle-free. */
  lemma NoStraddleSuffix(a: string, b: string, p: string, k: nat)
    requires k <= |a| && NoStraddle(a, b, p)
    ensures NoStraddle(a[k..], b, p)
  {
    var a' := a[k..];
    assert (a + b)[k..] == a' + b;
    forall i: nat | i < |a'| && |a'| < i + |p|
      ensures !OccursAt(a' + b, p, i)
    {
      assert !OccursAt(a + b, p, i + k);
      if i + |p| <= |a' + b| {
        assert (a' + b)[i..i + |p|] == (a + b)[i + k..i + k + |p|];
      }
    }
  }

  /** Replacement distributes over a concatenation that no match straddles. */
  lemma {:induction false} ReplaceAllConcat(a: string, b: string, p: string, r: string)
    requires |p| > 0 && NoStraddle(a, b, p)
    ensures ReplaceAll(a + b, p, r) == ReplaceAll(a, p, r) + ReplaceAll(b, p, r)
    decreases |a|
  {
    if |a| == 0 {
      assert a + b == b;
    } else if |a + b| < |p| {
      assert ReplaceAll(b, p, r) == b;
    } else if StartsWith(a + b, p) {
      ConcatAtMatch(a, b, p);
      NoStraddleSuffix(a, b, p, |p|);
      ReplaceAllConcat(a[|p|..], b, p, r);
      ConcatMatchStep(a, b, p, r);
    } else {
      NoStraddleSuffix(a, b, p, 1);
      ReplaceAllConcat(a[1..], b, p, r);
      ConcatSkipStep(a, b, p, r);
    }
  }

  lemma {:induction false} ConcatMatchStep(a: string, b: string, p: string, r: string)
    requires 0 < |p| <= |a| && StartsWith(a, p) && StartsWith(a + b, p)
    requires (a + b)[|p|..] == a[|p|..] + b
    requires ReplaceAll(a[|p|..] + b, p, r) == ReplaceAll(a[|p|..], p, r) + ReplaceAll(b, p, r)
    ensures ReplaceAll(a + b, p, r) == ReplaceAll(a, p, r) + ReplaceAll(b, p, r)
  {
  }

  lemma {:induction false} ConcatSkipStep(a: string, b: string, p: string, r: string)
    requires 0 < |p| <= |a + b| && 0 < |a| && !StartsWith(a + b, p)
    requires ReplaceAll(a[1..] + b, p, r) == ReplaceAll(a[1..], p, r) + ReplaceAll(b, p, r)
    ensures ReplaceAll(a + b, p, r) == ReplaceAll(a, p, r) + ReplaceAll(b, p, r)
  {
    assert (a + b)[1..] == a[1..] + b;
    assert ReplaceAll(a + b, p, r) == [a[0]] + (ReplaceAll(a[1..], p, r) + ReplaceAll(b, p, r));
    if |a| >= |p| {
      assert a[..|p|] == (a + b)[..|p|];
      assert ReplaceAll(a, p, r) == [a[0]] + ReplaceAll(a[1..], p, r);
    } else {
      assert ReplaceAll(a[1..], p, r) == a[1..];
      assert ReplaceAll(a, p, r) == a == [a[0]] + a[1..];
    }
  }

  /** A match at the start of a straddle-free `a + b` lies wholly inside `a`. */
  lemma ConcatAtMatch(a: string, b: string, p: string)
    requires |a| > 0 && |p| > 0 && NoStraddle(a, b, p) && StartsWith(a + b, p)
    ensures |p| <= |a| && StartsWith(a, p) && (a + b)[|p|..] == a[|p|..] + b
  {
    assert |a| < |p| ==> !OccursAt(a + b, p, 0);
    assert a[..|p|] == (a + b)[..|p|];
  }

  /** A match of `p` cannot straddle into a text that starts with `p`'s first character. */
  lemma NoStraddleBefore(a: string, b: string, p: string)
    requires FirstCharUnique(p) && |b| > 0 && b[0] == p[0]
    ensures NoStraddle(a, b, p)
  {
    forall i: nat | i < |a| && |a| < i + |p|
      ensures !OccursAt(a + b, p, i)
    {
      if i + |p| <= |a + b| {
        assert (a + b)[i..i + |p|][|a| - i] == b[0];
      }
    }
  }

  /** A match of `p` cannot straddle out of a text that ends with `p`'s last character. */
  lemma NoStraddleAfter(a: string, b: string, p: string)
    requires LastCharUnique(p) && |a| > 0 && a[|a| - 1] == p[|p| - 1]
    ensures NoStraddle(a, b, p)
  {
    forall i: nat | i < |a| && |a| < i + |p|
      ensures !OccursAt(a + b, p, i)
    {
      if i + |p| <= |a + b| {
        assert (a + b)[i..i + |p|][|a| - 1 - i] == a[|a| - 1];
      }
    }
  }

  /**
   * The leftmost match: when `a` holds no match and no match can run from `a` into `p`,
   * the first replacement lands exactly where `p` follows `a`, and the rest of the text
   * is replaced on its own.
   */
  lemma ReplaceAllAtFirstMatch(a: string, b: string, p: string, r: string)
    requires FirstCharUnique(p) && !Occurs(a, p)
    ensures ReplaceAll(a + p + b, p, r) == a + r + ReplaceAll(b, p, r)
  {
    assert a + p + b == a + (p + b);
    NoStraddleBefore(a, p + b, p);
    ReplaceAllConcat(a, p + b, p, r);
    ReplaceAllWithoutMatch(a, p, r);
    assert StartsWith(p + b, p) && (p + b)[|p|..] == b;
    assert ReplaceAll(p + b, p, r) == r + ReplaceAll(b, p, r);
  }

  /**
   * When the replacement starts with the pattern's first character, the result agrees
   * with the input up to the first occurrence of that character in the result.
   */
  lemma {:induction false} ReplaceAllKeepsPrefix(t: string, p: string, r: string, m: nat)
    requires |p| > 0 && |r| > 0 && r[0] == p[0]
    requires m <= |ReplaceAll(t, p, r)|
    requires forall j :: 0 <= j < m ==> ReplaceAll(t, p, r)[j] != p[0]
    ensures m <= |t| && t[..m] == ReplaceAll(t, p, r)[..m]
    decreases |t|
  {
    var u := ReplaceAll(t, p, r);
    if |t| < |p| {
    } else if StartsWith(t, p) {
      assert u[0] == r[0];
    } else if m > 0 {
      var u' := ReplaceAll(t[1..], p, r);
      assert u == [t[0]] + u';
      forall j | 0 <= j < m - 1
        ensures u'[j] != p[0]
      {
        assert u'[j] == u[j + 1];
      }
      ReplaceAllKeepsPrefix(t[1..], p, r, m - 1);
      assert t[..m] == [t[0]] + t[1..][..m - 1];
      assert u[..m] == [t[0]] + u'[..m - 1];
    }
  }

  /**
   * A pattern whose later characters differ from `p[0]` starts the text after a
   * replacement of `p` (by text starting with `p[0]`) only if it started it before.
   */
  lemma StartThroughReplace(c: char, t: string, p: string, r: string, a: string)
    requires |p| > 0 && |r| > 0 && r[0] == p[0] && |a| > 0
    requires forall j :: 0 < j < |a| ==> a[j] != p[0]
    ensures StartsWith([c] + ReplaceAll(t, p, r), a) ==> StartsWith([c] + t, a)
  {
    var y := ReplaceAll(t, p, r);
    if StartsWith([c] + y, a) {
      forall j | 0 <= j < |a| - 1
        ensures y[j] != p[0]
      {
        assert y[j] == ([c] + y)[..|a|][j + 1] == a[j + 1];
      }
      ReplaceAllKeepsPrefix(t, p, r, |a| - 1);
      assert ([c] + t)[..|a|] == [c] + t[..|a| - 1];
      assert y[..|a| - 1] == ([c] + y)[..|a|][1..];
    }
  }

  /**
   * Re-inserting a marker followed by `q`, then replacing the marker by `r`, is the same
   * as replacing the marker by `r + q` in one pass: the text appended after the marker
   * ends up after its final replacement, and no marker is lost or invented on the way.
   */
  lemma {:induction false} ReinsertThenConsume(s: string, p: string, q: string, r: string)
    requires FirstCharUnique(p) && LastCharUnique(p)
    requires !Occurs(q, p) && (q == [] || q[|q| - 1] == p[|p| - 1])
    ensures ReplaceAll(ReplaceAll(s, p, p + q), p, r) == ReplaceAll(s, p, r + q)
    decreases |s|
  {
    if |s| < |p| {
    } else if StartsWith(s, p) {
      var rest := s[|p|..];
      var x := ReplaceAll(rest, p, p + q);
      assert ReplaceAll(s, p, p + q) == (p + q) + x;
      NoStraddleAfter(p + q, x, p);
      ReplaceAllConcat(p + q, x, p, r);
      NoStraddleAfter(p, q, p);
      ReplaceAllConcat(p, q, p, r);
      assert p[..|p|] == p && p[|p|..] == [];
      assert ReplaceAll(p, p, r) == r + ReplaceAll([], p, r);
      ReplaceAllWithoutMatch(q, p, r);
      ReinsertThenConsume(rest, p, q, r);
    } else {
      var y := ReplaceAll(s[1..], p, p + q);
      assert ReplaceAll(s, p, p + q) == [s[0]] + y;
      StartThroughReplace(s[0], s[1..], p, p + q, p);
      assert [s[0]] + s[1..] == s;
      ReinsertThenConsume(s[1..], p, q, r);
      if |[s[0]] + y| >= |p| {
        assert ([s[0]] + y)[1..] == y;
      } else {
        assert ReplaceAll(y, p, r) == y;
      }
    }
  }

  /** A match in `x + y` lies in `x` or in `y` when `x` ends with a character `p` lacks. */
  lemma {:induction false} OccursSplit(x: string, y: string, p: string)
    requires |x| > 0 && Lacks(p, x[|x| - 1])
    ensures Occurs(x + y, p) ==> Occurs(x, p) || Occurs(y, p)
    decreases |x|
  {
    if |p| > |x| && |x + y| >= |p| {
      assert (x + y)[..|p|][|x| - 1] == x[|x| - 1];
    }
    if |p| <= |x| {
      assert x[..|p|] == (x + y)[..|p|];
    }
    if |x| == 1 {
      assert (x + y)[1..] == y;
    } else {
      assert (x + y)[1..] == x[1..] + y;
      OccursSplit(x[1..], y, p);
      assert x == [x[0]] + x[1..];
      if Occurs(x[1..], p) {
        OccursAfterPrefix([x[0]], x[1..], p);
      }
    }
  }

  /**
   * Replacing `p` by `r` introduces no match of another pattern `a`, provided `a` shares
   * neither `p`'s first character nor `r`'s last one, and `r` itself has no match of `a`.
   */
  lemma {:induction false} ReplaceAllIntroducesNothing(s: string, p: string, r: string, a: string)
    requires |p| > 0 && |r| > 0 && r[0] == p[0]
    requires |a| > 0 && Lacks(a, p[0]) && Lacks(a, r[|r| - 1])
    requires !Occurs(s, a) && !Occurs(r, a)
    ensures !Occurs(ReplaceAll(s, p, r), a)
    decreases |s|
  {
    if |s| < |p| {
    } else if StartsWith(s, p) {
      var x := ReplaceAll(s[|p|..], p, r);
      NotOccursInSuffix(s, |p|, a);
      ReplaceAllIntroducesNothing(s[|p|..], p, r, a);
      OccursSplit(r, x, a);
    } else {
      var y := ReplaceAll(s[1..], p, r);
      ReplaceAllIntroducesNothing(s[1..], p, r, a);
      StartThroughReplace(s[0], s[1..], p, r, a);
      assert [s[0]] + s[1..] == s;
      assert ([s[0]] + y)[1..] == y;
    }
  }

  /**
   * Re-inserting `p` followed by `q` creates no match of `a` when `a` lacks the first
   * and last characters of `p` and the last character of `q`, and neither `p` nor `q`
   * holds a match.
   */
  lemma ReinsertIntroducesNothing(s: string, p: string, q: string, a: string)
    requires |p| > 0 && |q| > 0 && |a| > 0
    requires Lacks(a, p[0]) && Lacks(a, p[|p| - 1]) && Lacks(a, q[|q| - 1])
    requires !Occurs(s, a) && !Occurs(p, a) && !Occurs(q, a)
    ensures !Occurs(ReplaceAll(s, p, p + q), a)
  {
    OccursSplit(p, q, a);
    assert (p + q)[0] == p[0] && (p + q)[|p + q| - 1] == q[|q| - 1];
    ReplaceAllIntroducesNothing(s, p, p + q, a);
  }

  /** A text no longer than `a` and different from it cannot contain it. */
  lemma ShortTextLacksPattern(s: string, a: string)
    requires |s| <= |a| && s != a
    ensures !Occurs(s, a)
  {
    if Occurs(s, a) {
      if !StartsWith(s, a) {
        OccursNeedsLength(s[1..], a);
      }
    }
  }

  /** A text without a match has no match in any suffix. */
  lemma NotOccursInSuffix(s: string, k: nat, a: string)
    requires k <= |s| && !Occurs(s, a)
    ensures !Occurs(s[k..], a)
  {
    assert s == s[..k] + s[k..];
    if Occurs(s[k..], a) {
      OccursAfterPrefix(s[..k], s[k..], a);
    }
  }
}
