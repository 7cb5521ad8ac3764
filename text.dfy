/**
 * The operations of Rust's `str` that the loader relies on, over `seq<char>`:
 * `contains`, `starts_with`, `ends_with` and `replace`, and a split at the first
 * occurrence of a character that the inverse of the DSN format uses.
 */
module Text {
  import opened Results

  /** `pat` occurs in `s` starting at index `i`. */
  predicate OccursAt(s: string, pat: string, i: nat) {
    i + |pat| <= |s| && s[i..i + |pat|] == pat
  }

  /** `str::contains`. */
  predicate Contains(s: string, pat: string) {
    exists i: nat | i <= |s| :: OccursAt(s, pat, i)
  }

  /** `str::starts_with`. */
  predicate StartsWith(s: string, prefix: string) {
    |prefix| <= |s| && s[..|prefix|] == prefix
  }

  /** `str::ends_with`. */
  predicate EndsWith(s: string, suffix: string) {
    |suffix| <= |s| && s[|s| - |suffix|..] == suffix
  }

  /**
   * `str::replace` with a non-empty pattern: a left-to-right scan that replaces
   * every non-overlapping occurrence of `pat` by `rep` and copies everything else.
   */
  function ReplaceAll(s: string, pat: string, rep: string): string
    requires pat != []
    decreases |s|
  {
    if |s| < |pat| then s
    else if s[..|pat|] == pat then rep + ReplaceAll(s[|pat|..], pat, rep)
    else [s[0]] + ReplaceAll(s[1..], pat, rep)
  }

  /** Shifting the start of a string by one shifts every occurrence by one. */
  lemma OccursAtTail(s: string, pat: string, i: nat)
    requires s != []
    ensures OccursAt(s[1..], pat, i) <==> OccursAt(s, pat, i + 1)
  {
    if i + |pat| <= |s[1..]| {
      assert s[1..][i..i + |pat|] == s[i + 1..i + 1 + |pat|];
    }
  }

  /** Where no occurrence starts, the scan copies one character and moves on. */
  lemma ReplaceAllStep(s: string, pat: string, rep: string)
    requires pat != [] && s != [] && !OccursAt(s, pat, 0)
    ensures ReplaceAll(s, pat, rep) == [s[0]] + ReplaceAll(s[1..], pat, rep)
  {
    if |s| < |pat| {
      assert ReplaceAll(s[1..], pat, rep) == s[1..];
      assert [s[0]] + s[1..] == s;
    } else {
      assert s[0..0 + |pat|] == s[..|pat|];
    }
  }

  /** An occurrence at the start is replaced, and the scan resumes after it. */
  lemma ReplaceAllHead(pat: string, y: string, rep: string)
    requires pat != []
    ensures ReplaceAll(pat + y, pat, rep) == rep + ReplaceAll(y, pat, rep)
  {
    assert (pat + y)[..|pat|] == pat;
    assert (pat + y)[|pat|..] == y;
  }

  /** A prefix in which no occurrence starts is copied unchanged. */
  lemma {:induction false} ReplaceAllSkip(x: string, y: string, pat: string, rep: string)
    requires pat != []
    requires forall i: nat :: i < |x| ==> !OccursAt(x + y, pat, i)
    ensures ReplaceAll(x + y, pat, rep) == x + ReplaceAll(y, pat, rep)
    decreases |x|
  {
    if x == [] {
      assert x + y == y;
    } else {
      var s := x + y;
      assert s[0] == x[0] && s[1..] == x[1..] + y;
      forall i: nat | i < |x[1..]|
        ensures !OccursAt(x[1..] + y, pat, i)
      {
        OccursAtTail(s, pat, i);
      }
      calc {
        ReplaceAll(s, pat, rep);
        { ReplaceAllStep(s, pat, rep); }
        [x[0]] + ReplaceAll(x[1..] + y, pat, rep);
        { ReplaceAllSkip(x[1..], y, pat, rep); }
        [x[0]] + (x[1..] + ReplaceAll(y, pat, rep));
        { ConsAppend(x, ReplaceAll(y, pat, rep)); }
        x + ReplaceAll(y, pat, rep);
      }
    }
  }

  /** Putting the first character back in front of the rest of a string. */
  lemma ConsAppend(x: string, r: string)
    requires x != []
    ensures [x[0]] + (x[1..] + r) == x + r
  {
    assert [x[0]] + x[1..] == x;
  }

  /** A string in which the pattern does not occur is returned unchanged. */
  lemma ReplaceAllNoMatch(s: string, pat: string, rep: string)
    requires pat != [] && !Contains(s, pat)
    ensures ReplaceAll(s, pat, rep) == s
  {
    assert s + [] == s;
    ReplaceAllSkip(s, [], pat, rep);
  }

  /**
   * A string with exactly one occurrence, at `k`, comes back with that one
   * occurrence replaced and everything around it kept.
   */
  lemma ReplaceAllOnce(s: string, pat: string, rep: string, k: nat)
    requires pat != [] && OccursAt(s, pat, k)
    requires forall i: nat :: OccursAt(s, pat, i) ==> i == k
    ensures ReplaceAll(s, pat, rep) == s[..k] + rep + s[k + |pat|..]
  {
    var before, after := s[..k], s[k + |pat|..];
    assert s == before + (pat + after);
    forall i: nat | i < |before|
      ensures !OccursAt(before + (pat + after), pat, i)
    {
    }
    forall i: nat
      ensures !OccursAt(after, pat, i)
    {
      OccursAfter(s, pat, k + |pat|, i);
    }
    calc {
      ReplaceAll(s, pat, rep);
      { ReplaceAllSkip(before, pat + after, pat, rep); }
      before + ReplaceAll(pat + after, pat, rep);
      { ReplaceAllHead(pat, after, rep); }
      before + (rep + ReplaceAll(after, pat, rep));
      { ReplaceAllNoMatch(after, pat, rep); }
      before + (rep + after);
    }
  }

  /** An occurrence in a suffix is an occurrence in the whole, shifted by where the suffix starts. */
  lemma OccursAfter(s: string, pat: string, start: nat, i: nat)
    requires start <= |s|
    ensures OccursAt(s[start..], pat, i) ==> OccursAt(s, pat, start + i)
  {
    if OccursAt(s[start..], pat, i) {
      assert s[start + i..start + i + |pat|] == s[start..][i..i + |pat|];
    }
  }

  /** If the first character of the pattern is absent from `x`, no occurrence starts in `x`. */
  lemma NoOccurrenceBefore(x: string, y: string, pat: string)
    requires pat != [] && pat[0] !in x
    ensures forall i: nat :: i < |x| ==> !OccursAt(x + y, pat, i)
  {
    forall i: nat | i < |x|
      ensures !OccursAt(x + y, pat, i)
    {
      assert (x + y)[i] == x[i] != pat[0];
      if i + |pat| <= |x + y| {
        assert (x + y)[i..i + |pat|][0] == (x + y)[i];
      }
    }
  }

  /** Removing a suffix that starts with a character absent from `x` leaves exactly `x`. */
  lemma StripSuffix(x: string, suffix: string)
    requires suffix != [] && suffix[0] !in x
    ensures EndsWith(x + suffix, suffix)
    ensures ReplaceAll(x + suffix, suffix, "") == x
  {
    assert (x + suffix)[|x + suffix| - |suffix|..] == suffix;
    NoOccurrenceBefore(x, suffix, suffix);
    ReplaceAllSkip(x, suffix, suffix, "");
    assert suffix == suffix + [];
    ReplaceAllHead(suffix, [], "");
    assert x + "" == x;
  }

  /** A character absent from the input and from the replacement is absent from the result. */
  lemma {:induction false} ReplaceAllKeepsOut(s: string, pat: string, rep: string, c: char)
    requires pat != [] && c !in s && c !in rep
    ensures c !in ReplaceAll(s, pat, rep)
    decreases |s|
  {
    if |s| < |pat| {
    } else if s[..|pat|] == pat {
      ReplaceAllKeepsOut(s[|pat|..], pat, rep, c);
    } else {
      ReplaceAllKeepsOut(s[1..], pat, rep, c);
    }
  }

  /** A suffix of a suffix: a string ending in `a + b` also ends in `b`. */
  lemma EndsWithShorter(s: string, a: string, b: string)
    requires EndsWith(s, a + b)
    ensures EndsWith(s, b)
  {
    assert s[|s| - |b|..] == s[|s| - |a + b|..][|a|..];
  }

  /** A concatenation whose last three parts are grouped reads the same left to right. */
  lemma ConcatRight(a: string, b: string, c: string, d: string, e: string)
    ensures a + b + (c + d + e) == a + b + c + d + e
  {
  }

  /** A concatenation starts with its first part and continues with its second. */
  lemma PrefixOfConcat(a: string, b: string)
    ensures StartsWith(a + b, a) && (a + b)[|a|..] == b
  {
    assert (a + b)[..|a|] == a;
  }

  /** An occurrence in `b` is an occurrence in `a + b`, shifted by `|a|`. */
  lemma OccursShifted(a: string, b: string, pat: string, i: nat)
    requires OccursAt(b, pat, i)
    ensures OccursAt(a + b, pat, |a| + i)
  {
    assert (a + b)[|a| + i..|a| + i + |pat|] == b[i..i + |pat|];
  }

  /** Putting text in front of a string keeps its suffixes. */
  lemma EndsWithExtended(a: string, b: string, suffix: string)
    requires EndsWith(b, suffix)
    ensures EndsWith(a + b, suffix)
  {
    assert (a + b)[|a + b| - |suffix|..] == b[|b| - |suffix|..];
  }

  /** The middle of `a + m + b` is `m`, framed by `a` and `b`. */
  lemma Framed(a: string, m: string, b: string)
    ensures StartsWith(a + m + b, a) && EndsWith(a + m + b, b)
    ensures (a + m + b)[|a|..|a + m + b| - |b|] == m
    ensures OccursAt(a + m + b, m, |a|)
  {
    var s := a + m + b;
    assert s[..|a|] == a;
    assert s[|s| - |b|..] == b;
    assert s[|a|..|a| + |m|] == m;
  }

  /** Occurrence is transitive: an occurrence inside an occurrence is an occurrence. */
  lemma OccursWithin(s: string, t: string, u: string, i: nat, j: nat)
    requires OccursAt(s, t, i) && OccursAt(t, u, j)
    ensures OccursAt(s, u, i + j)
  {
    forall k | 0 <= k < |u|
      ensures s[i + j + k] == u[k]
    {
      assert s[i..i + |t|][j + k] == t[j + k];
      assert t[j..j + |u|][k] == u[k];
    }
    assert s[i + j..i + j + |u|] == u;
  }

  /**
   * Splits `s` at the first occurrence of `c`: the part before it and the part
   * after it, or `None` when `c` does not occur.
   */
  function SplitAtFirst(s: string, c: char): (r: Option<(string, string)>)
    ensures r.None? <==> c !in s
    ensures r.Some? ==> c !in r.value.0 && s == r.value.0 + [c] + r.value.1
  {
    if s == [] then None
    else if s[0] == c then Some(([], s[1..]))
    else match SplitAtFirst(s[1..], c)
      case None => None
      case Some((before, after)) => Some(([s[0]] + before, after))
  }

  /** Splitting at a character that does not occur before the first `c` finds that `c`. */
  lemma {:induction false} SplitAtFirstOf(before: string, after: string, c: char)
    requires c !in before
    ensures SplitAtFirst(before + [c] + after, c) == Some((before, after))
  {
    var s := before + [c] + after;
    if before == [] {
      assert s[1..] == after;
    } else {
      assert s[1..] == before[1..] + [c] + after;
      SplitAtFirstOf(before[1..], after, c);
      assert [before[0]] + before[1..] == before;
    }
  }
}
