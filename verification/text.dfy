/** String operations the radar relies on, with Python's semantics:
    substring membership (`w in t`), `any(...)` over a word list,
    prefix slicing (`s[:n]`) and deletion of a pattern (`s.replace(p, "")`).
    Strings are sequences of code points, as Python's `str` is. */
module Text {

  /** `w` occurs in `t` starting at index `i`. */
  predicate OccursAt(w: string, t: string, i: nat)
  {
    i + |w| <= |t| && t[i..i + |w|] == w
  }

  /** Python's `w in t` for strings, stated as the existence of a position. */
  ghost predicate Occurs(w: string, t: string)
  {
    exists i: nat :: OccursAt(w, t, i)
  }

  /** Executable substring test that tries each start position from the left. */
  function Contains(t: string, w: string): bool
    decreases |t|
  {
    if w <= t then true
    else if |t| == 0 then false
    else Contains(t[1..], w)
  }

  /** The scan finds `w` exactly when some position of `t` holds it. */
  lemma {:induction false} ContainsIffOccurs(t: string, w: string)
    ensures Contains(t, w) <==> Occurs(w, t)
    decreases |t|
  {
    if w <= t {
      assert OccursAt(w, t, 0);
    } else if |t| == 0 {
      assert |w| > 0;
      assert forall i: nat :: !OccursAt(w, t, i);
    } else {
      ContainsIffOccurs(t[1..], w);
      if Occurs(w, t[1..]) {
        var i: nat :| OccursAt(w, t[1..], i);
        assert t[i + 1..i + 1 + |w|] == t[1..][i..i + |w|];
        assert OccursAt(w, t, i + 1);
      }
      if Occurs(w, t) {
        var i: nat :| OccursAt(w, t, i);
        assert i != 0 by {
          assert t[..|w|] == t[0..|w|];
        }
        assert t[1..][i - 1..i - 1 + |w|] == t[i..i + |w|];
        assert OccursAt(w, t[1..], i - 1);
      }
    }
  }

  /** A string placed between two others occurs right after the first. */
  lemma OccursBetween(a: string, x: string, b: string)
    ensures OccursAt(x, a + x + b, |a|)
  {
    assert (a + x + b)[|a|..|a| + |x|] == x;
  }

  /** Python's `any(w in text for w in words)`. */
  function AnyContained(words: seq<string>, text: string): bool
  {
    if |words| == 0 then false
    else Contains(text, words[0]) || AnyContained(words[1..], text)
  }

  /** `any` is true exactly when one of the words occurs in the text. */
  lemma {:induction false} AnyContainedIffSomeOccurs(words: seq<string>, text: string)
    ensures AnyContained(words, text) <==> exists k :: 0 <= k < |words| && Occurs(words[k], text)
  {
    if |words| > 0 {
      ContainsIffOccurs(text, words[0]);
      AnyContainedIffSomeOccurs(words[1..], text);
      if exists k :: 0 <= k < |words| && Occurs(words[k], text) {
        var k :| 0 <= k < |words| && Occurs(words[k], text);
        if k > 0 {
          assert words[1..][k - 1] == words[k];
        }
      }
      if exists k :: 0 <= k < |words[1..]| && Occurs(words[1..][k], text) {
        var k :| 0 <= k < |words[1..]| && Occurs(words[1..][k], text);
        assert words[k + 1] == words[1..][k];
      }
    }
  }

  /** Python's `s[:n]` for a non-negative `n`: the first `n` code points,
      or the whole string when it is shorter. */
  function Truncate(s: string, n: nat): (r: string)
    ensures r <= s
    ensures |r| == if |s| < n then |s| else n
  {
    if |s| <= n then s else s[..n]
  }

  /** Python's `s.replace(pat, "")`: scanning from the left, every
      occurrence of `pat` that does not overlap an earlier deleted one is
      deleted. An empty pattern leaves the string as it is. */
  function RemoveAll(s: string, pat: string): (r: string)
    ensures |r| <= |s|
    decreases |s|
  {
    if |pat| == 0 || |s| < |pat| then s
    else if s[..|pat|] == pat then RemoveAll(s[|pat|..], pat)
    else [s[0]] + RemoveAll(s[1..], pat)
  }

  /** A string in which the pattern does not occur comes back unchanged. */
  lemma {:induction false} RemoveAbsentIsIdentity(s: string, pat: string)
    requires !Occurs(pat, s)
    ensures RemoveAll(s, pat) == s
    decreases |s|
  {
    if |pat| == 0 || |s| < |pat| {
    } else {
      assert s[..|pat|] != pat by {
        assert s[0..|pat|] == s[..|pat|];
        assert !OccursAt(pat, s, 0);
      }
      assert !Occurs(pat, s[1..]) by {
        forall i: nat ensures !OccursAt(pat, s[1..], i) {
          assert !OccursAt(pat, s, i + 1);
          if i + |pat| <= |s[1..]| {
            assert s[1..][i..i + |pat|] == s[i + 1..i + 1 + |pat|];
          }
        }
      }
      RemoveAbsentIsIdentity(s[1..], pat);
      assert s == [s[0]] + s[1..];
    }
  }

  /** When the first character of `pat` never appears in `x`, deleting
      `pat` from `x + pat` deletes exactly the trailing copy. */
  lemma {:induction false} RemoveTrailing(x: string, pat: string)
    requires |pat| > 0
    requires pat[0] !in x
    ensures RemoveAll(x + pat, pat) == x
    decreases |x|
  {
    var s := x + pat;
    if |x| == 0 {
      assert s[..|pat|] == pat;
      assert s[|pat|..] == [];
    } else {
      assert s[..|pat|][0] == x[0];
      assert s[1..] == x[1..] + pat;
      RemoveTrailing(x[1..], pat);
      assert x == [x[0]] + x[1..];
    }
  }
}
