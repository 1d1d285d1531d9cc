/**
 * Case-insensitive search and replacement of a literal word in a `str`, the
 * way Python's `re.compile(re.escape(word), re.IGNORECASE).sub(repl, text)`
 * performs it: the text is scanned from left to right and every leftmost
 * occurrence that does not overlap an earlier one is replaced.
 */
module Caseless {

  /** Text character `c` matches pattern character `p` when case is ignored.
      This is exact for the lower-case ASCII letters the banned words are made
      of: such a letter matches itself and its upper-case form, and 's' also
      matches U+017F LATIN SMALL LETTER LONG S, which Python folds to 's'. */
  predicate CharMatches(c: char, p: char) {
    c == p || ('a' <= p <= 'z' && c as int == p as int - 32) || (p == 's' && c == '\U{017F}')
  }

  /** `c` matches no character of `w`, so no occurrence of `w` can cover it. */
  predicate Barrier(c: char, w: string) {
    forall k :: 0 <= k < |w| ==> !CharMatches(c, w[k])
  }

  /** `w` occurs in `s` at index `i`, ignoring case. */
  predicate MatchAt(s: string, i: nat, w: string)
    requires i + |w| <= |s|
  {
    forall k :: 0 <= k < |w| ==> CharMatches(s[i + k], w[k])
  }

  /** `w` occurs somewhere in `s`, ignoring case (what `pattern.search(s)` finds). */
  predicate Contains(s: string, w: string) {
    exists i :: 0 <= i && i + |w| <= |s| && MatchAt(s, i, w)
  }

  /** `pattern.sub(r, s)` for the case-insensitive literal pattern `w`. */
  function ReplaceAll(s: string, w: string, r: string): string
    requires |w| > 0
    decreases |s|
  {
    if |s| < |w| then s
    else if MatchAt(s, 0, w) then r + ReplaceAll(s[|w|..], w, r)
    else [s[0]] + ReplaceAll(s[1..], w, r)
  }

  /** A replacement that can neither hold nor start a new occurrence of `w`:
      no character of `r` matches the first letter of `w`, and the first
      character of `r` matches no later letter of `w`. */
  predicate SafeReplacement(r: string, w: string) {
    && |r| > 0 && |w| > 0
    && (forall k :: 1 <= k < |w| ==> !CharMatches(r[0], w[k]))
    && (forall k :: 0 <= k < |r| ==> !CharMatches(r[k], w[0]))
  }

  lemma MatchSameWindow(s: string, i: nat, t: string, j: nat, w: string)
    requires i + |w| <= |s| && j + |w| <= |t|
    requires forall k :: i <= k < i + |w| ==> s[k] == t[k - i + j]
    ensures MatchAt(s, i, w) <==> MatchAt(t, j, w)
  {
    if MatchAt(s, i, w) {
      forall k | 0 <= k < |w| ensures CharMatches(t[j + k], w[k]) {
        assert s[i + k] == t[(i + k) - i + j];
      }
    }
    if MatchAt(t, j, w) {
      forall k | 0 <= k < |w| ensures CharMatches(s[i + k], w[k]) {
        assert s[i + k] == t[(i + k) - i + j];
      }
    }
  }

  lemma MatchBlockedByBarrier(s: string, i: nat, w: string, j: nat)
    requires i + |w| <= |s| && i <= j < i + |w| && Barrier(s[j], w)
    ensures !MatchAt(s, i, w)
  {
    assert !CharMatches(s[i + (j - i)], w[j - i]);
  }

  /** A text without an occurrence comes out of the replacement unchanged. */
  lemma {:induction false} ReplaceAllIdentity(s: string, w: string, r: string)
    requires |w| > 0 && !Contains(s, w)
    ensures ReplaceAll(s, w, r) == s
    decreases |s|
  {
    if |s| >= |w| {
      assert !MatchAt(s, 0, w);
      forall i | 0 <= i && i + |w| <= |s[1..]| ensures !MatchAt(s[1..], i, w) {
        assert !MatchAt(s, i + 1, w);
        MatchSameWindow(s[1..], i, s, i + 1, w);
      }
      ReplaceAllIdentity(s[1..], w, r);
    }
  }

  /** Up to the first character equal to `r[0]`, the output copies the input. */
  lemma {:induction false} ReplaceAllAgrees(s: string, w: string, r: string, i: nat)
    requires |w| > 0 && |r| > 0 && i < |ReplaceAll(s, w, r)|
    ensures (forall j :: 0 <= j <= i ==> ReplaceAll(s, w, r)[j] != r[0]) ==>
              i < |s| && ReplaceAll(s, w, r)[i] == s[i]
    decreases |s|
  {
    var out := ReplaceAll(s, w, r);
    if |s| < |w| {
      assert out == s;
    } else if MatchAt(s, 0, w) {
      assert out[0] == r[0];
    } else {
      var rest := ReplaceAll(s[1..], w, r);
      assert out == [s[0]] + rest;
      if i > 0 {
        ReplaceAllAgrees(s[1..], w, r, i - 1);
        assert out[i] == rest[i - 1];
        assert forall j :: 0 <= j <= i - 1 ==> rest[j] == out[j + 1];
      }
    }
  }

  /** After the replacement no occurrence of `w` is left, provided the
      replacement text cannot form one itself. */
  lemma {:induction false} ReplaceAllRemoves(s: string, w: string, r: string)
    requires |w| > 0 && SafeReplacement(r, w)
    ensures !Contains(ReplaceAll(s, w, r), w)
    decreases |s|
  {
    var out := ReplaceAll(s, w, r);
    if |s| < |w| {
    } else if MatchAt(s, 0, w) {
      var rest := ReplaceAll(s[|w|..], w, r);
      ReplaceAllRemoves(s[|w|..], w, r);
      forall i | 0 <= i && i + |w| <= |out| ensures !MatchAt(out, i, w) {
        if i < |r| {
          assert out[i + 0] == r[i];
          assert !CharMatches(out[i + 0], w[0]);
        } else {
          assert !MatchAt(rest, i - |r|, w);
          MatchSameWindow(out, i, rest, i - |r|, w);
        }
      }
    } else {
      var rest := ReplaceAll(s[1..], w, r);
      ReplaceAllRemoves(s[1..], w, r);
      forall i | 0 <= i && i + |w| <= |out| ensures !MatchAt(out, i, w) {
        if i > 0 {
          assert !MatchAt(rest, i - 1, w);
          MatchSameWindow(out, i, rest, i - 1, w);
        } else if MatchAt(out, 0, w) {
          // every character of the window after the first is copied from `s`
          forall k | 1 <= k < |w| ensures out[k] == s[k] {
            forall j | 0 <= j <= k - 1 ensures rest[j] != r[0] {
              assert CharMatches(out[j + 1], w[j + 1]);
            }
            ReplaceAllAgrees(s[1..], w, r, k - 1);
          }
          assert false;
        }
      }
    }
  }

  /** Replacement distributes over a split that ends on a barrier character. */
  lemma {:induction false} ReplaceAllSplit(a: string, b: string, w: string, r: string)
    requires |w| > 0
    requires a != [] ==> Barrier(a[|a| - 1], w)
    ensures ReplaceAll(a + b, w, r) == ReplaceAll(a, w, r) + ReplaceAll(b, w, r)
    decreases |a|
  {
    if a == [] {
      assert a + b == b;
    } else if |a + b| < |w| {
      assert ReplaceAll(a + b, w, r) == a + b;
      assert ReplaceAll(a, w, r) == a;
      assert ReplaceAll(b, w, r) == b;
    } else {
      if |a| <= |w| {
        MatchBlockedByBarrier(a + b, 0, w, |a| - 1);
      } else {
        MatchSameWindow(a + b, 0, a, 0, w);
      }
      if MatchAt(a + b, 0, w) {
        ReplaceAllSplit(a[|w|..], b, w, r);
        SplitAfterMatch(a, b, w, r);
      } else {
        ReplaceAllSplit(a[1..], b, w, r);
        SplitAfterMiss(a, b, w, r);
      }
    }
  }

  lemma SplitAfterMatch(a: string, b: string, w: string, r: string)
    requires |w| > 0 && |a| > |w| && MatchAt(a, 0, w) && MatchAt(a + b, 0, w)
    requires ReplaceAll(a[|w|..] + b, w, r) == ReplaceAll(a[|w|..], w, r) + ReplaceAll(b, w, r)
    ensures ReplaceAll(a + b, w, r) == ReplaceAll(a, w, r) + ReplaceAll(b, w, r)
  {
    assert (a + b)[|w|..] == a[|w|..] + b;
  }

  lemma SplitAfterMiss(a: string, b: string, w: string, r: string)
    requires |w| > 0 && |a| > 0 && |a + b| >= |w| && !MatchAt(a + b, 0, w)
    requires |a| >= |w| ==> !MatchAt(a, 0, w)
    requires ReplaceAll(a[1..] + b, w, r) == ReplaceAll(a[1..], w, r) + ReplaceAll(b, w, r)
    ensures ReplaceAll(a + b, w, r) == ReplaceAll(a, w, r) + ReplaceAll(b, w, r)
  {
    var s := a + b;
    assert s[1..] == a[1..] + b && s[0] == a[0];
    assert ReplaceAll(s, w, r) == [a[0]] + ReplaceAll(a[1..] + b, w, r);
    if |a| < |w| {
      assert ReplaceAll(a[1..], w, r) == a[1..];
      assert ReplaceAll(a, w, r) == a == [a[0]] + a[1..];
    } else {
      assert ReplaceAll(a, w, r) == [a[0]] + ReplaceAll(a[1..], w, r);
    }
  }

  /** Two texts free of `w` stay free of it when joined at a barrier. */
  lemma ContainsConcat(a: string, b: string, w: string)
    requires !Contains(a, w) && !Contains(b, w)
    requires (a != [] && Barrier(a[|a| - 1], w)) || (b != [] && Barrier(b[0], w))
    ensures !Contains(a + b, w)
  {
    forall i | 0 <= i && i + |w| <= |a + b| ensures !MatchAt(a + b, i, w) {
      if i + |w| <= |a| {
        assert !MatchAt(a, i, w);
        MatchSameWindow(a + b, i, a, i, w);
      } else if i >= |a| {
        assert !MatchAt(b, i - |a|, w);
        MatchSameWindow(a + b, i, b, i - |a|, w);
      } else if a != [] && Barrier(a[|a| - 1], w) {
        MatchBlockedByBarrier(a + b, i, w, |a| - 1);
      } else {
        MatchBlockedByBarrier(a + b, i, w, |a|);
      }
    }
  }

  /** A text free of `w` is also free of every longer word starting with `w`. */
  lemma ContainsLonger(s: string, w: string, v: string)
    requires !Contains(s, w)
    ensures !Contains(s, w + v)
  {
    forall i | 0 <= i && i + |w + v| <= |s| ensures !MatchAt(s, i, w + v) {
      MatchLonger(s, i, w, v);
    }
  }

  lemma MatchLonger(s: string, i: nat, w: string, v: string)
    requires i + |w + v| <= |s|
    ensures MatchAt(s, i, w + v) ==> MatchAt(s, i, w)
  {
    if MatchAt(s, i, w + v) {
      forall k | 0 <= k < |w| ensures CharMatches(s[i + k], w[k]) {
        assert CharMatches(s[i + k], (w + v)[k]);
      }
    }
  }
}
