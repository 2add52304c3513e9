/**
 * The few string operations of Rust's `str` that the dashboard relies on:
 * `contains`, `replace(pat, "")` and the lexicographic `Ord` of `String`.
 * A string is a `seq<char>`; comparing characters by code point orders
 * strings exactly as Rust's byte-wise comparison of their UTF-8 encodings does.
 */
module Strings {

  /** `s.contains(sub)`: `sub` occurs in `s` at some position (the empty string occurs everywhere). */
  predicate Contains(s: string, sub: string)
    decreases |s|
  {
    sub <= s || (s != [] && Contains(s[1..], sub))
  }

  /**
   * `s.replace(pat, "")`: every occurrence of `pat` found by a left-to-right
   * scan for non-overlapping matches is removed.  The result is never longer.
   */
  function RemoveAll(s: string, pat: string): (r: string)
    requires pat != []
    ensures |r| <= |s|
    decreases |s|
  {
    if pat <= s then RemoveAll(s[|pat|..], pat)
    else if s == [] then []
    else [s[0]] + RemoveAll(s[1..], pat)
  }

  /** A string in which `pat` does not occur is left as it is. */
  lemma {:induction false} RemoveAllAbsent(s: string, pat: string)
    requires pat != [] && !Contains(s, pat)
    ensures RemoveAll(s, pat) == s
    decreases |s|
  {
    if s != [] {
      RemoveAllAbsent(s[1..], pat);
    }
  }

  /** Putting `pat` in front of `n` and stripping every `pat` again gives `n` back when `pat` does not occur in `n`. */
  lemma PrefixThenRemoveAll(pat: string, n: string)
    requires pat != [] && !Contains(n, pat)
    ensures RemoveAll(pat + n, pat) == n
  {
    assert pat <= pat + n;
    assert (pat + n)[|pat|..] == n;
    RemoveAllAbsent(n, pat);
  }

  /**
   * Removing the occurrences can create a new one: "bbot:ot:" loses its inner
   * "bot:" and leaves "bot:".  So a stripped name may still contain the marker.
   */
  lemma RemoveAllCanLeaveMarker()
    ensures RemoveAll("bbot:ot:", "bot:") == "bot:"
  {
    var pat := "bot:";
    assert !(pat <= "bbot:ot:") by { assert pat[1] != "bbot:ot:"[1]; }
    assert "bbot:ot:"[1..] == "bot:ot:";
    assert pat <= "bot:ot:";
    assert "bot:ot:"[4..] == "ot:";
    assert !(pat <= "ot:") by { assert pat[0] != "ot:"[0]; }
    assert "ot:"[1..] == "t:";
    assert !(pat <= "t:") by { assert pat[0] != "t:"[0]; }
    assert "t:"[1..] == ":";
    assert !(pat <= ":") by { assert pat[0] != ":"[0]; }
    assert ":"[1..] == "";
  }

  /** Strict lexicographic order on strings, the order of Rust's `String::cmp`. */
  predicate LexLt(a: string, b: string)
    decreases |a|
  {
    if a == [] then b != []
    else if b == [] then false
    else a[0] < b[0] || (a[0] == b[0] && LexLt(a[1..], b[1..]))
  }

  lemma {:induction false} LexLtIrreflexive(a: string)
    ensures !LexLt(a, a)
    decreases |a|
  {
    if a != [] {
      LexLtIrreflexive(a[1..]);
    }
  }

  lemma {:induction false} LexLtTransitive(a: string, b: string, c: string)
    requires LexLt(a, b) && LexLt(b, c)
    ensures LexLt(a, c)
    decreases |a|
  {
    if a != [] && b != [] && c != [] && a[0] == b[0] == c[0] {
      LexLtTransitive(a[1..], b[1..], c[1..]);
    }
  }

  /** Any two different strings are ordered one way or the other. */
  lemma {:induction false} LexLtTotal(a: string, b: string)
    requires a != b
    ensures LexLt(a, b) || LexLt(b, a)
    decreases |a|
  {
    if a != [] && b != [] && a[0] == b[0] {
      assert a == [a[0]] + a[1..] && b == [b[0]] + b[1..];
      LexLtTotal(a[1..], b[1..]);
    }
  }

  lemma LexLtAsymmetric(a: string, b: string)
    requires LexLt(a, b)
    ensures !LexLt(b, a)
  {
    if LexLt(b, a) {
      LexLtTransitive(a, b, a);
      LexLtIrreflexive(a);
    }
  }

  /**
   * Comparing two concatenations whose first parts have the same width:
   * the first parts decide, and only when they are equal do the second parts.
   */
  lemma {:induction false} LexLtConcat(a1: string, b1: string, a2: string, b2: string)
    requires |a1| == |a2|
    ensures LexLt(a1 + b1, a2 + b2) <==> LexLt(a1, a2) || (a1 == a2 && LexLt(b1, b2))
    decreases |a1|
  {
    if a1 == [] {
      assert a1 + b1 == b1 && a2 + b2 == b2;
    } else {
      assert (a1 + b1)[1..] == a1[1..] + b1 && (a2 + b2)[1..] == a2[1..] + b2;
      LexLtConcat(a1[1..], b1, a2[1..], b2);
      if a1[0] == a2[0] && a1[1..] == a2[1..] {
        assert a1 == [a1[0]] + a1[1..] && a2 == [a2[0]] + a2[1..];
      }
    }
  }
}
