/** Operations on strings (sequences of characters) used by URL handling. */
module Text {

  predicate StartsWith(s: string, prefix: string) {
    |prefix| <= |s| && s[..|prefix|] == prefix
  }

  /** Python's `p in s` for strings: `p` occurs as a contiguous substring of `s`. */
  predicate Occurs(s: string, p: string)
    decreases |s|
  {
    |p| <= |s| && (s[..|p|] == p || (|s| > 0 && Occurs(s[1..], p)))
  }

  /** Declarative counterpart of `Occurs`: some window of `s` equals `p`. */
  ghost predicate HasWindow(s: string, p: string) {
    exists i :: MatchAt(s, p, i)
  }

  /** `p` occurs in `s` starting at index `i`. */
  predicate MatchAt(s: string, p: string, i: int) {
    0 <= i && i + |p| <= |s| && s[i..i + |p|] == p
  }

  lemma {:induction false} OccursIsWindow(s: string, p: string)
    ensures Occurs(s, p) <==> HasWindow(s, p)
    decreases |s|
  {
    if |p| <= |s| && s[..|p|] == p {
      assert MatchAt(s, p, 0);
    } else if |p| <= |s| && |s| > 0 {
      OccursIsWindow(s[1..], p);
      if Occurs(s[1..], p) {
        var i :| MatchAt(s[1..], p, i);
        assert s[i + 1..i + 1 + |p|] == s[1..][i..i + |p|];
        assert MatchAt(s, p, i + 1);
      }
      if HasWindow(s, p) {
        var i :| MatchAt(s, p, i);
        assert i != 0 by { assert s[0..0 + |p|] == s[..|p|]; }
        assert s[1..][i - 1..i - 1 + |p|] == s[i..i + |p|];
        assert MatchAt(s[1..], p, i - 1);
      }
    }
  }

  /** A pattern occurs in any string that starts with it. */
  lemma OccursInPrefixed(p: string, rest: string)
    ensures Occurs(p + rest, p)
  {
    assert (p + rest)[..|p|] == p;
  }

  /** Appending a character that the pattern does not end with creates no new occurrence. */
  lemma {:induction false} OccursAppend(s: string, p: string, c: char)
    requires |p| > 0 && p[|p| - 1] != c
    ensures Occurs(s + [c], p) <==> Occurs(s, p)
    decreases |s|
  {
    var t := s + [c];
    if |p| <= |s| {
      assert t[..|p|] == s[..|p|];
      if |s| > 0 {
        assert t[1..] == s[1..] + [c];
        OccursAppend(s[1..], p, c);
      }
    } else if |p| == |t| {
      assert t[|p| - 1] == c;
      assert t[..|p|] != p;
    }
  }

  /** ASCII upper-casing, the part of Python's `str.upper` that HTTP method names use. */
  function UpperChar(c: char): (u: char)
    ensures 'a' <= c <= 'z' ==> u as int == c as int - 32
    ensures !('a' <= c <= 'z') ==> u == c
    ensures !('a' <= u <= 'z')
  {
    if 'a' <= c <= 'z' then (c as int - 32) as char else c
  }

  function Upper(s: string): (u: string)
    ensures |u| == |s|
    ensures forall i :: 0 <= i < |s| ==> u[i] == UpperChar(s[i])
  {
    seq(|s|, i requires 0 <= i < |s| => UpperChar(s[i]))
  }

  /** Upper-casing is idempotent, so the verb helpers' upper-case names are sent unchanged. */
  lemma UpperIdempotent(s: string)
    ensures Upper(Upper(s)) == Upper(s)
  {
  }
}
