/**
 * `str_replace` with a single search string, scanning left to right and
 * replacing non-overlapping occurrences, and what it guarantees for the
 * two-character searches the catalog uses.
 */
module PhpString {
  /** Every occurrence of `f` in `s`, from the left and without overlap, replaced by `t`. */
  function ReplaceAll(s: string, f: string, t: string): (r: string)
    requires f != []
    ensures |s| < |f| ==> r == s
    decreases |s|
  {
    if |s| < |f| then s
    else if s[..|f|] == f then t + ReplaceAll(s[|f|..], f, t)
    else [s[0]] + ReplaceAll(s[1..], f, t)
  }

  /** The two characters of `s` starting at `i`. */
  function PairAt(s: string, i: nat): (p: string)
    requires i + 2 <= |s|
    ensures |p| == 2 && p[0] == s[i] && p[1] == s[i + 1]
  {
    s[i..i + 2]
  }

  /** The two-character string `g` occurs nowhere in `s`. */
  predicate Absent(s: string, g: string)
  {
    forall i: nat :: i + 2 <= |s| ==> PairAt(s, i) != g
  }

  /** The first character of a replacement result: the replacement's, or the subject's own. */
  lemma ReplaceAllHead(s: string, f: string, t: string)
    requires |f| == 2 && |t| == 2 && |s| > 0
    ensures |ReplaceAll(s, f, t)| > 0
    ensures ReplaceAll(s, f, t)[0] == if |s| >= 2 && s[..2] == f then t[0] else s[0]
  {
  }

  /**
   * After replacing `f` by `t`, the pair `g` does not occur, provided it
   * did not occur before (or is `f` itself) and `t` cannot form it, neither
   * alone nor with a neighbour.
   */
  lemma {:induction false} ReplaceAllAbsent(s: string, f: string, t: string, g: string)
    requires |f| == 2 && |t| == 2 && |g| == 2
    requires t != g && t[1] != g[0] && t[0] != g[1]
    requires g == f || Absent(s, g)
    ensures Absent(ReplaceAll(s, f, t), g)
    decreases |s|
  {
    var r := ReplaceAll(s, f, t);
    if |s| < 2 {
    } else if s[..2] == f {
      var rest := s[2..];
      var tail := ReplaceAll(rest, f, t);
      assert g == f || Absent(rest, g) by {
        if g != f {
          forall i: nat | i + 2 <= |rest| ensures PairAt(rest, i) != g {
            assert PairAt(rest, i) == PairAt(s, i + 2);
          }
        }
      }
      ReplaceAllAbsent(rest, f, t, g);
      assert r == t + tail;
      forall i: nat | i + 2 <= |r| ensures PairAt(r, i) != g {
        if i == 0 {
          assert PairAt(r, 0) == t;
        } else if i == 1 {
          assert PairAt(r, 1)[0] == t[1];
        } else {
          assert PairAt(r, i) == PairAt(tail, i - 2);
        }
      }
    } else {
      var rest := s[1..];
      var tail := ReplaceAll(rest, f, t);
      assert g == f || Absent(rest, g) by {
        if g != f {
          forall i: nat | i + 2 <= |rest| ensures PairAt(rest, i) != g {
            assert PairAt(rest, i) == PairAt(s, i + 1);
          }
        }
      }
      ReplaceAllAbsent(rest, f, t, g);
      ReplaceAllHead(rest, f, t);
      assert r == [s[0]] + tail;
      forall i: nat | i + 2 <= |r| ensures PairAt(r, i) != g {
        if i == 0 {
          if |rest| >= 2 && rest[..2] == f {
            assert PairAt(r, 0)[1] == t[0];
          } else {
            assert PairAt(r, 0) == PairAt(s, 0);
          }
        } else {
          assert PairAt(r, i) == PairAt(tail, i - 1);
        }
      }
    }
  }

  /** A subject in which the search string does not occur is returned unchanged. */
  lemma {:induction false} ReplaceAllIdentity(s: string, f: string, t: string)
    requires |f| == 2 && Absent(s, f)
    ensures ReplaceAll(s, f, t) == s
    decreases |s|
  {
    if |s| >= 2 {
      assert PairAt(s, 0) == s[..2];
      var rest := s[1..];
      forall i: nat | i + 2 <= |rest| ensures PairAt(rest, i) != f {
        assert PairAt(rest, i) == PairAt(s, i + 1);
      }
      ReplaceAllIdentity(rest, f, t);
      assert s == [s[0]] + rest;
    }
  }
}
