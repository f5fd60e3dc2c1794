/**
 * The three ordinal string operations the facial profile mapper relies on:
 * `StartsWith`, `Contains` and `Replace` (every non-overlapping occurrence,
 * scanned left to right), together with the facts about the two combined-name
 * markers "_L/R" and "_Up/Down" that the shape-name expansion needs.
 */
module Strings {

  /** `s` begins with `prefix`. */
  predicate StartsWith(s: string, prefix: string) {
    |prefix| <= |s| && s[..|prefix|] == prefix
  }

  /** `t` occurs in `s` starting at index `i`. */
  predicate OccursAt(s: string, t: string, i: int) {
    0 <= i && i + |t| <= |s| && s[i..i + |t|] == t
  }

  /** `t` occurs somewhere in `s` (the empty string occurs everywhere). */
  predicate Contains(s: string, t: string)
    decreases |s|
  {
    StartsWith(s, t) || (s != [] && Contains(s[1..], t))
  }

  /**
   * Every occurrence of `pattern` replaced by `replacement`, scanning from the
   * left and never re-examining replaced text. An empty pattern is refused by
   * the .NET operation, hence the precondition.
   */
  function Replace(s: string, pattern: string, replacement: string): (r: string)
    requires pattern != ""
    decreases |s|
  {
    if |s| < |pattern| then s
    else if s[..|pattern|] == pattern then replacement + Replace(s[|pattern|..], pattern, replacement)
    else [s[0]] + Replace(s[1..], pattern, replacement)
  }

  /** The side marker of a name that stands for a left and a right shape. */
  const SideMarker := "_L/R"
  /** The direction marker of a name that stands for an up and a down shape. */
  const DirectionMarker := "_Up/Down"

  lemma {:induction false} ContainsIff(s: string, t: string)
    ensures Contains(s, t) <==> exists i :: OccursAt(s, t, i)
    decreases |s|
  {
    if StartsWith(s, t) {
      assert OccursAt(s, t, 0);
    } else if s != [] {
      ContainsIff(s[1..], t);
      if Contains(s[1..], t) {
        var i :| OccursAt(s[1..], t, i);
        assert s[1..][i..i + |t|] == s[i + 1..i + 1 + |t|];
        assert OccursAt(s, t, i + 1);
      }
      if i :| OccursAt(s, t, i) {
        assert i != 0;
        assert s[1..][i - 1..i - 1 + |t|] == s[i..i + |t|];
        assert OccursAt(s[1..], t, i - 1);
      }
    }
  }

  /** An occurrence in a suffix is an occurrence in the whole string. */
  lemma ContainsSuffix(s: string, k: nat, t: string)
    requires k <= |s| && Contains(s[k..], t)
    ensures Contains(s, t)
  {
    ContainsIff(s[k..], t);
    var i :| OccursAt(s[k..], t, i);
    assert s[k..][i..i + |t|] == s[k + i..k + i + |t|];
    assert OccursAt(s, t, k + i);
    ContainsIff(s, t);
  }

  /** Text that holds no occurrence is left as it is. */
  lemma {:induction false} ReplaceAbsent(s: string, pattern: string, replacement: string)
    requires pattern != "" && !Contains(s, pattern)
    ensures Replace(s, pattern, replacement) == s
    decreases |s|
  {
    if |s| >= |pattern| {
      assert !StartsWith(s, pattern);
      ReplaceAbsent(s[1..], pattern, replacement);
      assert [s[0]] + s[1..] == s;
    }
  }

  /** Each marker contains the "/" that the expansion tests for first. */
  lemma MarkerHasSlash(s: string)
    ensures Contains(s, SideMarker) ==> Contains(s, "/")
    ensures Contains(s, DirectionMarker) ==> Contains(s, "/")
  {
    ContainsIff(s, SideMarker);
    ContainsIff(s, DirectionMarker);
    ContainsIff(s, "/");
    if i :| OccursAt(s, SideMarker, i) {
      SlashAt(s, SideMarker, i, 2);
    }
    if i :| OccursAt(s, DirectionMarker, i) {
      SlashAt(s, DirectionMarker, i, 3);
    }
  }

  /** A "/" at offset `k` of an occurrence of `t` is a "/" in `s`. */
  lemma SlashAt(s: string, t: string, i: int, k: nat)
    requires OccursAt(s, t, i) && k < |t| && t[k] == '/'
    ensures OccursAt(s, "/", i + k)
  {
    assert s[i + k] == s[i..i + |t|][k];
    assert s[i + k..i + k + 1] == [s[i + k]];
  }

  /** A string whose first character differs from that of `t` does not start with `t`. */
  lemma HeadMismatch(s: string, t: string)
    requires s != [] && t != [] && s[0] != t[0]
    ensures !StartsWith(s, t)
  {
    if |t| <= |s| {
      assert s[..|t|][0] == s[0];
    }
  }

  /**
   * Replacing the side marker neither creates nor destroys a prefix `w` free
   * of '_': the marker starts with '_', so it never begins inside `w`.
   */
  lemma {:induction false} SideReplaceKeepsPrefix(u: string, w: string, side: string)
    requires side == "_L" || side == "_R"
    requires forall k :: 0 <= k < |w| ==> w[k] != '_'
    ensures StartsWith(Replace(u, SideMarker, side), w) <==> StartsWith(u, w)
    decreases |u|
  {
    var r := Replace(u, SideMarker, side);
    if w == [] || |u| < 4 {
    } else if u[..4] == SideMarker {
      assert r[0] == '_' && u[0] == '_';
    } else {
      assert r == [u[0]] + Replace(u[1..], SideMarker, side);
      SideReplaceKeepsPrefix(u[1..], w[1..], side);
      if StartsWith(u, w) {
        assert u[1..][..|w| - 1] == w[1..];
      }
      if StartsWith(r, w) {
        assert r[1..][..|w| - 1] == w[1..];
        assert u[..|w|] == [u[0]] + u[1..][..|w| - 1];
      }
    }
  }

  /** "_Up/Down" cannot start inside a leading "_L/R". */
  lemma SideMarkerSkipsDirection(u: string)
    requires StartsWith(u, SideMarker)
    ensures Contains(u, DirectionMarker) <==> Contains(u[4..], DirectionMarker)
  {
    assert u[0] == '_' && u[1] == 'L' && u[2] == '/' && u[3] == 'R' by {
      assert u[..4][1] == 'L' && u[..4][2] == '/' && u[..4][3] == 'R';
    }
    assert u[1..][1..] == u[2..] && u[2..][1..] == u[3..] && u[3..][1..] == u[4..];
    HeadMismatch(u[1..], DirectionMarker);
    HeadMismatch(u[2..], DirectionMarker);
    HeadMismatch(u[3..], DirectionMarker);
    assert !StartsWith(u, DirectionMarker) by {
      HeadMismatch(u[1..], DirectionMarker[1..]);
      if |u| >= 8 {
        assert u[1..][..7] == u[..8][1..];
      }
    }
    assert Contains(u, DirectionMarker) <==> Contains(u[1..], DirectionMarker);
    assert Contains(u[1..], DirectionMarker) <==> Contains(u[2..], DirectionMarker);
    assert Contains(u[2..], DirectionMarker) <==> Contains(u[3..], DirectionMarker);
    assert Contains(u[3..], DirectionMarker) <==> Contains(u[4..], DirectionMarker);
  }

  /** "_Up/Down" cannot start inside a leading "_L" or "_R". */
  lemma SideSkipsDirection(side: string, rest: string)
    requires side == "_L" || side == "_R"
    ensures Contains(side + rest, DirectionMarker) <==> Contains(rest, DirectionMarker)
  {
    var r := side + rest;
    assert r[0] == '_' && (r[1] == 'L' || r[1] == 'R') && r[1..][1..] == rest;
    assert !StartsWith(r, DirectionMarker);
    assert Contains(r, DirectionMarker) <==> Contains(r[1..], DirectionMarker);
  }

  /**
   * A name built from `u` by replacing "_L/R" with "_L" or "_R" contains
   * "_Up/Down" exactly when `u` does: the two markers cannot overlap, and
   * neither replacement spells a piece of "_Up/Down".
   */
  lemma {:induction false} SideReplaceKeepsDirection(u: string, side: string)
    requires side == "_L" || side == "_R"
    ensures Contains(Replace(u, SideMarker, side), DirectionMarker) <==> Contains(u, DirectionMarker)
    decreases |u|
  {
    var r := Replace(u, SideMarker, side);
    var tail := "Up/Down";
    assert DirectionMarker == ['_'] + tail;
    assert forall k :: 0 <= k < |tail| ==> tail[k] != '_';
    if |u| < 4 {
    } else if u[..4] == SideMarker {
      var rest := Replace(u[4..], SideMarker, side);
      assert r == side + rest;
      SideReplaceKeepsDirection(u[4..], side);
      SideMarkerSkipsDirection(u);
      SideSkipsDirection(side, rest);
    } else {
      var rest := Replace(u[1..], SideMarker, side);
      assert r == [u[0]] + rest && r[1..] == rest;
      SideReplaceKeepsDirection(u[1..], side);
      SideReplaceKeepsPrefix(u[1..], tail, side);
      assert StartsWith(u, DirectionMarker) <==> u[0] == '_' && StartsWith(u[1..], tail) by {
        if StartsWith(u, DirectionMarker) {
          assert u[1..][..7] == u[..8][1..];
        }
        if u[0] == '_' && StartsWith(u[1..], tail) {
          assert u[..8] == [u[0]] + u[1..][..7];
        }
      }
      assert StartsWith(r, DirectionMarker) <==> u[0] == '_' && StartsWith(rest, tail) by {
        if StartsWith(r, DirectionMarker) {
          assert rest[..7] == r[..8][1..];
        }
        if u[0] == '_' && StartsWith(rest, tail) {
          assert r[..8] == [u[0]] + rest[..7];
        }
      }
    }
  }
}
