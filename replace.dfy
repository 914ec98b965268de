/**
 * Java's String.replace(CharSequence, CharSequence) and the placeholder
 * substitution the unlock screen applies to its ad-server URL before the
 * VAST request.
 */
module Replace {
  import opened Player

  /**
   * Every occurrence of `t` in `s`, scanning left to right and never
   * overlapping a replaced occurrence, becomes `r`.
   */
  function ReplaceAll(s: string, t: string, r: string): (o: string)
    requires |t| > 0
    ensures !Contains(s, t) ==> o == s
    decreases |s|
  {
    if |s| < |t| then s
    else if s[..|t|] == t then assert OccursAt(s, t, 0); r + ReplaceAll(s[|t|..], t, r)
    else ContainsStep(s, t); [s[0]] + ReplaceAll(s[1..], t, r)
  }

  /**
   * `r` can stand in for an occurrence without forming `u` across its
   * edges: it holds neither the first nor the last character of `u`, and
   * some character of it is not in `u`.
   */
  predicate SafeFor(u: string, r: string)
  {
    |u| > 0 && u[0] !in r && u[|u| - 1] !in r && exists j :: 0 <= j < |r| && r[j] !in u
  }

  /** `o` agrees with `x` up to `m`, where a copy of `r` begins. */
  predicate CopyAt(x: string, o: string, r: string, m: int)
  {
    0 <= m <= |x| && m + |r| <= |o| && o[..m] == x[..m] && o[m..m + |r|] == r
  }

  /** Up to the first replacement the output is the input. */
  lemma {:induction false} FirstReplacement(x: string, t: string, r: string)
    requires |t| > 0
    ensures ReplaceAll(x, t, r) == x || exists m :: CopyAt(x, ReplaceAll(x, t, r), r, m)
    decreases |x|
  {
    var o := ReplaceAll(x, t, r);
    if |x| < |t| {
    } else if x[..|t|] == t {
      assert CopyAt(x, o, r, 0);
    } else {
      var rest := ReplaceAll(x[1..], t, r);
      assert o == [x[0]] + rest;
      FirstReplacement(x[1..], t, r);
      if rest == x[1..] {
        assert o == x;
      } else {
        var m :| CopyAt(x[1..], rest, r, m);
        ConsCopy(x, rest, r, m);
      }
    }
  }

  /** Putting the input's first character back in front of both moves a copy of `r` one place on. */
  lemma ConsCopy(x: string, rest: string, r: string, m: int)
    requires |x| > 0 && CopyAt(x[1..], rest, r, m)
    ensures CopyAt(x, [x[0]] + rest, r, m + 1)
  {
    var o := [x[0]] + rest;
    assert o[..m + 1] == [x[0]] + rest[..m];
    assert x[..m + 1] == [x[0]] + x[1..][..m];
    assert o[m + 1..m + 1 + |r|] == rest[m..m + |r|];
  }

  /** An occurrence in a suffix is an occurrence in the whole. */
  lemma OccursInSuffix(x: string, u: string, k: nat)
    requires k <= |x| && Contains(x[k..], u)
    ensures Contains(x, u)
  {
    var i :| OccursAt(x[k..], u, i);
    assert x[k..][i..i + |u|] == x[k + i..k + i + |u|];
    assert OccursAt(x, u, k + i);
  }

  /** With no replacement before it, an occurrence at the front of the output is one at the front of the input. */
  lemma FrontOccurrence(x: string, o: string, t: string, r: string, u: string)
    requires |t| > 0 && SafeFor(u, r) && |x| >= |t| && x[..|t|] != t
    requires |o| > 0 && o[0] == x[0]
    requires o[1..] == x[1..] || exists m :: CopyAt(x[1..], o[1..], r, m)
    requires OccursAt(o, u, 0)
    ensures OccursAt(x, u, 0)
  {
    if o[1..] == x[1..] {
      assert o == x;
    } else {
      var m :| CopyAt(x[1..], o[1..], r, m);
      assert o[1..][..m] == o[1..m + 1];
      assert o[1 + m..1 + m + |r|] == o[1..][m..m + |r|];
      if 1 + m >= |u| {
        assert o[..|u|] == x[..|u|] by {
          forall k | 0 <= k < |u|
            ensures o[k] == x[k]
          {
            if k > 0 {
              assert o[1..][..m][k - 1] == x[1..][..m][k - 1];
            }
          }
        }
      } else {
        // the copy of `r` would begin inside the occurrence: it either lies
        // wholly in it or holds its last character
        assert false;
      }
    }
  }

  /** Occurrences in `o` from `k` on are those of its suffix from `k`, shifted. */
  lemma Shift(o: string, k: nat, u: string)
    requires k <= |o|
    ensures forall i :: k <= i ==> (OccursAt(o, u, i) <==> OccursAt(o[k..], u, i - k))
  {
    forall i | k <= i
      ensures OccursAt(o, u, i) <==> OccursAt(o[k..], u, i - k)
    {
      if i + |u| <= |o| {
        assert o[i..i + |u|] == o[k..][i - k..i - k + |u|];
      }
    }
  }

  /** Nothing occurs across a copy of `r` at the front when `r` lacks the first character of `u`. */
  lemma AfterCopy(o: string, r: string, rest: string, u: string)
    requires o == r + rest && |u| > 0 && u[0] !in r && !Contains(rest, u)
    ensures !Contains(o, u)
  {
    assert o[|r|..] == rest;
    Shift(o, |r|, u);
    forall i | 0 <= i < |r|
      ensures !OccursAt(o, u, i)
    {
      assert o[i] == r[i];
    }
  }

  /** Nothing occurs after a kept first character unless it occurs at the very front. */
  lemma AfterKept(o: string, c: char, rest: string, u: string)
    requires o == [c] + rest && !OccursAt(o, u, 0) && !Contains(rest, u)
    ensures !Contains(o, u)
  {
    assert o[1..] == rest;
    Shift(o, 1, u);
  }

  /**
   * After the replacement no occurrence of `u` is left, when `u` is the
   * target itself or was absent from the input and `r` is safe for `u`.
   */
  lemma {:induction false} NothingLeft(x: string, t: string, r: string, u: string)
    requires |t| > 0 && SafeFor(u, r)
    requires u == t || !Contains(x, u)
    ensures !Contains(ReplaceAll(x, t, r), u)
    decreases |x|
  {
    var o := ReplaceAll(x, t, r);
    if |x| < |t| {
      assert o == x;
    } else if x[..|t|] == t {
      if u != t && Contains(x[|t|..], u) {
        OccursInSuffix(x, u, |t|);
      }
      NothingLeft(x[|t|..], t, r, u);
      AfterCopy(o, r, ReplaceAll(x[|t|..], t, r), u);
    } else {
      var rest := ReplaceAll(x[1..], t, r);
      NothingLeft(x[1..], t, r, u);
      if OccursAt(o, u, 0) {
        FirstReplacement(x[1..], t, r);
        assert o[1..] == rest;
        FrontOccurrence(x, o, t, r, u);
      }
      AfterKept(o, x[0], rest, u);
    }
  }
}
