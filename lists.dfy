/**
 * The list operations the core takes from JavaScript:
 * `Array.prototype.filter` and `slice(0, n)` (or `substring(0, n)` on a string).
 */
module Lists {
  /** `s.filter(keep)`: the elements that pass, in their original order. */
  function Filter<T>(s: seq<T>, keep: T -> bool): seq<T> {
    if s == [] then [] else (if keep(s[0]) then [s[0]] else []) + Filter(s[1..], keep)
  }

  /** `s.slice(0, n)`, and `s.substring(0, n)` on a string. */
  function Prefix<T>(s: seq<T>, n: nat): (r: seq<T>)
    ensures |r| == if n < |s| then n else |s|
    ensures r <= s
  {
    if n < |s| then s[..n] else s
  }

  lemma AppendAssoc<T>(a: seq<T>, b: seq<T>, c: seq<T>)
    ensures (a + b) + c == a + (b + c)
  {
  }

  /** An element survives the filter exactly when it is in the list and passes. */
  lemma {:induction false} FilterMembers<T>(s: seq<T>, keep: T -> bool)
    ensures |Filter(s, keep)| <= |s|
    ensures forall x :: x in Filter(s, keep) <==> x in s && keep(x)
  {
    if s != [] {
      FilterMembers(s[1..], keep);
      assert s == [s[0]] + s[1..];
    }
  }

  /** Indices strictly increasing: a subsequence keeps relative order. */
  predicate Increasing(idx: seq<nat>) {
    forall k, l :: 0 <= k < l < |idx| ==> idx[k] < idx[l]
  }

  /** `r` is the subsequence of `s` at the increasing positions `idx`. */
  predicate Picks<T(==)>(s: seq<T>, r: seq<T>, idx: seq<nat>) {
    |idx| == |r| && Increasing(idx)
    && forall k :: 0 <= k < |idx| ==> idx[k] < |s| && r[k] == s[idx[k]]
  }

  function Shift(idx: seq<nat>): (r: seq<nat>)
    ensures |r| == |idx| && forall k :: 0 <= k < |idx| ==> r[k] == idx[k] + 1
  {
    seq(|idx|, k requires 0 <= k < |idx| => idx[k] + 1)
  }

  lemma PicksTail<T>(s: seq<T>, r: seq<T>, idx: seq<nat>)
    requires s != [] && Picks(s[1..], r, idx)
    ensures Picks(s, r, Shift(idx))
  {
    var sh := Shift(idx);
    forall k | 0 <= k < |sh| ensures sh[k] < |s| && r[k] == s[sh[k]] {
      assert s[1..][idx[k]] == s[idx[k] + 1];
    }
  }

  lemma PicksHead<T>(s: seq<T>, r: seq<T>, idx: seq<nat>)
    requires s != [] && Picks(s[1..], r, idx)
    ensures Picks(s, [s[0]] + r, [0] + Shift(idx))
  {
    PicksTail(s, r, idx);
    var id := [0] + Shift(idx);
    var rr := [s[0]] + r;
    forall k | 0 < k < |id| ensures rr[k] == s[id[k]] {
      assert rr[k] == r[k - 1] && id[k] == Shift(idx)[k - 1];
    }
  }

  /**
   * The filter picks out, in increasing index order, exactly the positions of
   * `s` whose element passes: relative order is kept and nothing that passes is
   * dropped.
   */
  lemma {:induction false} FilterIndices<T>(s: seq<T>, keep: T -> bool) returns (idx: seq<nat>)
    ensures Picks(s, Filter(s, keep), idx)
    ensures forall j :: 0 <= j < |s| && keep(s[j]) ==> j in idx
  {
    if s == [] {
      idx := [];
    } else {
      var rest := FilterIndices(s[1..], keep);
      var g := Filter(s[1..], keep);
      if keep(s[0]) {
        PicksHead(s, g, rest);
        idx := [0] + Shift(rest);
      } else {
        PicksTail(s, g, rest);
        idx := Shift(rest);
      }
      forall j | 0 < j < |s| && keep(s[j]) ensures j in Shift(rest) {
        assert s[1..][j - 1] == s[j];
        var k :| 0 <= k < |rest| && rest[k] == j - 1;
        assert Shift(rest)[k] == j;
      }
    }
  }

  /** Filtering with a test that passes every element changes nothing. */
  lemma {:induction false} FilterAll<T>(s: seq<T>, keep: T -> bool)
    requires forall k :: 0 <= k < |s| ==> keep(s[k])
    ensures Filter(s, keep) == s
  {
    if s != [] {
      FilterAll(s[1..], keep);
      assert s == [s[0]] + s[1..];
    }
  }

  /** Two tests that agree on every element of `s` filter it alike. */
  lemma {:induction false} FilterAgree<T>(s: seq<T>, p: T -> bool, q: T -> bool)
    requires forall k :: 0 <= k < |s| ==> p(s[k]) == q(s[k])
    ensures Filter(s, p) == Filter(s, q)
  {
    if s != [] {
      FilterAgree(s[1..], p, q);
    }
  }
}
