/**
 * `parseGitHubUrl` from the router path of a page such as
 * `/github.com/owner/repo`: the unanchored pattern
 * `/github.com/` followed by two non-empty runs without `/`, separated by a
 * `/`. The regex engine tries start positions from the left; at each one the
 * greedy runs take every non-slash character they can, so the owner is the
 * whole run up to the next `/` and the repository name runs to the next `/` or
 * the end of the path.
 */
module GithubPath {
  import opened Wrappers
  import opened JsText

  datatype RepoRef = RepoRef(owner: string, repo: string)

  const Marker: string := "/github.com/"

  /** A path segment: at least one character, none of them `/`. */
  predicate IsSegment(x: string) {
    |x| > 0 && forall k :: 0 <= k < |x| ==> x[k] != '/'
  }

  /** The text the pattern matches for the given owner and repository. */
  function RepoPath(owner: string, repo: string): string {
    Marker + owner + "/" + repo
  }

  /** `owner/repo` fits the pattern with its match starting at `p`. */
  predicate MatchesAt(s: string, p: nat, owner: string, repo: string) {
    IsSegment(owner) && IsSegment(repo) && OccursAt(s, RepoPath(owner, repo), p)
  }

  /** The end of the run of non-slash characters that starts at `i`. */
  function RunEnd(s: string, i: nat): (j: nat)
    requires i <= |s|
    ensures i <= j <= |s|
    ensures forall k :: i <= k < j ==> s[k] != '/'
    ensures j == |s| || s[j] == '/'
    decreases |s| - i
  {
    if i < |s| && s[i] != '/' then RunEnd(s, i + 1) else i
  }

  /** The match the regex engine finds when it tries position `p`. */
  function MatchHere(s: string, p: nat): Option<RepoRef>
    requires p <= |s|
  {
    if OccursAt(s, Marker, p) then
      var a := p + |Marker|;
      var b := RunEnd(s, a);
      if a < b < |s| then
        var c := RunEnd(s, b + 1);
        if b + 1 < c then Some(RepoRef(s[a..b], s[b + 1..c])) else None
      else None
    else None
  }

  /** Try positions `p`, `p + 1`, ... and stop at the first match. */
  function MatchFrom(s: string, p: nat): Option<RepoRef>
    requires p <= |s|
    decreases |s| - p
  {
    match MatchHere(s, p)
    case Some(r) => Some(r)
    case None => if p < |s| then MatchFrom(s, p + 1) else None
  }

  /** `parseGitHubUrl(pathname)`; `None` stands for `null`. */
  function ParseGitHubUrl(pathname: string): Option<RepoRef> {
    MatchFrom(pathname, 0)
  }

  /** A non-slash stretch from `i` to a `/` (or the end) is exactly the run. */
  lemma {:induction false} RunEndAt(s: string, i: nat, j: nat)
    requires i <= j <= |s|
    requires forall k :: i <= k < j ==> s[k] != '/'
    requires j == |s| || s[j] == '/'
    ensures RunEnd(s, i) == j
    decreases j - i
  {
    if i < j {
      RunEndAt(s, i + 1, j);
    }
  }

  lemma PathChars(owner: string, repo: string)
    ensures |RepoPath(owner, repo)| == |Marker| + |owner| + 1 + |repo|
    ensures RepoPath(owner, repo)[..|Marker|] == Marker
    ensures forall k :: 0 <= k < |owner| ==> RepoPath(owner, repo)[|Marker| + k] == owner[k]
    ensures RepoPath(owner, repo)[|Marker| + |owner|] == '/'
    ensures forall k :: 0 <= k < |repo| ==> RepoPath(owner, repo)[|Marker| + |owner| + 1 + k] == repo[k]
  {
  }

  /**
   * Position `p` yields a match exactly when some owner and repository fit
   * there, and the match found is the pair whose repository runs to the next
   * `/` or the end.
   */
  lemma MatchHereSpec(s: string, p: nat)
    requires p <= |s|
    ensures MatchHere(s, p).Some? ==>
      var x := MatchHere(s, p).value;
      MatchesAt(s, p, x.owner, x.repo)
      && (p + |RepoPath(x.owner, x.repo)| == |s| || s[p + |RepoPath(x.owner, x.repo)|] == '/')
    ensures MatchHere(s, p).None? ==> forall o, r :: !MatchesAt(s, p, o, r)
  {
    if MatchHere(s, p).Some? {
      FoundMatches(s, p);
    } else {
      forall o, r | MatchesAt(s, p, o, r) ensures false {
        NoMissedMatch(s, p, o, r);
      }
    }
  }

  lemma FoundMatches(s: string, p: nat)
    requires p <= |s| && MatchHere(s, p).Some?
    ensures var x := MatchHere(s, p).value;
      MatchesAt(s, p, x.owner, x.repo)
      && (p + |RepoPath(x.owner, x.repo)| == |s| || s[p + |RepoPath(x.owner, x.repo)|] == '/')
  {
    var x := MatchHere(s, p).value;
    var a := p + |Marker|;
    var b := RunEnd(s, a);
    var c := RunEnd(s, b + 1);
    assert s[b..b + 1] == "/";
    SliceConcat(s, p, a, b);
    SliceConcat(s, p, b, b + 1);
    SliceConcat(s, p, b + 1, c);
  }

  lemma SliceConcat(s: string, i: nat, j: nat, k: nat)
    requires i <= j <= k <= |s|
    ensures s[i..k] == s[i..j] + s[j..k]
  {
  }

  lemma NoMissedMatch(s: string, p: nat, o: string, r: string)
    requires MatchesAt(s, p, o, r)
    ensures MatchHere(s, p).Some?
  {
    var t := RepoPath(o, r);
    PathChars(o, r);
    var a := p + |Marker|;
    assert s[p..p + |Marker|] == Marker by {
      assert s[p..p + |Marker|] == s[p..p + |t|][..|Marker|];
    }
    assert forall k :: 0 <= k < |t| ==> s[p + k] == t[k] by {
      forall k | 0 <= k < |t| ensures s[p + k] == t[k] {
        assert s[p..p + |t|][k] == t[k];
      }
    }
    assert s[a + |o|] == t[|Marker| + |o|];
    RunEndAt(s, a, a + |o|);
    assert s[a + |o| + 1] == t[|Marker| + |o| + 1];
  }

  /** `MatchFrom` returns the match at the leftmost position that has one. */
  lemma {:induction false} MatchFromSome(s: string, p: nat) returns (q: nat)
    requires p <= |s| && MatchFrom(s, p).Some?
    ensures p <= q <= |s| && MatchHere(s, q) == MatchFrom(s, p)
    ensures forall q' :: p <= q' < q ==> MatchHere(s, q').None?
    decreases |s| - p
  {
    if MatchHere(s, p).Some? {
      q := p;
    } else {
      q := MatchFromSome(s, p + 1);
    }
  }

  lemma {:induction false} MatchFromNone(s: string, p: nat)
    requires p <= |s| && MatchFrom(s, p).None?
    ensures forall q :: p <= q <= |s| ==> MatchHere(s, q).None?
    decreases |s| - p
  {
    if p < |s| {
      MatchFromNone(s, p + 1);
    }
  }

  /**
   * A successful parse names a non-empty, slash-free owner and repository
   * whose `/github.com/owner/repo` occurs in the path; the repository runs to
   * the next `/` or the end, and no earlier position fits the pattern at all.
   */
  lemma ParseSound(s: string) returns (p: nat)
    requires ParseGitHubUrl(s).Some?
    ensures var x := ParseGitHubUrl(s).value;
      MatchesAt(s, p, x.owner, x.repo)
      && (p + |RepoPath(x.owner, x.repo)| == |s| || s[p + |RepoPath(x.owner, x.repo)|] == '/')
    ensures forall q: nat, o, r :: q < p ==> !MatchesAt(s, q, o, r)
  {
    p := MatchFromSome(s, 0);
    MatchHereSpec(s, p);
    forall q: nat, o, r | q < p ensures !MatchesAt(s, q, o, r) {
      MatchHereSpec(s, q);
    }
  }

  /** Whenever the pattern fits somewhere, the parse succeeds. */
  lemma ParseComplete(s: string, p: nat, o: string, r: string)
    requires MatchesAt(s, p, o, r)
    ensures ParseGitHubUrl(s).Some?
  {
    if ParseGitHubUrl(s).None? {
      MatchFromNone(s, 0);
      NoMissedMatch(s, p, o, r);
    }
  }

  /** `null` exactly when no `/github.com/x/y` with segments `x` and `y` occurs. */
  lemma ParseNullIff(s: string)
    ensures ParseGitHubUrl(s).None? <==> forall p: nat, o, r :: !MatchesAt(s, p, o, r)
  {
    if ParseGitHubUrl(s).Some? {
      var p := ParseSound(s);
    } else {
      forall p: nat, o, r ensures !MatchesAt(s, p, o, r) {
        if MatchesAt(s, p, o, r) {
          ParseComplete(s, p, o, r);
        }
      }
    }
  }

  /**
   * Round trip: the path built from an owner and a repository parses back to
   * them, whatever follows the repository after a `/`.
   */
  lemma RoundTrip(owner: string, repo: string, rest: string)
    requires IsSegment(owner) && IsSegment(repo)
    requires rest == [] || rest[0] == '/'
    ensures ParseGitHubUrl(RepoPath(owner, repo) + rest) == Some(RepoRef(owner, repo))
  {
    var s := RepoPath(owner, repo) + rest;
    var t := RepoPath(owner, repo);
    PathChars(owner, repo);
    assert s[..|t|] == t;
    assert OccursAt(s, Marker, 0) by {
      assert s[..|Marker|] == t[..|Marker|];
    }
    var a := |Marker|;
    RunEndAt(s, a, a + |owner|);
    RunEndAt(s, a + |owner| + 1, |t|);
    assert s[a..a + |owner|] == owner;
    assert s[a + |owner| + 1..|t|] == repo;
  }

  lemma TrailingSegments(owner: string, repo: string, tail: string)
    requires IsSegment(owner) && IsSegment(repo)
    ensures ParseGitHubUrl(RepoPath(owner, repo) + "/" + tail) == Some(RepoRef(owner, repo))
  {
    RoundTrip(owner, repo, "/" + tail);
    assert RepoPath(owner, repo) + "/" + tail == RepoPath(owner, repo) + ("/" + tail);
  }
}
