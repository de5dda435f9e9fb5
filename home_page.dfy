/**
 * The home page's repository input: `parseGitHubUrl` strips, once each and in
 * this order, a leading `https://` or `http://`, a leading `www.` and a
 * leading `github.com/`, trims the rest, and accepts exactly `owner/repo` with
 * both sides non-empty and no further `/`. A successful submit moves the
 * entry to the front of the recent-searches list, keeps at most five, and
 * navigates to the player's `/github.com/owner/repo` route.
 */
module HomePage {
  import opened Wrappers
  import opened JsText
  import opened Lists
  import GithubPath

  type RepoRef = GithubPath.RepoRef

  /** `s.replace(/^prefix/, '')` for a literal prefix. */
  function StripLeading(s: string, prefix: string): string {
    if prefix <= s then s[|prefix|..] else s
  }

  /** `s.replace(/^https?:\/\//, '')`. */
  function StripProtocol(s: string): string {
    if "https://" <= s then s[8..] else if "http://" <= s then s[7..] else s
  }

  /** The string the anchored `owner/repo` pattern is tested against. */
  function Cleaned(input: string): string {
    Trim(StripLeading(StripLeading(StripProtocol(input), "www."), "github.com/"))
  }

  /** `/^([^\/]+)\/([^\/]+)$/`: split at the first `/`; the rest must be a segment. */
  function SplitOwnerRepo(c: string): Option<RepoRef> {
    var k := GithubPath.RunEnd(c, 0);
    if 0 < k < |c| && GithubPath.IsSegment(c[k + 1..]) then
      Some(GithubPath.RepoRef(c[..k], c[k + 1..]))
    else None
  }

  /** `parseGitHubUrl(input)`; `None` stands for `null`. */
  function ParseGitHubUrl(input: string): Option<RepoRef> {
    SplitOwnerRepo(Cleaned(input))
  }

  function Joined(owner: string, repo: string): string {
    owner + "/" + repo
  }

  /** A successful split gives two segments that rebuild the string around one `/`. */
  lemma SplitSound(c: string)
    requires SplitOwnerRepo(c).Some?
    ensures var x := SplitOwnerRepo(c).value;
      GithubPath.IsSegment(x.owner) && GithubPath.IsSegment(x.repo) && c == Joined(x.owner, x.repo)
  {
    var k := GithubPath.RunEnd(c, 0);
    assert c == c[..k] + "/" + c[k + 1..];
  }

  /** `owner/repo` with two segments splits back into them. */
  lemma SplitComplete(owner: string, repo: string)
    requires GithubPath.IsSegment(owner) && GithubPath.IsSegment(repo)
    ensures SplitOwnerRepo(Joined(owner, repo)) == Some(GithubPath.RepoRef(owner, repo))
  {
    var c := Joined(owner, repo);
    GithubPath.RunEndAt(c, 0, |owner|);
    assert c[..|owner|] == owner;
    assert c[|owner| + 1..] == repo;
  }

  /** A string without `/` is refused. */
  lemma NoSlashRefused(c: string)
    requires forall k :: 0 <= k < |c| ==> c[k] != '/'
    ensures SplitOwnerRepo(c).None?
  {
  }

  /** A string with two `/` is refused, wherever they are. */
  lemma TwoSlashesRefused(c: string, i: nat, j: nat)
    requires i < j < |c| && c[i] == '/' && c[j] == '/'
    ensures SplitOwnerRepo(c).None?
  {
  }

  /**
   * A parse succeeds exactly when the cleaned input is `owner/repo` with two
   * segments, and then yields them.
   */
  lemma ParseIff(input: string, owner: string, repo: string)
    ensures ParseGitHubUrl(input) == Some(GithubPath.RepoRef(owner, repo)) <==>
      GithubPath.IsSegment(owner) && GithubPath.IsSegment(repo) && Cleaned(input) == Joined(owner, repo)
  {
    if ParseGitHubUrl(input) == Some(GithubPath.RepoRef(owner, repo)) {
      SplitSound(Cleaned(input));
    }
    if GithubPath.IsSegment(owner) && GithubPath.IsSegment(repo) && Cleaned(input) == Joined(owner, repo) {
      SplitComplete(owner, repo);
    }
  }

  /** What the three prefix options put in front of `owner/repo`. */
  function Decorated(protocol: string, www: bool, github: bool, owner: string, repo: string): string {
    protocol + ((if www then "www." else "") + ((if github then "github.com/" else "") + Joined(owner, repo)))
  }

  predicate IsProtocolOption(protocol: string) {
    protocol == "" || protocol == "http://" || protocol == "https://"
  }

  /** `owner/repo` whose ends are not white space, so that `trim` keeps it whole. */
  predicate Unpadded(owner: string, repo: string) {
    |owner| > 0 && |repo| > 0 && !IsJsWhitespace(owner[0]) && !IsJsWhitespace(repo[|repo| - 1])
  }

  lemma DiffersAt(p: string, s: string, k: nat)
    requires k < |p| && k < |s| && p[k] != s[k]
    ensures !(p <= s)
  {
  }

  lemma JoinedChars(owner: string, repo: string, k: nat)
    requires GithubPath.IsSegment(owner) && GithubPath.IsSegment(repo) && k < |Joined(owner, repo)|
    ensures Joined(owner, repo)[k] == '/' <==> k == |owner|
  {
    if k < |owner| {
      assert Joined(owner, repo)[k] == owner[k];
    } else if k > |owner| {
      assert Joined(owner, repo)[k] == repo[k - |owner| - 1];
    }
  }

  lemma GithubStripped(github: bool, owner: string, repo: string)
    requires GithubPath.IsSegment(owner) && GithubPath.IsSegment(repo)
    requires !github ==> owner != "github.com"
    ensures StripLeading((if github then "github.com/" else "") + Joined(owner, repo), "github.com/") == Joined(owner, repo)
  {
    var t := Joined(owner, repo);
    if github {
      assert ("github.com/" + t)[11..] == t;
    } else {
      GithubPrefixedOwner(owner, repo);
    }
  }

  /** `owner/repo` can only begin with `github.com/` when the owner is `github.com`. */
  lemma GithubPrefixedOwner(owner: string, repo: string)
    requires GithubPath.IsSegment(owner) && GithubPath.IsSegment(repo)
    ensures "github.com/" <= Joined(owner, repo) ==> owner == "github.com"
  {
    var t := Joined(owner, repo);
    if "github.com/" <= t {
      JoinedChars(owner, repo, 10);
      assert owner == t[..10];
    }
  }

  /** `owner/repo` never begins with a protocol: that would need two `/` in a row. */
  lemma NoProtocolInJoined(owner: string, repo: string)
    requires GithubPath.IsSegment(owner) && GithubPath.IsSegment(repo)
    ensures !("http://" <= Joined(owner, repo)) && !("https://" <= Joined(owner, repo))
  {
    var t := Joined(owner, repo);
    if |t| > 7 {
      JoinedChars(owner, repo, 5);
      JoinedChars(owner, repo, 6);
      JoinedChars(owner, repo, 7);
      if t[5] != '/' { DiffersAt("http://", t, 5); } else { DiffersAt("http://", t, 6); }
      if t[6] != '/' { DiffersAt("https://", t, 6); } else { DiffersAt("https://", t, 7); }
    } else if |t| == 7 {
      JoinedChars(owner, repo, 5);
      JoinedChars(owner, repo, 6);
      if t[5] != '/' { DiffersAt("http://", t, 5); } else { DiffersAt("http://", t, 6); }
    }
  }

  lemma WwwStripped(www: bool, github: bool, owner: string, repo: string)
    requires GithubPath.IsSegment(owner) && GithubPath.IsSegment(repo)
    requires !www && !github ==> !("www." <= owner)
    ensures var rest := (if github then "github.com/" else "") + Joined(owner, repo);
      StripLeading((if www then "www." else "") + rest, "www.") == rest
  {
    var rest := (if github then "github.com/" else "") + Joined(owner, repo);
    if www {
      assert ("www." + rest)[4..] == rest;
    } else if github {
      DiffersAt("www.", rest, 0);
    } else if |owner| < 4 {
      JoinedChars(owner, repo, |owner|);
      DiffersAt("www.", rest, |owner|);
    } else {
      assert owner[..4] == rest[..4];
    }
  }

  lemma ProtocolStripped(protocol: string, www: bool, github: bool, owner: string, repo: string)
    requires IsProtocolOption(protocol)
    requires GithubPath.IsSegment(owner) && GithubPath.IsSegment(repo)
    ensures var rest := (if www then "www." else "") + ((if github then "github.com/" else "") + Joined(owner, repo));
      StripProtocol(protocol + rest) == rest
  {
    var rest := (if www then "www." else "") + ((if github then "github.com/" else "") + Joined(owner, repo));
    if protocol == "https://" {
      assert (protocol + rest)[8..] == rest;
    } else if protocol == "http://" {
      DiffersAt("https://", protocol + rest, 4);
      assert (protocol + rest)[7..] == rest;
    } else if www {
      DiffersAt("https://", rest, 0);
      DiffersAt("http://", rest, 0);
    } else if github {
      DiffersAt("https://", rest, 0);
      DiffersAt("http://", rest, 0);
    } else {
      NoProtocolInJoined(owner, repo);
    }
  }

  /**
   * Each optional prefix is stripped once, in order, so `https://`, `http://`,
   * `www.` and `github.com/` in front of `owner/repo` are all accepted, and the
   * bare `owner/repo` too when the owner is neither `github.com` nor starts
   * with `www.`.
   */
  lemma ParsesAfterPrefixes(protocol: string, www: bool, github: bool, owner: string, repo: string)
    requires IsProtocolOption(protocol)
    requires GithubPath.IsSegment(owner) && GithubPath.IsSegment(repo) && Unpadded(owner, repo)
    requires !github ==> owner != "github.com"
    requires !www && !github ==> !("www." <= owner)
    ensures ParseGitHubUrl(Decorated(protocol, www, github, owner, repo)) == Some(GithubPath.RepoRef(owner, repo))
  {
    var w := if www then "www." else "";
    var g := if github then "github.com/" else "";
    var t := Joined(owner, repo);
    var s0 := Decorated(protocol, www, github, owner, repo);
    ProtocolStripped(protocol, www, github, owner, repo);
    var s1 := StripProtocol(s0);
    assert s1 == w + (g + t);
    WwwStripped(www, github, owner, repo);
    var s2 := StripLeading(s1, "www.");
    assert s2 == g + t;
    GithubStripped(github, owner, repo);
    var s3 := StripLeading(s2, "github.com/");
    assert s3 == t;
    TrimOfUnpadded(t);
    assert Cleaned(s0) == t;
    SplitComplete(owner, repo);
  }

  /** The bare form: `owner/repo` parses to itself. */
  lemma ParsesBare(owner: string, repo: string)
    requires GithubPath.IsSegment(owner) && GithubPath.IsSegment(repo) && Unpadded(owner, repo)
    requires owner != "github.com" && !("www." <= owner)
    ensures ParseGitHubUrl(Joined(owner, repo)) == Some(GithubPath.RepoRef(owner, repo))
  {
    ParsesAfterPrefixes("", false, false, owner, repo);
    assert Decorated("", false, false, owner, repo) == Joined(owner, repo);
  }

  /**
   * Trimming comes last, so white space in front blocks the prefix
   * stripping: ` github.com/owner/repo` keeps its `github.com/` and is refused.
   */
  lemma LeadingSpaceBlocks(owner: string, repo: string)
    requires GithubPath.IsSegment(owner) && GithubPath.IsSegment(repo)
    ensures ParseGitHubUrl(" github.com/" + Joined(owner, repo)).None?
  {
    var s := " github.com/" + Joined(owner, repo);
    assert StripLeading(StripLeading(StripProtocol(s), "www."), "github.com/") == s;
    var u := s[1..];
    assert TrimStart(s) == u by {
      assert TrimStart(u) == u;
    }
    var c := TrimEnd(u);
    assert u[10] == '/';
    assert u[11 + |owner|] == '/';
    assert c[10] == '/' && c[11 + |owner|] == '/';
    TwoSlashesRefused(c, 10, 11 + |owner|);
  }

  /** A lone segment, a trailing `/` and a third segment are all refused. */
  lemma OneSlashOnly(owner: string, repo: string, extra: string)
    requires GithubPath.IsSegment(owner) && GithubPath.IsSegment(repo)
    ensures SplitOwnerRepo(owner).None?
    ensures SplitOwnerRepo(Joined(owner, repo) + "/").None?
    ensures SplitOwnerRepo(Joined(owner, repo) + "/" + extra).None?
  {
    NoSlashRefused(owner);
    var t := Joined(owner, repo);
    assert t[|owner|] == '/';
    TwoSlashesRefused(t + "/", |owner|, |t|);
    TwoSlashesRefused(t + "/" + extra, |owner|, |t|);
  }

  /** Inputs without any prefix reach the split unchanged. */
  lemma PlainCleaned(c: string)
    requires |c| > 0 && c[0] == 'o' && !IsJsWhitespace(c[|c| - 1])
    ensures Cleaned(c) == c
  {
    DiffersAt("https://", c, 0);
    DiffersAt("http://", c, 0);
    DiffersAt("www.", c, 0);
    DiffersAt("github.com/", c, 0);
    TrimOfUnpadded(c);
  }

  lemma ExampleRefusals()
    ensures ParseGitHubUrl("o").None? && ParseGitHubUrl("o/r/").None? && ParseGitHubUrl("o/r/x").None?
  {
    PlainCleaned("o");
    PlainCleaned("o/r/");
    PlainCleaned("o/r/x");
    NoSlashRefused("o");
    TwoSlashesRefused("o/r/", 1, 3);
    TwoSlashesRefused("o/r/x", 1, 3);
  }

  function NotEqualTo(entry: string): string -> bool {
    (x: string) => x != entry
  }

  /** `recent.filter(r => r !== entry)`. */
  function Without(recent: seq<string>, entry: string): seq<string> {
    Filter(recent, NotEqualTo(entry))
  }

  /** The new recent-searches list: `[entry, ...recent without entry].slice(0, 5)`. */
  function UpdateRecent(recent: seq<string>, entry: string): seq<string> {
    Prefix([entry] + Without(recent, entry), 5)
  }

  /** The filtered list holds every other entry of the old one and no copy of `entry`, in the old order. */
  lemma WithoutShape(recent: seq<string>, entry: string) returns (idx: seq<nat>)
    ensures forall x :: x in Without(recent, entry) <==> x in recent && x != entry
    ensures Picks(recent, Without(recent, entry), idx)
    ensures forall j :: 0 <= j < |recent| && recent[j] != entry ==> j in idx
  {
    FilterMembers(recent, NotEqualTo(entry));
    idx := FilterIndices(recent, NotEqualTo(entry));
  }

  lemma PicksPrefix<T>(s: seq<T>, r: seq<T>, idx: seq<nat>, n: nat)
    requires Picks(s, r, idx) && n <= |r|
    ensures Picks(s, r[..n], idx[..n])
  {
  }

  /**
   * The entry comes first and nowhere else, at most five remain, and the
   * others are the first ones of the old list that differ from the entry, in
   * their old order.
   */
  lemma RecentShape(recent: seq<string>, entry: string) returns (idx: seq<nat>)
    ensures var r := UpdateRecent(recent, entry);
      0 < |r| <= 5 && r[0] == entry
      && (forall k :: 1 <= k < |r| ==> r[k] != entry && r[k] in recent)
      && Picks(recent, r[1..], idx)
      && r[1..] == Without(recent, entry)[..|r| - 1]
      && (forall j :: 0 <= j < |recent| && recent[j] != entry && 0 < |idx| && j <= idx[|idx| - 1] ==> j in idx)
      && |r| == (var n := |Without(recent, entry)|; if n < 4 then n + 1 else 5)
  {
    var f := Without(recent, entry);
    var r := UpdateRecent(recent, entry);
    var all := WithoutShape(recent, entry);
    var m := |r| - 1;
    assert r[1..] == f[..m];
    PicksPrefix(recent, f, all, m);
    idx := all[..m];
    forall j | 0 <= j < |recent| && recent[j] != entry && 0 < |idx| && j <= idx[|idx| - 1] ensures j in idx {
      var k :| 0 <= k < |all| && all[k] == j;
      assert idx[k] == j;
    }
    forall k | 1 <= k < |r| ensures r[k] != entry && r[k] in recent {
      assert r[k] == f[k - 1];
      assert f[k - 1] in f;
    }
  }

  /** Submitting the same repository twice in a row leaves the list as the first submit left it. */
  lemma RecentIdempotent(recent: seq<string>, entry: string)
    ensures UpdateRecent(UpdateRecent(recent, entry), entry) == UpdateRecent(recent, entry)
  {
    var r := UpdateRecent(recent, entry);
    var tail := r[1..];
    assert r == [entry] + tail;
    var _ := RecentShape(recent, entry);
    forall k | 0 <= k < |tail| ensures NotEqualTo(entry)(tail[k]) {
      assert tail[k] == r[k + 1];
    }
    FilterAll(tail, NotEqualTo(entry));
    assert ([entry] + tail)[1..] == tail;
    assert Without(r, entry) == tail;
  }

  /**
   * `handleSubmit`: a refused input leaves the list alone (the page shows an
   * error); an accepted one yields the new recent list and the route to open.
   */
  function HandleSubmit(input: string, recent: seq<string>): Option<(seq<string>, string)> {
    match ParseGitHubUrl(input)
    case None => None
    case Some(x) => Some((UpdateRecent(recent, Joined(x.owner, x.repo)), GithubPath.RepoPath(x.owner, x.repo)))
  }

  /**
   * The route the home page opens names the repository it parsed: the path
   * parser of `parser.js`, like the app's `/github.com/:owner/:repo` route,
   * reads the same owner and repository back from it.
   */
  lemma SubmitRoundTrip(input: string, recent: seq<string>)
    requires HandleSubmit(input, recent).Some?
    ensures var x := ParseGitHubUrl(input).value;
      GithubPath.ParseGitHubUrl(HandleSubmit(input, recent).value.1) == Some(x)
      && HandleSubmit(input, recent).value.0[0] == Joined(x.owner, x.repo)
  {
    var x := ParseGitHubUrl(input).value;
    SplitSound(Cleaned(input));
    GithubPath.RoundTrip(x.owner, x.repo, []);
    assert GithubPath.RepoPath(x.owner, x.repo) + [] == GithubPath.RepoPath(x.owner, x.repo);
    var _ := RecentShape(recent, Joined(x.owner, x.repo));
  }
}
