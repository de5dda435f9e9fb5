/**
 * The bookmark monitor: for each stored bookmark it fetches the repository's
 * commits, decides whether there is anything new, and if so records the
 * newest sha on that bookmark and moves it to the front of the stored list.
 * The fetch is the network's answer and comes in as a value; the stored list
 * is the monitor's `stored` field.
 */
module BookmarkMonitor {
  import opened Wrappers
  import opened Commits
  import opened Lists

  datatype Bookmark = Bookmark(owner: string, repo: string, lastCommitSha: Option<string>, lastChecked: string)

  /** What `fetchCommits` delivers: the list, newest first, or a thrown error. */
  datatype Fetch = Fetched(commits: seq<Commit>) | FetchFailed

  /** `{ hasNew: false }` or `{ hasNew: true, newCommitSha, newCommits }`. */
  datatype CheckResult = NoNews | News(newCommitSha: string, newCommits: seq<Commit>)

  /** `c.sha !== bookmark.lastCommitSha`; an unset sha differs from every string. */
  function ShaDiffers(last: Option<string>): Commit -> bool {
    (c: Commit) => last != Some(c.sha)
  }

  /** `checkForNewCommits`: news when the latest sha is a non-empty string other than the stored one. */
  function CheckForNewCommits(b: Bookmark, fetch: Fetch): CheckResult {
    match fetch
    case FetchFailed => NoNews
    case Fetched(commits) =>
      if |commits| > 0 && commits[0].sha != "" && b.lastCommitSha != Some(commits[0].sha) then
        News(commits[0].sha, Filter(commits, ShaDiffers(b.lastCommitSha)))
      else NoNews
  }

  /**
   * There is news exactly when the fetch succeeded with a non-empty list whose
   * first sha is set and differs from the bookmark's; the news then carries
   * that sha and every fetched commit whose sha differs, in order, the newest
   * among them.
   */
  lemma CheckSpec(b: Bookmark, fetch: Fetch) returns (idx: seq<nat>)
    ensures CheckForNewCommits(b, fetch).News? <==>
      fetch.Fetched? && |fetch.commits| > 0 && fetch.commits[0].sha != ""
      && b.lastCommitSha != Some(fetch.commits[0].sha)
    ensures CheckForNewCommits(b, fetch).News? ==>
      var r := CheckForNewCommits(b, fetch);
      r.newCommitSha == fetch.commits[0].sha
      && |r.newCommits| > 0 && r.newCommits[0] == fetch.commits[0]
      && (forall c :: c in r.newCommits <==> c in fetch.commits && b.lastCommitSha != Some(c.sha))
      && Picks(fetch.commits, r.newCommits, idx)
  {
    idx := [];
    if CheckForNewCommits(b, fetch).News? {
      var cs := fetch.commits;
      var keep := ShaDiffers(b.lastCommitSha);
      FilterMembers(cs, keep);
      idx := FilterIndices(cs, keep);
      assert Filter(cs, keep) == [cs[0]] + Filter(cs[1..], keep);
    }
  }

  /** A failed fetch never reports news. */
  lemma FailureIsQuiet(b: Bookmark)
    ensures CheckForNewCommits(b, FetchFailed) == NoNews
  {
  }

  /** After recording a sha, fetching a list that starts with it again reports nothing. */
  lemma RecordedShaIsQuiet(b: Bookmark, commits: seq<Commit>, now: string)
    requires |commits| > 0
    ensures CheckForNewCommits(Recorded(b, commits[0].sha, now), Fetched(commits)) == NoNews
  {
  }

  predicate SameRepo(a: Bookmark, b: Bookmark) {
    a.owner == b.owner && a.repo == b.repo
  }

  function NotSameRepo(target: Bookmark): Bookmark -> bool {
    (b: Bookmark) => !SameRepo(b, target)
  }

  /** `{ ...b, lastCommitSha, lastChecked }`. */
  function Recorded(b: Bookmark, sha: string, now: string): Bookmark {
    b.(lastCommitSha := Some(sha), lastChecked := now)
  }

  /** `bookmarks.map(...)`: every bookmark of the target repository gets the new sha. */
  function MarkAll(bookmarks: seq<Bookmark>, target: Bookmark, sha: string, now: string): (r: seq<Bookmark>)
    ensures |r| == |bookmarks|
  {
    seq(|bookmarks|, k requires 0 <= k < |bookmarks| =>
      if SameRepo(bookmarks[k], target) then Recorded(bookmarks[k], sha, now) else bookmarks[k])
  }

  /** `find`: the position of the first bookmark of the target repository. */
  function FirstOf(bookmarks: seq<Bookmark>, target: Bookmark): (k: nat)
    requires exists j :: 0 <= j < |bookmarks| && SameRepo(bookmarks[j], target)
    ensures k < |bookmarks| && SameRepo(bookmarks[k], target)
    ensures forall j :: 0 <= j < k ==> !SameRepo(bookmarks[j], target)
  {
    if SameRepo(bookmarks[0], target) then 0
    else
      assert exists j :: 0 <= j < |bookmarks[1..]| && SameRepo(bookmarks[1..][j], target) by {
        var j :| 0 <= j < |bookmarks| && SameRepo(bookmarks[j], target);
        assert bookmarks[1..][j - 1] == bookmarks[j];
      }
      1 + FirstOf(bookmarks[1..], target)
  }

  /**
   * The update step of `checkAllBookmarks`: mark the target repository's
   * bookmarks, then put the first of them in front of all the others, dropping
   * any further copy. The target is one of the bookmarks in the list.
   */
  function MoveToFront(bookmarks: seq<Bookmark>, target: Bookmark, sha: string, now: string): seq<Bookmark>
    requires target in bookmarks
  {
    var updated := MarkAll(bookmarks, target, sha, now);
    assert SameRepo(updated[IndexOf(bookmarks, target)], target);
    [updated[FirstOf(updated, target)]] + Filter(updated, NotSameRepo(target))
  }

  function IndexOf(bookmarks: seq<Bookmark>, target: Bookmark): (k: nat)
    requires target in bookmarks
    ensures k < |bookmarks| && bookmarks[k] == target
  {
    if bookmarks[0] == target then 0 else 1 + IndexOf(bookmarks[1..], target)
  }

  /** Marking leaves the other repositories' bookmarks alone, so they filter alike. */
  lemma {:induction false} OthersUntouched(bookmarks: seq<Bookmark>, target: Bookmark, sha: string, now: string)
    ensures Filter(MarkAll(bookmarks, target, sha, now), NotSameRepo(target)) == Filter(bookmarks, NotSameRepo(target))
    decreases |bookmarks|
  {
    if bookmarks != [] {
      var m := MarkAll(bookmarks, target, sha, now);
      assert m[1..] == MarkAll(bookmarks[1..], target, sha, now);
      OthersUntouched(bookmarks[1..], target, sha, now);
    }
  }

  /**
   * The updated list starts with the first bookmark of the target repository,
   * carrying the new sha and check time; after it come exactly the bookmarks
   * of other repositories, unchanged and in their old order, so duplicates of
   * the target collapse into one.
   */
  lemma MoveToFrontSpec(bookmarks: seq<Bookmark>, target: Bookmark, sha: string, now: string) returns (idx: seq<nat>)
    requires target in bookmarks
    ensures var r := MoveToFront(bookmarks, target, sha, now);
      var first := FirstOf(bookmarks, target);
      |r| > 0 && r[0] == Recorded(bookmarks[first], sha, now)
      && (forall k :: 1 <= k < |r| ==> !SameRepo(r[k], target))
      && (forall b :: b in r[1..] <==> b in bookmarks && !SameRepo(b, target))
      && Picks(bookmarks, r[1..], idx)
      && (forall j :: 0 <= j < |bookmarks| && !SameRepo(bookmarks[j], target) ==> j in idx)
  {
    var updated := MarkAll(bookmarks, target, sha, now);
    var r := MoveToFront(bookmarks, target, sha, now);
    var i := IndexOf(bookmarks, target);
    assert SameRepo(updated[i], target);
    var first := FirstOf(bookmarks, target);
    var firstU := FirstOf(updated, target);
    assert firstU == first by {
      assert SameRepo(updated[first], target);
    }
    OthersUntouched(bookmarks, target, sha, now);
    var keep := NotSameRepo(target);
    FilterMembers(bookmarks, keep);
    idx := FilterIndices(bookmarks, keep);
    assert r[1..] == Filter(bookmarks, keep);
    forall k | 1 <= k < |r| ensures !SameRepo(r[k], target) {
      assert r[k] in Filter(bookmarks, keep);
    }
  }

  /** Whether the bookmark at `k` had news in this pass. */
  predicate HasNews(bookmarks: seq<Bookmark>, fetches: seq<Fetch>, k: nat)
    requires |fetches| == |bookmarks| && k < |bookmarks|
  {
    CheckForNewCommits(bookmarks[k], fetches[k]).News?
  }

  /** Among the first `n` bookmarks, the last one that had news. */
  function LastNews(bookmarks: seq<Bookmark>, fetches: seq<Fetch>, n: nat): (r: Option<nat>)
    requires |fetches| == |bookmarks| && n <= |bookmarks|
    ensures r.Some? ==> r.value < n && HasNews(bookmarks, fetches, r.value)
  {
    if n == 0 then None
    else if HasNews(bookmarks, fetches, n - 1) then Some(n - 1)
    else LastNews(bookmarks, fetches, n - 1)
  }

  lemma {:induction false} LastNewsSpec(bookmarks: seq<Bookmark>, fetches: seq<Fetch>, n: nat)
    requires |fetches| == |bookmarks| && n <= |bookmarks|
    ensures LastNews(bookmarks, fetches, n).None? ==> forall k :: 0 <= k < n ==> !HasNews(bookmarks, fetches, k)
    ensures LastNews(bookmarks, fetches, n).Some? ==>
      var j := LastNews(bookmarks, fetches, n).value;
      j < n && HasNews(bookmarks, fetches, j)
      && forall k :: j < k < n ==> !HasNews(bookmarks, fetches, k)
  {
    if n > 0 && !HasNews(bookmarks, fetches, n - 1) {
      LastNewsSpec(bookmarks, fetches, n - 1);
    }
  }

  /**
   * The stored list after a pass over the first `n` bookmarks: every update
   * starts again from the list read at the start of the pass, so only the
   * last bookmark with news leaves a trace.
   */
  function StoredAfter(bookmarks: seq<Bookmark>, fetches: seq<Fetch>, now: string, n: nat): seq<Bookmark>
    requires |fetches| == |bookmarks| && n <= |bookmarks|
  {
    match LastNews(bookmarks, fetches, n)
    case None => bookmarks
    case Some(j) =>
      MoveToFront(bookmarks, bookmarks[j], CheckForNewCommits(bookmarks[j], fetches[j]).newCommitSha, now)
  }

  /** One notification per bookmark with news: the bookmark as read and its new commits. */
  function NotificationsUpTo(bookmarks: seq<Bookmark>, fetches: seq<Fetch>, n: nat): seq<(Bookmark, seq<Commit>)>
    requires |fetches| == |bookmarks| && n <= |bookmarks|
  {
    if n == 0 then []
    else
      NotificationsUpTo(bookmarks, fetches, n - 1)
      + (if HasNews(bookmarks, fetches, n - 1)
         then [(bookmarks[n - 1], CheckForNewCommits(bookmarks[n - 1], fetches[n - 1]).newCommits)]
         else [])
  }

  /**
   * The notifications are the bookmarks with news, in list order, each with
   * its own new commits; `idx` gives their positions.
   */
  lemma {:induction false} NotificationsSpec(bookmarks: seq<Bookmark>, fetches: seq<Fetch>, n: nat) returns (idx: seq<nat>)
    requires |fetches| == |bookmarks| && n <= |bookmarks|
    ensures |idx| == |NotificationsUpTo(bookmarks, fetches, n)| && Increasing(idx)
    ensures forall m :: 0 <= m < |idx| ==>
      idx[m] < n && HasNews(bookmarks, fetches, idx[m])
      && NotificationsUpTo(bookmarks, fetches, n)[m]
         == (bookmarks[idx[m]], CheckForNewCommits(bookmarks[idx[m]], fetches[idx[m]]).newCommits)
    ensures forall k :: 0 <= k < n && HasNews(bookmarks, fetches, k) ==> k in idx
  {
    if n == 0 {
      idx := [];
    } else {
      var prev := NotificationsSpec(bookmarks, fetches, n - 1);
      var before := NotificationsUpTo(bookmarks, fetches, n - 1);
      if HasNews(bookmarks, fetches, n - 1) {
        var note := (bookmarks[n - 1], CheckForNewCommits(bookmarks[n - 1], fetches[n - 1]).newCommits);
        assert NotificationsUpTo(bookmarks, fetches, n) == before + [note];
        idx := prev + [n - 1];
        assert idx[|prev|] == n - 1;
      } else {
        assert NotificationsUpTo(bookmarks, fetches, n) == before;
        idx := prev;
      }
    }
  }

  /**
   * A bookmark that had news earlier in the pass than the last one with news,
   * for another repository: its new sha is lost, and the stored list still
   * holds it as it was read.
   */
  lemma EarlierUpdateLost(bookmarks: seq<Bookmark>, fetches: seq<Fetch>, now: string, i: nat, j: nat)
    requires |fetches| == |bookmarks| && i < j < |bookmarks|
    requires HasNews(bookmarks, fetches, i) && LastNews(bookmarks, fetches, |bookmarks|) == Some(j)
    requires !SameRepo(bookmarks[i], bookmarks[j])
    ensures bookmarks[i] in StoredAfter(bookmarks, fetches, now, |bookmarks|)
    ensures CheckForNewCommits(bookmarks[i], fetches[i]).News?
  {
    var sha := CheckForNewCommits(bookmarks[j], fetches[j]).newCommitSha;
    var r := MoveToFront(bookmarks, bookmarks[j], sha, now);
    var _ := MoveToFrontSpec(bookmarks, bookmarks[j], sha, now);
    assert bookmarks[i] in r[1..];
  }

  /** The monitor: whether its timer is running, and the stored bookmark list. */
  class Monitor {
    var running: bool
    var stored: seq<Bookmark>

    constructor (bookmarks: seq<Bookmark>)
      ensures !running && stored == bookmarks
    {
      running := false;
      stored := bookmarks;
    }

    /**
     * `checkAllBookmarks`: `fetches[k]` is the answer for the `k`-th bookmark
     * of the list read at the start. Returns the `onNewCommit` notifications
     * in order.
     */
    method CheckAllBookmarks(fetches: seq<Fetch>, now: string) returns (notes: seq<(Bookmark, seq<Commit>)>)
      requires |fetches| == |stored|
      modifies this`stored
      ensures stored == StoredAfter(old(stored), fetches, now, |fetches|)
      ensures notes == NotificationsUpTo(old(stored), fetches, |fetches|)
    {
      var bookmarks := stored;
      notes := [];
      var k := 0;
      while k < |bookmarks|
        invariant k <= |bookmarks| && bookmarks == old(stored)
        invariant stored == StoredAfter(bookmarks, fetches, now, k)
        invariant notes == NotificationsUpTo(bookmarks, fetches, k)
      {
        var bookmark := bookmarks[k];
        var result := CheckForNewCommits(bookmark, fetches[k]);
        if result.News? {
          stored := MoveToFront(bookmarks, bookmark, result.newCommitSha, now);
          notes := notes + [(bookmark, result.newCommits)];
        }
        k := k + 1;
      }
    }

    /**
     * `start`: a no-op while running; otherwise it checks at once and starts
     * the timer. The periodic checks the timer fires later are not modelled.
     */
    method Start(fetches: seq<Fetch>, now: string) returns (notes: seq<(Bookmark, seq<Commit>)>)
      requires |fetches| == |stored|
      modifies this
      ensures running
      ensures old(running) ==> stored == old(stored) && notes == []
      ensures !old(running) ==>
        stored == StoredAfter(old(stored), fetches, now, |fetches|)
        && notes == NotificationsUpTo(old(stored), fetches, |fetches|)
    {
      if running {
        notes := [];
        return;
      }
      notes := CheckAllBookmarks(fetches, now);
      running := true;
    }

    /** `stop`: clears the timer, so a later `start` runs again. */
    method Stop()
      modifies this`running
      ensures !running
    {
      running := false;
    }
  }
}
