/**
 * Song structure: the sections `detectSongStructure` carves out of the
 * commit list (newest first), and the densest ten-commit window that
 * becomes the chorus.
 */
module SongStructure {
  import opened Wrappers
  import opened JsText
  import opened Commits
  import opened Classifier

  datatype SectionKind = Intro | Verse | Chorus | Bridge | Outro
  datatype Layer = Drums | Bass | Synth | Vocal
  datatype Section = Section(kind: SectionKind, commits: seq<Commit>, layers: set<Layer>, intensity: real)

  /** Position of a kind in the order the sections are pushed. */
  function KindRank(k: SectionKind): nat {
    match k
    case Intro => 0
    case Verse => 1
    case Chorus => 2
    case Bridge => 3
    case Outro => 4
  }

  const WindowSize: nat := 10

  // ---------------------------------------------------------------- intense period

  /** `|date(first) - date(last)|` of the ten-commit window starting at `i`. */
  function Span(commits: seq<Commit>, i: nat): nat
    requires i + WindowSize <= |commits|
  {
    Abs(commits[i].epochMs - commits[i + WindowSize - 1].epochMs)
  }

  /** `windowSize / (timeSpan / (1000 * 60 * 60))`: commits per hour of the window. */
  function Density(span: nat): real
    requires span > 0
  {
    WindowSize as real / (span as real / 3600000.0)
  }

  lemma ReciprocalOrder(x: real, y: real)
    requires x > 0.0 && y > 0.0
    ensures 10.0 / x > 10.0 / y <==> x < y
    ensures 10.0 / x > 0.0
  {
    var p := 10.0 / x;
    var q := 10.0 / y;
    assert p * x == 10.0 && q * y == 10.0;
    if x < y {
      assert q * x < q * y;
      assert (p - q) * x == p * x - q * x;
    } else {
      assert p * y <= p * x;
      assert (q - p) * y == q * y - p * y;
    }
  }

  lemma DensityOrder(a: nat, b: nat)
    requires a > 0 && b > 0
    ensures Density(a) > Density(b) <==> a < b
    ensures Density(a) > 0.0
  {
    ReciprocalOrder(a as real / 3600000.0, b as real / 3600000.0);
  }

  /**
   * The window the scan keeps after looking at starts `0 .. n-1`: the first
   * strictly densest one (that is, the first strictly shortest non-zero span).
   */
  function BestUpTo(commits: seq<Commit>, n: nat): (r: Option<nat>)
    requires n + WindowSize <= |commits|
    ensures r.Some? ==> r.value < n && Span(commits, r.value) > 0
  {
    if n == 0 then None
    else
      var prev := BestUpTo(commits, n - 1);
      var span := Span(commits, n - 1);
      if span == 0 then prev
      else if prev.None? || span < Span(commits, prev.value) then Some(n - 1)
      else prev
  }

  /** The scan's choice: a non-zero span, no longer than any other scanned non-zero span, and the first such. */
  lemma {:induction false} BestIsEarliestShortest(commits: seq<Commit>, n: nat)
    requires n + WindowSize <= |commits|
    ensures BestUpTo(commits, n).None? <==> forall j :: 0 <= j < n ==> Span(commits, j) == 0
    ensures BestUpTo(commits, n).Some? ==>
      var b := BestUpTo(commits, n).value;
      && Span(commits, b) > 0
      && (forall j :: 0 <= j < n && Span(commits, j) > 0 ==> Span(commits, b) <= Span(commits, j))
      && (forall j :: 0 <= j < b ==> Span(commits, j) == 0 || Span(commits, b) < Span(commits, j))
  {
    if n > 0 {
      BestIsEarliestShortest(commits, n - 1);
    }
  }

  /** Where the chosen window starts: the scan's choice, or 0 when no window has a non-zero span. */
  function IntenseStart(commits: seq<Commit>): (s: nat)
    requires |commits| >= WindowSize
    ensures s + WindowSize <= |commits|
    ensures s == 0 || s < |commits| - WindowSize
  {
    match BestUpTo(commits, |commits| - WindowSize)
    case None => 0
    case Some(b) => b
  }

  /** `findIntenseCommitPeriod`, as a value. The last start, `N - 10`, is never scanned. */
  function IntensePeriod(commits: seq<Commit>): (r: seq<Commit>)
    ensures r == [] <==> |commits| < WindowSize
    ensures |commits| >= WindowSize ==> |r| == WindowSize
  {
    if |commits| < WindowSize then []
    else commits[IntenseStart(commits)..IntenseStart(commits) + WindowSize]
  }

  /** With exactly ten commits the only candidate start is never scanned, so the period is all of them. */
  lemma TenCommitsArePeriod(commits: seq<Commit>)
    requires |commits| == WindowSize
    ensures IntensePeriod(commits) == commits
  {
    assert commits[0..WindowSize] == commits;
  }

  /** The scan's two variables agree with its choice so far. */
  predicate Kept(commits: seq<Commit>, i: nat, maxDensity: real, bestWindow: seq<Commit>)
    requires i + WindowSize <= |commits|
  {
    match BestUpTo(commits, i)
    case None => maxDensity == 0.0 && bestWindow == []
    case Some(b) => maxDensity == Density(Span(commits, b)) && bestWindow == commits[b..b + WindowSize]
  }

  /** One step of the scan: a denser window replaces the best one, exactly as a shorter non-zero span does. */
  lemma ScanStep(commits: seq<Commit>, i: nat, maxDensity: real, bestWindow: seq<Commit>)
    requires i + 1 + WindowSize <= |commits|
    requires Kept(commits, i, maxDensity, bestWindow)
    ensures Span(commits, i) == 0 ==> Kept(commits, i + 1, maxDensity, bestWindow)
    ensures Span(commits, i) != 0 ==>
      if Density(Span(commits, i)) > maxDensity
      then Kept(commits, i + 1, Density(Span(commits, i)), commits[i..i + WindowSize])
      else Kept(commits, i + 1, maxDensity, bestWindow)
  {
    var span := Span(commits, i);
    if span != 0 {
      DensityOrder(span, span);
      match BestUpTo(commits, i)
      case None =>
      case Some(b) => DensityOrder(span, Span(commits, b));
    }
  }

  /** `findIntenseCommitPeriod`: the scan keeps the densest window seen so far. */
  method FindIntenseCommitPeriod(commits: seq<Commit>) returns (period: seq<Commit>)
    ensures period == IntensePeriod(commits)
  {
    if |commits| < WindowSize {
      return [];
    }
    var maxDensity: real := 0.0;
    var bestWindow: seq<Commit> := [];
    var i := 0;
    while i < |commits| - WindowSize
      invariant 0 <= i <= |commits| - WindowSize
      invariant Kept(commits, i, maxDensity, bestWindow)
    {
      var window := commits[i..i + WindowSize];
      var timeSpan := Abs(window[0].epochMs - window[WindowSize - 1].epochMs);
      assert timeSpan == Span(commits, i);
      ScanStep(commits, i, maxDensity, bestWindow);
      if timeSpan != 0 {
        var density := Density(timeSpan);
        if density > maxDensity {
          maxDensity := density;
          bestWindow := window;
        }
      }
      i := i + 1;
    }
    period := if |bestWindow| > 0 then bestWindow else commits[..WindowSize];
    assert commits[..WindowSize] == commits[0..0 + WindowSize];
  }

  // ---------------------------------------------------------------- sections

  const BridgeWords: seq<string> := ["refactor", "breaking", "major", "rewrite"]

  predicate IsBridgeCommit(c: Commit) {
    MatchesAny(c.message, BridgeWords)
  }

  /** `commits.filter(...)` for the bridge test, keeping order. */
  function BridgeCandidates(commits: seq<Commit>): (r: seq<Commit>)
    ensures |r| <= |commits|
  {
    if |commits| == 0 then []
    else BridgeCandidates(commits[..|commits| - 1])
         + (if IsBridgeCommit(commits[|commits| - 1]) then [commits[|commits| - 1]] else [])
  }

  /** The candidates are exactly the commits that pass the bridge test. */
  lemma {:induction false} BridgeCandidatesMembers(commits: seq<Commit>)
    ensures forall c :: c in BridgeCandidates(commits) <==> c in commits && IsBridgeCommit(c)
  {
    if |commits| > 0 {
      var init := commits[..|commits| - 1];
      BridgeCandidatesMembers(init);
      assert commits == init + [commits[|commits| - 1]];
    }
  }

  function Min(a: int, b: int): int { if a < b then a else b }

  function IntroSize(n: nat): nat { Min(8, n / 10) }
  function VerseSize(n: nat): nat { (n * 3) / 10 }
  function OutroSize(n: nat): nat { Min(4, n / 10) }

  function IntroPart(commits: seq<Commit>): seq<Section> {
    var n := |commits|;
    if IntroSize(n) > 0 then [Section(Intro, commits[n - IntroSize(n)..n], {Drums}, 0.5)] else []
  }

  function VersePart(commits: seq<Commit>): seq<Section> {
    var n := |commits|;
    if VerseSize(n) > 0 then
      [Section(Verse, commits[n - IntroSize(n) - VerseSize(n)..n - IntroSize(n)], {Drums, Bass}, 0.7)]
    else []
  }

  function ChorusPart(commits: seq<Commit>): seq<Section> {
    var period := IntensePeriod(commits);
    if |period| >= 4 then [Section(Chorus, period, {Drums, Bass, Synth, Vocal}, 1.0)] else []
  }

  function BridgePart(commits: seq<Commit>): seq<Section> {
    var breaking := BridgeCandidates(commits);
    if |breaking| >= 4 then [Section(Bridge, breaking[..Min(8, |breaking|)], {Bass, Synth}, 0.6)] else []
  }

  function OutroPart(commits: seq<Commit>): seq<Section> {
    var n := |commits|;
    if OutroSize(n) > 0 then [Section(Outro, commits[..OutroSize(n)], {Drums, Bass}, 0.4)] else []
  }

  /** The whole track as one verse, used when no other section exists. */
  function Fallback(commits: seq<Commit>): Section {
    Section(Verse, commits, {Drums, Bass, Synth}, 0.8)
  }

  /** `detectSongStructure`, as a value. */
  function Structure(commits: seq<Commit>): seq<Section> {
    var parts := IntroPart(commits) + VersePart(commits) + ChorusPart(commits) + BridgePart(commits) + OutroPart(commits);
    if parts == [] then [Fallback(commits)] else parts
  }

  /** `detectSongStructure`: push each section whose size is positive, in order; fall back to one verse. */
  method DetectSongStructure(commits: seq<Commit>) returns (sections: seq<Section>)
    ensures sections == Structure(commits)
  {
    sections := [];
    var totalCommits := |commits|;
    var introSize := Min(8, totalCommits / 10);
    if introSize > 0 {
      sections := sections + [Section(Intro, commits[totalCommits - introSize..totalCommits], {Drums}, 0.5)];
    }
    assert sections == IntroPart(commits);
    var verseSize := (totalCommits * 3) / 10;
    if verseSize > 0 {
      sections := sections + [Section(Verse, commits[totalCommits - introSize - verseSize..totalCommits - introSize], {Drums, Bass}, 0.7)];
    }
    assert sections == IntroPart(commits) + VersePart(commits);
    var intensePeriod := FindIntenseCommitPeriod(commits);
    if |intensePeriod| >= 4 {
      sections := sections + [Section(Chorus, intensePeriod, {Drums, Bass, Synth, Vocal}, 1.0)];
    }
    assert sections == IntroPart(commits) + VersePart(commits) + ChorusPart(commits);
    var breakingChanges := BridgeCandidates(commits);
    if |breakingChanges| >= 4 {
      sections := sections + [Section(Bridge, breakingChanges[..Min(8, |breakingChanges|)], {Bass, Synth}, 0.6)];
    }
    assert sections == IntroPart(commits) + VersePart(commits) + ChorusPart(commits) + BridgePart(commits);
    var outroSize := Min(4, totalCommits / 10);
    if outroSize > 0 {
      sections := sections + [Section(Outro, commits[..outroSize], {Drums, Bass}, 0.4)];
    }
    assert sections == IntroPart(commits) + VersePart(commits) + ChorusPart(commits) + BridgePart(commits) + OutroPart(commits);
    if |sections| == 0 {
      sections := sections + [Fallback(commits)];
    }
  }

  /** The single fallback verse appears exactly for tracks of at most three commits. */
  lemma FallbackIffShort(commits: seq<Commit>)
    ensures Structure(commits) == [Fallback(commits)] <==> |commits| <= 3
  {
    var n := |commits|;
    if n <= 3 {
      assert IntensePeriod(commits) == [];
      assert |BridgeCandidates(commits)| <= 3;
    } else {
      var v := VersePart(commits)[0];
      assert v in Structure(commits);
      assert v.intensity != Fallback(commits).intensity;
    }
  }

  predicate Ascending(s: seq<Section>) {
    forall a, b :: 0 <= a < b < |s| ==> KindRank(s[a].kind) < KindRank(s[b].kind)
  }

  predicate RanksIn(s: seq<Section>, lo: nat, hi: nat) {
    forall a :: 0 <= a < |s| ==> lo <= KindRank(s[a].kind) < hi
  }

  lemma AscendingConcat(s: seq<Section>, t: seq<Section>, lo: nat, mid: nat, hi: nat)
    requires lo <= mid <= hi
    requires Ascending(s) && RanksIn(s, lo, mid)
    requires Ascending(t) && RanksIn(t, mid, hi)
    ensures Ascending(s + t) && RanksIn(s + t, lo, hi)
  {
    forall a, b | 0 <= a < b < |s + t| ensures KindRank((s + t)[a].kind) < KindRank((s + t)[b].kind) {
      if b < |s| {
        assert (s + t)[a] == s[a] && (s + t)[b] == s[b];
      } else if a < |s| {
        assert (s + t)[a] == s[a] && (s + t)[b] == t[b - |s|];
      } else {
        assert (s + t)[a] == t[a - |s|] && (s + t)[b] == t[b - |s|];
      }
    }
    forall a | 0 <= a < |s + t| ensures lo <= KindRank((s + t)[a].kind) < hi {
      if a < |s| { assert (s + t)[a] == s[a]; } else { assert (s + t)[a] == t[a - |s|]; }
    }
  }

  lemma SingleRank(s: seq<Section>, k: SectionKind)
    requires |s| <= 1 && forall x :: x in s ==> x.kind == k
    ensures Ascending(s) && RanksIn(s, KindRank(k), KindRank(k) + 1)
  {
    if |s| == 1 { assert s[0] in s; }
  }

  /** Section kinds come out in push order, each at most once. */
  lemma SectionsInOrder(commits: seq<Commit>)
    ensures |Structure(commits)| >= 1
    ensures forall a, b :: 0 <= a < b < |Structure(commits)| ==>
      KindRank(Structure(commits)[a].kind) < KindRank(Structure(commits)[b].kind)
  {
    var I, V, C, B, O := IntroPart(commits), VersePart(commits), ChorusPart(commits), BridgePart(commits), OutroPart(commits);
    SingleRank(I, Intro);
    SingleRank(V, Verse);
    SingleRank(C, Chorus);
    SingleRank(B, Bridge);
    SingleRank(O, Outro);
    AscendingConcat(I, V, 0, 1, 2);
    AscendingConcat(I + V, C, 0, 2, 3);
    AscendingConcat(I + V + C, B, 0, 3, 4);
    AscendingConcat(I + V + C + B, O, 0, 4, 5);
    assert Ascending(Structure(commits));
  }

  /** The parts hold at most one section each, of their own kind. */
  lemma PartKinds(commits: seq<Commit>)
    ensures forall x :: x in IntroPart(commits) ==> x.kind == Intro
    ensures forall x :: x in VersePart(commits) ==> x.kind == Verse
    ensures forall x :: x in ChorusPart(commits) ==> x == ChorusPart(commits)[0] && x.kind == Chorus
    ensures forall x :: x in BridgePart(commits) ==> x == BridgePart(commits)[0] && x.kind == Bridge
    ensures forall x :: x in OutroPart(commits) ==> x.kind == Outro
  {
  }

  /** There is a chorus exactly when there are at least ten commits, and it is ten consecutive commits. */
  lemma ChorusIffTen(commits: seq<Commit>)
    ensures (exists k :: 0 <= k < |Structure(commits)| && Structure(commits)[k].kind == Chorus) <==> |commits| >= WindowSize
    ensures forall k :: 0 <= k < |Structure(commits)| && Structure(commits)[k].kind == Chorus ==>
      Structure(commits)[k].commits == IntensePeriod(commits) && |Structure(commits)[k].commits| == WindowSize
  {
    PartKinds(commits);
    var S := Structure(commits);
    if |commits| >= WindowSize {
      var x := ChorusPart(commits)[0];
      assert x in S;
      var k :| 0 <= k < |S| && S[k] == x;
    }
    forall k | 0 <= k < |S| && S[k].kind == Chorus
      ensures S[k].commits == IntensePeriod(commits) && |S[k].commits| == WindowSize
    {
      assert S[k] in S;
      assert S[k] in ChorusPart(commits);
    }
  }

  /** From four commits on there is a verse, so the structure is the pushed parts themselves. */
  lemma StructureOfLong(commits: seq<Commit>)
    requires |commits| >= 4
    ensures Structure(commits) == IntroPart(commits) + VersePart(commits) + ChorusPart(commits) + BridgePart(commits) + OutroPart(commits)
  {
    assert VerseSize(|commits|) > 0;
  }

  /** From ten commits on, the structure opens with the intro: the oldest commits, at most eight. */
  lemma IntroFirst(commits: seq<Commit>)
    requires |commits| >= 10
    ensures Structure(commits)[0] == Section(Intro, commits[|commits| - IntroSize(|commits|)..], {Drums}, 0.5)
    ensures 1 <= IntroSize(|commits|) <= 8
  {
    var n := |commits|;
    StructureOfLong(commits);
    LongPartSizes(commits);
    var I := IntroPart(commits);
    assert (I + VersePart(commits) + ChorusPart(commits) + BridgePart(commits) + OutroPart(commits))[0] == I[0];
    SliceJoin(commits, n - IntroSize(n), n - IntroSize(n));
  }

  /** The verse comes second and holds the commits right before the intro's. */
  lemma VerseSecond(commits: seq<Commit>)
    requires |commits| >= 10
    ensures Structure(commits)[1].kind == Verse
    ensures Structure(commits)[1].commits + Structure(commits)[0].commits
         == commits[|commits| - IntroSize(|commits|) - VerseSize(|commits|)..]
  {
    var n := |commits|;
    StructureOfLong(commits);
    LongPartSizes(commits);
    SizesFit(n);
    var I, V := IntroPart(commits), VersePart(commits);
    var rest := ChorusPart(commits) + BridgePart(commits) + OutroPart(commits);
    assert I + V + ChorusPart(commits) + BridgePart(commits) + OutroPart(commits) == I + V + rest;
    assert (I + V + rest)[0] == I[0] && (I + V + rest)[1] == V[0];
    SliceJoin(commits, n - IntroSize(n) - VerseSize(n), n - IntroSize(n));
  }

  /** The structure closes with the outro: the newest commits, at most four. */
  lemma OutroLast(commits: seq<Commit>)
    requires |commits| >= 10
    ensures Structure(commits)[|Structure(commits)| - 1] == Section(Outro, commits[..OutroSize(|commits|)], {Drums, Bass}, 0.4)
    ensures 1 <= OutroSize(|commits|) <= 4
  {
    StructureOfLong(commits);
    LongPartSizes(commits);
    var front := IntroPart(commits) + VersePart(commits) + ChorusPart(commits) + BridgePart(commits);
    var O := OutroPart(commits);
    assert (front + O)[|front + O| - 1] == O[0];
  }

  lemma SizesFit(n: nat)
    ensures IntroSize(n) + VerseSize(n) <= n
  {
    assert (n * 3) / 10 <= n / 10 * 3 + 2;
  }

  lemma SliceJoin(commits: seq<Commit>, lo: nat, mid: nat)
    requires lo <= mid <= |commits|
    ensures commits[lo..mid] + commits[mid..|commits|] == commits[lo..]
    ensures commits[mid..|commits|] == commits[mid..]
  {
  }

  lemma LongPartSizes(commits: seq<Commit>)
    requires |commits| >= 10
    ensures |IntroPart(commits)| == 1 && |VersePart(commits)| == 1 && |OutroPart(commits)| == 1
    ensures 1 <= IntroSize(|commits|) <= 8 && 1 <= OutroSize(|commits|) <= 4
  {
    assert |commits| / 10 >= 1;
  }

  /**
   * The bridge, when present, is the first eight commits that mention a
   * structural change, or all of them when there are fewer, with bass and
   * synth at 0.6.
   */
  lemma BridgeContents(commits: seq<Commit>)
    ensures (exists k :: 0 <= k < |Structure(commits)| && Structure(commits)[k].kind == Bridge) <==> |BridgeCandidates(commits)| >= 4
    ensures forall k :: 0 <= k < |Structure(commits)| && Structure(commits)[k].kind == Bridge ==>
      && 4 <= |Structure(commits)[k].commits| <= 8
      && Structure(commits)[k].commits <= BridgeCandidates(commits)
      && forall c :: c in Structure(commits)[k].commits ==> c in commits && IsBridgeCommit(c)
    ensures forall k :: 0 <= k < |Structure(commits)| && Structure(commits)[k].kind == Bridge ==>
      Structure(commits)[k]
      == Section(Bridge, BridgeCandidates(commits)[..Min(8, |BridgeCandidates(commits)|)], {Bass, Synth}, 0.6)
  {
    PartKinds(commits);
    BridgeCandidatesMembers(commits);
    var S := Structure(commits);
    var B := BridgeCandidates(commits);
    if |B| >= 4 {
      var x := BridgePart(commits)[0];
      assert x in S;
      var k :| 0 <= k < |S| && S[k] == x;
    }
    forall k | 0 <= k < |S| && S[k].kind == Bridge
      ensures 4 <= |S[k].commits| <= 8 && S[k].commits <= B
      ensures forall c :: c in S[k].commits ==> c in commits && IsBridgeCommit(c)
      ensures S[k] == Section(Bridge, B[..Min(8, |B|)], {Bass, Synth}, 0.6)
    {
      assert S[k] in S;
      assert S[k] in BridgePart(commits);
      forall c | c in S[k].commits ensures c in B {
        var j :| 0 <= j < |S[k].commits| && S[k].commits[j] == c;
        assert B[j] == c;
      }
    }
  }
}
