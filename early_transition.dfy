/**
 * A five-commit history whose offline rendering schedules a sound before the
 * track starts: beat 1 enters a bridge, and the reverse cymbal that announces
 * a bridge sounds 1.5 beats ahead of it, half a beat before time 0.
 */
module EarlyTransition {
  import opened Wrappers
  import opened JsText
  import opened Commits
  import opened SongStructure
  import opened SectionMap
  import opened Schedule
  import opened ScheduleProperties

  function SampleCommit(sha: string, message: string): Commit {
    Commit(sha, message, "dev", 0, 12, 1, None, [])
  }

  /** Most recent first: one plain commit, then four that mention a major change. */
  const Sample: seq<Commit> := [
    SampleCommit("a0", "x"), SampleCommit("a1", "major"), SampleCommit("a2", "major"),
    SampleCommit("a3", "major"), SampleCommit("a4", "major")
  ]

  lemma MajorIsBridge(c: Commit)
    requires c.message == "major"
    ensures IsBridgeCommit(c)
  {
    assert Lower("major") == "major";
    assert Contains("major", BridgeWords[2]);
  }

  lemma PlainIsNotBridge(c: Commit)
    requires c.message == "x"
    ensures !IsBridgeCommit(c)
  {
    assert Lower("x") == "x";
    forall k | 0 <= k < |BridgeWords| ensures !Contains("x", BridgeWords[k]) {
      if Contains("x", BridgeWords[k]) {
        ContainsLength("x", BridgeWords[k]);
      }
    }
  }

  /** `filter` over one more commit. */
  lemma CandidatesStep(cs: seq<Commit>, c: Commit)
    ensures BridgeCandidates(cs + [c]) == BridgeCandidates(cs) + (if IsBridgeCommit(c) then [c] else [])
  {
    assert (cs + [c])[..|cs|] == cs;
  }

  lemma FiveCandidates(c0: Commit, c1: Commit, c2: Commit, c3: Commit, c4: Commit)
    requires !IsBridgeCommit(c0)
    requires IsBridgeCommit(c1) && IsBridgeCommit(c2) && IsBridgeCommit(c3) && IsBridgeCommit(c4)
    ensures BridgeCandidates([c0, c1, c2, c3, c4]) == [c1, c2, c3, c4]
  {
    assert [c0][..0] == [];
    assert BridgeCandidates([c0]) == [];
    assert [c0, c1][..1] == [c0];
    assert BridgeCandidates([c0, c1]) == [c1];
    assert [c0, c1, c2][..2] == [c0, c1];
    assert BridgeCandidates([c0, c1, c2]) == [c1, c2];
    assert [c0, c1, c2, c3][..3] == [c0, c1, c2];
    assert BridgeCandidates([c0, c1, c2, c3]) == [c1, c2, c3];
    assert [c0, c1, c2, c3, c4][..4] == [c0, c1, c2, c3];
  }

  lemma SampleBridges()
    ensures BridgeCandidates(Sample) == Sample[1..]
  {
    PlainIsNotBridge(Sample[0]);
    MajorIsBridge(Sample[1]);
    MajorIsBridge(Sample[2]);
    MajorIsBridge(Sample[3]);
    MajorIsBridge(Sample[4]);
    FiveCandidates(Sample[0], Sample[1], Sample[2], Sample[3], Sample[4]);
    assert Sample == [Sample[0], Sample[1], Sample[2], Sample[3], Sample[4]];
  }

  const SampleVerse := Section(Verse, Sample[4..], {Drums, Bass}, 0.7)
  const SampleBridge := Section(Bridge, Sample[1..], {Bass, Synth}, 0.6)

  /** Five commits: a one-commit verse and a four-commit bridge, nothing else. */
  lemma SampleStructure()
    ensures Structure(Sample) == [SampleVerse, SampleBridge]
  {
    SampleBridges();
    assert IntensePeriod(Sample) == [];
    assert IntroSize(5) == 0 && VerseSize(5) == 1 && OutroSize(5) == 0;
    assert IntroPart(Sample) == [];
    assert Sample[4..5] == Sample[4..];
    assert VersePart(Sample) == [SampleVerse];
    assert ChorusPart(Sample) == [];
    assert Sample[1..][..Min(8, 4)] == Sample[1..];
    assert BridgePart(Sample) == [SampleBridge];
    assert OutroPart(Sample) == [];
  }

  /** The first commit is in no section; the second is in the bridge. */
  lemma SampleLookup()
    ensures "a0" !in ShaMap([SampleVerse, SampleBridge])
    ensures "a1" in ShaMap([SampleVerse, SampleBridge]) && ShaMap([SampleVerse, SampleBridge])["a1"] == SampleBridge
  {
    assert [SampleVerse, SampleBridge][..1] == [SampleVerse];
    assert [SampleVerse][..0] == [];
    assert ShaMap([SampleVerse]) == map[] + Tagged(SampleVerse, Sample[4..]);
    var m := ShaMap([SampleVerse, SampleBridge]);
    assert m == ShaMap([SampleVerse]) + Tagged(SampleBridge, Sample[1..]);
    assert "a0" !in ShasOf(Sample[4..]);
    assert "a0" !in ShasOf(Sample[1..]);
    assert Sample[1..][0].sha == "a1";
    assert "a1" in ShasOf(Sample[1..]);
  }

  /** Beat 0 falls back to the default verse, beat 1 is in the bridge. */
  lemma SampleSections(plan: Plan)
    requires plan.commits == Sample && plan.bySha == ShaMap(Structure(Sample))
    ensures SectionAt(plan, 0) == DefaultSection
    ensures SectionAt(plan, 1) == SampleBridge
  {
    SampleStructure();
    SampleLookup();
  }

  /** Entering a bridge on beat 1 puts a reverse cymbal 1.5 beats before that beat. */
  lemma BridgeEntryCymbal(plan: Plan, n: nat)
    requires 2 <= n <= |plan.commits|
    requires SectionAt(plan, 1).kind == Bridge && SectionAt(plan, 0).kind != Bridge
    ensures Event(TimeAt(plan, 1) - plan.beat * 1.5, TransitionPart, ReverseCymbal) in TrackEvents(Offline, plan, n)
  {
    var e := Event(TimeAt(plan, 1) - plan.beat * 1.5, TransitionPart, ReverseCymbal);
    assert TransitionEvents(plan, 1) == [e];
    BeatMember(Offline, plan, 1, e);
    TrackMembers(Offline, plan, n, e);
  }

  /** With the track starting at 0, beat 1 less 1.5 beats is half a beat before the start. */
  lemma CymbalTime(plan: Plan)
    requires plan.start == 0.0 && plan.beat > 0.0
    ensures TimeAt(plan, 1) - plan.beat * 1.5 == 0.0 - plan.beat * 0.5 < 0.0
  {
  }

  /**
   * From the second beat on, the offline track of `Sample` holds the reverse
   * cymbal of beat 1, half a beat before time 0, where the rendering starts.
   */
  lemma EarlyCymbal(plan: Plan, n: nat)
    requires plan.commits == Sample && plan.bySha == ShaMap(Structure(Sample))
    requires plan.start == 0.0 && plan.beat > 0.0 && 2 <= n <= |Sample|
    ensures Event(TimeAt(plan, 1) - plan.beat * 1.5, TransitionPart, ReverseCymbal) in TrackEvents(Offline, plan, n)
    ensures TimeAt(plan, 1) - plan.beat * 1.5 == 0.0 - plan.beat * 0.5 < 0.0
  {
    SampleSections(plan);
    BridgeEntryCymbal(plan, n);
    CymbalTime(plan);
  }

  lemma TempoBeat(bpm: real)
    requires bpm > 0.0
    ensures 60.0 / bpm > 0.0
  {
  }

  /** The same at every tempo, for the plan the offline generator builds. */
  lemma EarlyCymbalAtAnyTempo(bpm: real, plan: Plan, n: nat)
    requires bpm > 0.0 && plan == PlanFor(Sample, 0.0, bpm, None) && 2 <= n <= |Sample|
    ensures Event(TimeAt(plan, 1) - plan.beat * 1.5, TransitionPart, ReverseCymbal) in TrackEvents(Offline, plan, n)
    ensures TimeAt(plan, 1) - plan.beat * 1.5 == 0.0 - plan.beat * 0.5 < 0.0
  {
    TempoBeat(bpm);
    EarlyCymbal(plan, n);
  }
}
