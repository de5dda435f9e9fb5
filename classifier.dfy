/**
 * The per-commit decisions of the composer: the sung vowel for an author,
 * the dynamic intensity, the one-shot effect and the drum pattern.
 */
module Classifier {
  import opened Wrappers
  import opened JsText
  import opened Commits

  // ---------------------------------------------------------------- vowel

  /** `s.charCodeAt(0)`: the first UTF-16 code unit (a high surrogate for characters beyond the BMP). */
  function FirstCodeUnit(s: string): Option<nat> {
    if |s| == 0 then None
    else if s[0] as int < 0x10000 then Some(s[0] as int)
    else Some(0xD800 + (s[0] as int - 0x10000) / 0x400)
  }

  const Vowels: string := "aeiou"

  /** `getVowelForAuthor`: the vowel at the first code unit modulo 5; an empty name indexes with NaN. */
  function VowelForAuthor(author: string): (r: Option<char>)
    ensures r.None? <==> author == []
    ensures r.Some? ==> r.value in Vowels
  {
    match FirstCodeUnit(author)
    case None => None
    case Some(code) => Some(Vowels[code % |Vowels|])
  }

  /** For a first character in the Basic Multilingual Plane, the vowel cycles with its code point. */
  lemma VowelCycles(author: string)
    requires |author| > 0 && author[0] as int < 0x10000
    ensures VowelForAuthor(author) == Some(Vowels[author[0] as int % 5])
  {
  }

  lemma VowelExamples()
    ensures VowelForAuthor("Alice") == Some('a')
    ensures VowelForAuthor("bob") == Some('o')
    ensures VowelForAuthor("") == None
  {
  }

  /** The formant frequencies `singVowel` uses: the vowel's own row, or the `a` row for anything else. */
  function Formants(vowel: Option<char>): (f: (nat, nat, nat))
    ensures f.0 < f.1 < f.2
  {
    match vowel
    case Some('e') => (530, 1840, 2480)
    case Some('i') => (270, 2290, 3010)
    case Some('o') => (570, 840, 2410)
    case Some('u') => (440, 1020, 2240)
    case _ => (730, 1090, 2440)
  }

  /** An empty author name gets no vowel, and so sings with the formants of `a`. */
  lemma EmptyAuthorSingsA()
    ensures Formants(VowelForAuthor("")) == Formants(Some('a'))
  {
  }

  // ---------------------------------------------------------------- intensity

  const BreakingWords: seq<string> := ["breaking", "major", "rewrite", "refactor"]
  const FixWords: seq<string> := ["fix", "bug", "patch"]
  const FeatureWords: seq<string> := ["feat", "feature", "add"]

  predicate IsLateNight(hour: int) {
    (22 <= hour <= 23) || (0 <= hour <= 4)
  }

  /** `Math.min(filesChanged / 50, 1.0) * 0.3`, applied only when the count is non-zero. */
  function FilesBoost(filesChanged: nat): (b: real)
    ensures 0.0 <= b <= 0.3
    ensures filesChanged == 0 <==> b == 0.0
    ensures filesChanged >= 50 <==> b == 0.3
  {
    if filesChanged == 0 then 0.0
    else if filesChanged as real / 50.0 < 1.0 then filesChanged as real / 50.0 * 0.3
    else 0.3
  }

  /** The sum of the independent adjustments made before the clamp. */
  function Adjustment(c: Commit): (a: real)
    ensures -0.1 <= a <= 0.95
  {
    FilesBoost(c.filesChanged)
    + (if IsLateNight(c.hour) then 0.2 else 0.0)
    + (if MatchesAny(c.message, BreakingWords) then 0.3 else 0.0)
    - (if MatchesAny(c.message, FixWords) then 0.1 else 0.0)
    + (if MatchesAny(c.message, FeatureWords) then 0.15 else 0.0)
  }

  function Clamp(x: real): (r: real)
    ensures 0.3 <= r <= 1.5
    ensures 0.3 <= x <= 1.5 ==> r == x
    ensures x < 0.3 ==> r == 0.3
    ensures x > 1.5 ==> r == 1.5
  {
    if x < 0.3 then 0.3 else if x > 1.5 then 1.5 else x
  }

  /** The intensity `calculateDynamicIntensity` returns, as a value. */
  function DynamicIntensity(c: Commit, baseIntensity: real): (r: real)
    ensures 0.3 <= r <= 1.5
  {
    Clamp(baseIntensity + Adjustment(c))
  }

  /** `calculateDynamicIntensity`: start from the base and apply each adjustment in turn, then clamp. */
  method CalculateDynamicIntensity(c: Commit, baseIntensity: real) returns (intensity: real)
    ensures intensity == DynamicIntensity(c, baseIntensity)
    ensures 0.3 <= intensity <= 1.5
  {
    intensity := baseIntensity;
    if c.filesChanged != 0 {
      var ratio := c.filesChanged as real / 50.0;
      var filesBoost := (if ratio < 1.0 then ratio else 1.0) * 0.3;
      intensity := intensity + filesBoost;
    }
    if IsLateNight(c.hour) {
      intensity := intensity + 0.2;
    }
    if MatchesAny(c.message, BreakingWords) {
      intensity := intensity + 0.3;
    }
    if MatchesAny(c.message, FixWords) {
      intensity := intensity - 0.1;
    }
    if MatchesAny(c.message, FeatureWords) {
      intensity := intensity + 0.15;
    }
    intensity := if 1.5 < intensity then 1.5 else intensity;
    intensity := if 0.3 < intensity then intensity else 0.3;
  }

  /** When the base leaves room for every adjustment, nothing is clamped and the adjustments simply add up. */
  lemma IntensityUnclamped(c: Commit, baseIntensity: real)
    requires 0.4 <= baseIntensity <= 0.55
    ensures DynamicIntensity(c, baseIntensity) == baseIntensity + Adjustment(c)
  {
  }

  /** A higher base never gives a lower intensity. */
  lemma IntensityMonotoneInBase(c: Commit, b1: real, b2: real)
    requires b1 <= b2
    ensures DynamicIntensity(c, b1) <= DynamicIntensity(c, b2)
  {
  }

  /** More changed files never give a lower intensity, all else equal. */
  lemma IntensityMonotoneInFiles(c: Commit, more: nat, baseIntensity: real)
    requires c.filesChanged <= more
    ensures DynamicIntensity(c, baseIntensity) <= DynamicIntensity(c.(filesChanged := more), baseIntensity)
  {
    assert FilesBoost(c.filesChanged) <= FilesBoost(more);
  }

  // ---------------------------------------------------------------- effect

  datatype Effect = Cowbell | OrchestralHit | Glitch | Scratch

  /** The effect's name as the source spells it, used to build the `play…` method name. */
  function EffectName(e: Effect): string {
    match e
    case Cowbell => "cowbell"
    case OrchestralHit => "orchestralHit"
    case Glitch => "glitch"
    case Scratch => "scratch"
  }

  predicate IsMerge(c: Commit) { MatchesAny(c.message, ["merge"]) }
  predicate IsBreaking(c: Commit) { MatchesAny(c.message, ["breaking", "major"]) }

  /** `getCommitEffect`: the first rule that applies wins. */
  function CommitEffect(c: Commit): (r: Option<Effect>)
    ensures IsMerge(c) ==> r == Some(Cowbell)
    ensures r == Some(OrchestralHit) <==> !IsMerge(c) && IsBreaking(c)
    ensures r == Some(Glitch) <==> !IsMerge(c) && !IsBreaking(c) && c.filesChanged > 20
    ensures r == Some(Scratch) <==> !IsMerge(c) && !IsBreaking(c) && c.filesChanged <= 20 && 2 <= c.hour <= 4
    ensures r.None? <==> !IsMerge(c) && !IsBreaking(c) && c.filesChanged <= 20 && !(2 <= c.hour <= 4)
  {
    if IsMerge(c) then Some(Cowbell)
    else if IsBreaking(c) then Some(OrchestralHit)
    else if c.filesChanged > 20 then Some(Glitch)
    else if 2 <= c.hour <= 4 then Some(Scratch)
    else None
  }

  /** Every merge commit gets the cowbell, whatever else it says or touches. */
  lemma MergeAlwaysCowbell(c: Commit, files: nat, hour: int)
    requires Contains(Lower(c.message), "merge")
    ensures CommitEffect(c.(filesChanged := files, hour := hour)) == Some(Cowbell)
  {
    assert Contains(Lower(c.message), ["merge"][0]);
  }

  // ---------------------------------------------------------------- beat pattern

  datatype Drum = K | S | H
  datatype Pattern = Basic | Energetic | Syncopated | Breakdown | Buildup

  function Steps(p: Pattern): (r: seq<Drum>)
    ensures |r| == 8
  {
    match p
    case Basic => [K, H, S, H, K, H, S, H]
    case Energetic => [K, H, K, H, S, H, K, S]
    case Syncopated => [K, H, H, S, K, K, S, H]
    case Breakdown => [K, K, S, S, K, S, K, S]
    case Buildup => [H, H, H, H, K, S, K, S]
  }

  /** The slot a beat plays: every pattern has eight slots, so it is the beat index modulo 8. */
  function Slot(p: Pattern, beatIndex: nat): Drum {
    Steps(p)[beatIndex % |Steps(p)|]
  }

  function Abs(x: int): nat { if x < 0 then -x else x }

  /** The `reduce` in `selectBeatPattern`: the sum of absolute gaps between neighbouring commit dates. */
  function GapSum(recent: seq<Commit>): nat {
    if |recent| < 2 then 0
    else GapSum(recent[..|recent| - 1]) + Abs(recent[|recent| - 2].epochMs - recent[|recent| - 1].epochMs)
  }

  /** The mean gap is under an hour (3 600 000 ms); multiplied out, since the divisor is positive. */
  predicate Busy(recent: seq<Commit>) {
    |recent| >= 3 && GapSum(recent) < 3600000 * (|recent| - 1)
  }

  /** `selectBeatPattern`. */
  function SelectBeatPattern(c: Commit, recent: seq<Commit>): (p: Pattern)
    ensures p == Breakdown <==> Contains(Lower(c.message), "merge")
    ensures p == Syncopated <==> !Contains(Lower(c.message), "merge") && c.filesChanged > 15
    ensures p == Buildup <==> !Contains(Lower(c.message), "merge") && c.filesChanged <= 15 && MatchesAny(c.message, FeatureWords)
    ensures p == Energetic <==> !Contains(Lower(c.message), "merge") && c.filesChanged <= 15 && !MatchesAny(c.message, FeatureWords) && Busy(recent)
    ensures p == Basic <==> !Contains(Lower(c.message), "merge") && c.filesChanged <= 15 && !MatchesAny(c.message, FeatureWords) && !Busy(recent)
    ensures p == Energetic ==> |recent| >= 3
  {
    if Contains(Lower(c.message), "merge") then Breakdown
    else if c.filesChanged > 15 then Syncopated
    else if MatchesAny(c.message, FeatureWords) then Buildup
    else if Busy(recent) then Energetic
    else Basic
  }

  /** The commits just before beat `i`: at most five of them. */
  function Recent(commits: seq<Commit>, i: nat): (r: seq<Commit>)
    requires i <= |commits|
    ensures |r| == if i < 5 then i else 5
    ensures forall k :: 0 <= k < |r| ==> r[k] == commits[i - |r| + k]
  {
    commits[(if i < 5 then 0 else i - 5)..i]
  }

  /** The gaps add up to at least the distance between the first and the last date. */
  lemma {:induction false} GapSumCoversSpan(recent: seq<Commit>)
    requires |recent| >= 1
    ensures Abs(recent[0].epochMs - recent[|recent| - 1].epochMs) <= GapSum(recent)
  {
    if |recent| >= 2 {
      GapSumCoversSpan(recent[..|recent| - 1]);
    }
  }

  /** The energetic pattern only plays when the recent commits span less than an hour per gap. */
  lemma EnergeticImpliesShortSpan(c: Commit, recent: seq<Commit>)
    requires SelectBeatPattern(c, recent) == Energetic
    ensures Abs(recent[0].epochMs - recent[|recent| - 1].epochMs) < 3600000 * (|recent| - 1)
  {
    GapSumCoversSpan(recent);
  }

  /** Conversely, every gap under an hour makes the window busy. */
  lemma {:induction false} ShortGapsAreBusy(recent: seq<Commit>)
    requires |recent| >= 2
    requires forall k :: 0 < k < |recent| ==> Abs(recent[k - 1].epochMs - recent[k].epochMs) < 3600000
    ensures GapSum(recent) < 3600000 * (|recent| - 1)
  {
    if |recent| > 2 {
      ShortGapsAreBusy(recent[..|recent| - 1]);
    }
  }
}
