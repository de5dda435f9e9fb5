/**
 * What the two generators schedule, as values. Each Web Audio generator
 * call becomes one `Event` (its start time, the mixer part it belongs to,
 * and the arguments that reach the generator); a beat's events are listed
 * in the order the loop body calls the generators.
 */
module Schedule {
  import opened Wrappers
  import opened JsText
  import opened Lists
  import opened Commits
  import opened MusicTheory
  import opened Classifier
  import opened SongStructure
  import opened SectionMap
  import opened EasterEggs

  /** `generateTrack` (real-time context) or `generateTrackOffline` (rendering context). */
  datatype Mode = Live | Offline

  datatype Part = TransitionPart | DrumPart | BassPart | ChordPart | LeadPart | VocalPart | EggPart | EffectPart

  datatype Sound =
    | Kick(intensity: real)
    | Snare(intensity: real)
    | ClosedHiHat(intensity: real)
    | BassNote(note: string, duration: real, intensity: real)
    /** `playBass` given a frequency rather than a note name: its default is 80 Hz. */
    | BassTone(frequency: int, duration: real, intensity: real)
    | ChordStack(notes: seq<string>, duration: real, intensity: real)
    | LeadNote(pitch: Pitch, duration: real, intensity: real)
    | SungVowel(duration: real, vowel: Option<char>, hz: Option<int>, intensity: real)
    | DrumRoll | ReverseCymbal | OrchestralHit | Cowbell | Glitch | Scratch

  datatype Event = Event(time: real, part: Part, sound: Sound)

  // ---------------------------------------------------------------- name dispatch

  function UpperChar(c: char): char {
    if 'a' <= c <= 'z' then (c as int - 32) as char else c
  }

  /** `s.charAt(0).toUpperCase() + s.slice(1)`. */
  function Capitalize(s: string): string {
    if |s| == 0 then s else [UpperChar(s[0])] + s[1..]
  }

  /** The engine method a sound name is dispatched to. */
  function MethodName(sound: string): string {
    "play" + Capitalize(sound)
  }

  /**
   * `this[name](time)`: the engine's `play` generators that sound when given
   * the time alone, with the sound they make under their default arguments.
   * `playChord` is the one `play` method left out: with no `notes` it throws.
   */
  function TimeOnlyGenerator(name: string): Option<Sound> {
    if name == "playScratch" then Some(Sound.Scratch)
    else if name == "playReverseCymbal" then Some(ReverseCymbal)
    else if name == "playOrchestralHit" then Some(Sound.OrchestralHit)
    else if name == "playDrumRoll" then Some(DrumRoll)
    else if name == "playCowbell" then Some(Sound.Cowbell)
    else if name == "playGlitch" then Some(Sound.Glitch)
    else if name == "playKick" then Some(Kick(1.0))
    else if name == "playSnare" then Some(Snare(1.0))
    else if name == "playHiHat" then Some(ClosedHiHat(1.0))
    else if name == "playSynth" then Some(LeadNote(Offset(0), 0.3, 1.0))
    else if name == "playBass" then Some(BassTone(80, 0.8, 1.0))
    else None
  }

  /** The generator each effect names, as the offline `if` chain calls it directly. */
  function EffectSound(e: Effect): Sound {
    match e
    case Cowbell => Sound.Cowbell
    case OrchestralHit => Sound.OrchestralHit
    case Glitch => Sound.Glitch
    case Scratch => Sound.Scratch
  }

  /** The one-shot each easter-egg category names. */
  function EggSound(c: nat): Sound
    requires c < |Table|
  {
    [Sound.Scratch, ReverseCymbal, Sound.OrchestralHit, DrumRoll, Sound.Cowbell, Sound.Glitch][c]
  }

  // One lemma per one-shot name, so that each string comparison stands alone.
  lemma ScratchDispatch()
    ensures TimeOnlyGenerator(MethodName("scratch")) == Some(Sound.Scratch)
  {
    assert MethodName("scratch") == "playScratch";
  }

  /** A tag with sound "bass" plays the default 80 Hz bass; "chord" reaches `playChord`, which is not among them. */
  lemma BassDispatch()
    ensures TimeOnlyGenerator(MethodName("bass")) == Some(BassTone(80, 0.8, 1.0))
    ensures MethodName("chord") == "playChord" && TimeOnlyGenerator(MethodName("chord")).None?
  {
    assert MethodName("bass") == "playBass";
    assert MethodName("chord") == "playChord";
  }

  lemma ReverseCymbalDispatch()
    ensures TimeOnlyGenerator(MethodName("reverseCymbal")) == Some(ReverseCymbal)
  {
    assert MethodName("reverseCymbal") == "playReverseCymbal";
  }

  lemma OrchestralHitDispatch()
    ensures TimeOnlyGenerator(MethodName("orchestralHit")) == Some(Sound.OrchestralHit)
  {
    assert MethodName("orchestralHit") == "playOrchestralHit";
  }

  lemma DrumRollDispatch()
    ensures TimeOnlyGenerator(MethodName("drumRoll")) == Some(DrumRoll)
  {
    assert MethodName("drumRoll") == "playDrumRoll";
  }

  lemma CowbellDispatch()
    ensures TimeOnlyGenerator(MethodName("cowbell")) == Some(Sound.Cowbell)
  {
    assert MethodName("cowbell") == "playCowbell";
  }

  lemma GlitchDispatch()
    ensures TimeOnlyGenerator(MethodName("glitch")) == Some(Sound.Glitch)
  {
    assert MethodName("glitch") == "playGlitch";
  }

  /** Every sound named in the easter-egg table resolves to an engine generator. */
  lemma TableSoundsResolve(c: nat)
    requires c < |Table|
    ensures TimeOnlyGenerator(MethodName(Table[c].sound)) == Some(EggSound(c))
  {
    if c == 0 { assert Table[0].sound == "scratch"; ScratchDispatch(); }
    else if c == 1 { assert Table[1].sound == "reverseCymbal"; ReverseCymbalDispatch(); }
    else if c == 2 { assert Table[2].sound == "orchestralHit"; OrchestralHitDispatch(); }
    else if c == 3 { assert Table[3].sound == "drumRoll"; DrumRollDispatch(); }
    else if c == 4 { assert Table[4].sound == "cowbell"; CowbellDispatch(); }
    else { assert Table[5].sound == "glitch"; GlitchDispatch(); }
  }

  /** The live name-built dispatch of an effect reaches the same generator as the offline chain. */
  lemma EffectDispatchResolves(e: Effect)
    ensures TimeOnlyGenerator(MethodName(EffectName(e))) == Some(EffectSound(e))
  {
    var c := match e case Scratch => 0 case OrchestralHit => 2 case Cowbell => 4 case Glitch => 5;
    assert Table[c].sound == EffectName(e);
    TableSoundsResolve(c);
  }

  /** Hence every tag the tagger attaches plays its sound. */
  lemma TagSoundsResolve(message: string)
    ensures forall t :: t in TagsFor(message) ==> TimeOnlyGenerator(MethodName(t.sound)).Some?
  {
    TagsOrdered(message);
    forall t | t in TagsFor(message) ensures TimeOnlyGenerator(MethodName(t.sound)).Some? {
      var a :| 0 <= a < |TagsFor(message)| && TagsFor(message)[a] == t;
      TableSoundsResolve(Rank(t.kind));
    }
  }

  // ---------------------------------------------------------------- the plan

  /** What the loop reads: the commits, the start time, the beat length, the genre and the section map. */
  datatype Plan = Plan(commits: seq<Commit>, start: real, beat: real, genre: Genre, bySha: map<string, Section>)

  /** The section used for a commit without one: `{ type: 'verse', layers: drums, bass, synth, intensity: 0.8 }`. */
  const DefaultSection: Section := Section(Verse, [], {Drums, Bass, Synth}, 0.8)

  function SectionAt(plan: Plan, i: nat): Section
    requires i < |plan.commits|
  {
    var sha := plan.commits[i].sha;
    if sha in plan.bySha then plan.bySha[sha] else DefaultSection
  }

  /** `startTime + beatIndex * beatDuration`. */
  function TimeAt(plan: Plan, i: nat): real {
    plan.start + i as real * plan.beat
  }

  /** `commits.length * beatDuration`: the track lasts one beat per commit. */
  function TrackDuration(n: nat, beat: real): real {
    n as real * beat
  }

  /** `lastSectionType` on entry to beat `i`: null at first, then the previous beat's section type. */
  function LastKind(plan: Plan, i: nat): Option<SectionKind>
    requires i <= |plan.commits|
  {
    if i == 0 then None else Some(SectionAt(plan, i - 1).kind)
  }

  function IntensityAt(plan: Plan, i: nat): real
    requires i < |plan.commits|
  {
    DynamicIntensity(plan.commits[i], SectionAt(plan, i).intensity)
  }

  function PatternAt(plan: Plan, i: nat): Pattern
    requires i < |plan.commits|
  {
    SelectBeatPattern(plan.commits[i], Recent(plan.commits, i))
  }

  /** `parseInt(sha.substring(0, 2), 16)`. */
  function LeadHash(sha: string): Option<int> {
    ParseHex(Prefix(sha, 2))
  }

  /** `hashNum % 3 === 0`, false for NaN. */
  predicate LeadGate(sha: string) {
    LeadHash(sha).Some? && JsRem(LeadHash(sha).value, 3) == 0
  }

  /** `melodicScale[hashNum % melodicScale.length]`; an index out of range gives undefined and so the 440 Hz default. */
  function LeadPitch(scale: seq<Pitch>, h: int): Pitch {
    if |scale| == 0 then Offset(0)
    else
      var k := JsRem(h, |scale|);
      if 0 <= k then scale[k] else Offset(0)
  }

  /** `220 + parseInt(sha.substring(0, 4), 16) % 220`, NaN when the prefix does not parse. */
  function VowelPitch(sha: string): Option<int> {
    match ParseHex(Prefix(sha, 4))
    case None => None
    case Some(v) => Some(220 + JsRem(v, 220))
  }

  /** A hexadecimal sha gives a vowel pitch in [220, 439]. */
  lemma VowelPitchRange(sha: string)
    requires |sha| >= 1 && IsHexString(Prefix(sha, 4))
    ensures VowelPitch(sha).Some? && 220 <= VowelPitch(sha).value <= 439
  {
    ParseHexOfHexString(Prefix(sha, 4));
  }

  // ---------------------------------------------------------------- one beat

  function TransitionEvents(plan: Plan, i: nat): seq<Event>
    requires i < |plan.commits|
  {
    var kind := SectionAt(plan, i).kind;
    var t := TimeAt(plan, i);
    if LastKind(plan, i) == Some(kind) || i == 0 then []
    else if kind == Chorus || kind == Verse then [Event(t - plan.beat * 0.5, TransitionPart, DrumRoll)]
    else if kind == Bridge then [Event(t - plan.beat * 1.5, TransitionPart, ReverseCymbal)]
    else if kind == Outro then [Event(t, TransitionPart, Sound.OrchestralHit)]
    else []
  }

  function DrumEvents(plan: Plan, i: nat): seq<Event>
    requires i < |plan.commits|
  {
    var t := TimeAt(plan, i);
    var intensity := IntensityAt(plan, i);
    if Drums !in SectionAt(plan, i).layers then []
    else match Slot(PatternAt(plan, i), i)
      case K => [Event(t, DrumPart, Kick(intensity))]
      case S => [Event(t, DrumPart, Snare(intensity))]
      case H => [Event(t, DrumPart, ClosedHiHat(intensity))]
  }

  /** `progression.bassNotes[chordIndex]`. */
  function BassNoteOf(g: Genre, chordIndex: nat): string
    requires chordIndex < 4
  {
    ProgressionShape(g);
    ProgressionOf(g).bassNotes[chordIndex]
  }

  /** `progression.chords[chordIndex]`. */
  function ChordOf(g: Genre, chordIndex: nat): seq<string>
    requires chordIndex < 4
  {
    ProgressionShape(g);
    ProgressionOf(g).chords[chordIndex]
  }

  function BassEvents(plan: Plan, i: nat): seq<Event>
    requires i < |plan.commits|
  {
    if Bass in SectionAt(plan, i).layers && i % 2 == 0 then
      [Event(TimeAt(plan, i), BassPart,
             BassNote(BassNoteOf(plan.genre, ChordIndexForBeat(i, 4)), plan.beat * 1.5, IntensityAt(plan, i)))]
    else []
  }

  function ChordEvents(plan: Plan, i: nat): seq<Event>
    requires i < |plan.commits|
  {
    var layers := SectionAt(plan, i).layers;
    if (Synth in layers || Vocal in layers) && i % 4 == 0 then
      [Event(TimeAt(plan, i), ChordPart,
             ChordStack(ChordOf(plan.genre, ChordIndexForBeat(i, 4)), plan.beat * 3.5, IntensityAt(plan, i) * 0.7))]
    else []
  }

  /** The lead note: the live `playSynth` drops the duration and intensity it is given, the offline one keeps them. */
  function LeadSound(mode: Mode, pitch: Pitch, beat: real, intensity: real): Sound {
    match mode
    case Live => LeadNote(pitch, 0.3, 1.0)
    case Offline => LeadNote(pitch, beat * 0.8, intensity * 0.8)
  }

  function LeadEvents(mode: Mode, plan: Plan, i: nat): seq<Event>
    requires i < |plan.commits|
  {
    var sha := plan.commits[i].sha;
    if Synth in SectionAt(plan, i).layers && LeadGate(sha) then
      [Event(TimeAt(plan, i), LeadPart,
             LeadSound(mode, LeadPitch(ScaleOf(plan.genre), LeadHash(sha).value), plan.beat, IntensityAt(plan, i)))]
    else []
  }

  function VocalEvents(plan: Plan, i: nat): seq<Event>
    requires i < |plan.commits|
  {
    var c := plan.commits[i];
    if Vocal in SectionAt(plan, i).layers && i % 8 == 0 then
      [Event(TimeAt(plan, i), VocalPart,
             SungVowel(plan.beat * 2.0, VowelForAuthor(c.author), VowelPitch(c.sha), IntensityAt(plan, i)))]
    else []
  }

  /** Each tag's sound, dispatched by name, 0.1 s after the beat. */
  function EggEvents(eggs: seq<EggTag>, t: real): seq<Event> {
    if |eggs| == 0 then []
    else EggEvents(eggs[..|eggs| - 1], t)
         + match TimeOnlyGenerator(MethodName(eggs[|eggs| - 1].sound))
           case None => []
           case Some(s) => [Event(t + 0.1, EggPart, s)]
  }

  /** The commit's effect 0.05 s after the beat: by name live, by an explicit chain offline. */
  function EffectEvents(mode: Mode, c: Commit, t: real): seq<Event> {
    match CommitEffect(c)
    case None => []
    case Some(e) =>
      match mode
      case Offline => [Event(t + 0.05, EffectPart, EffectSound(e))]
      case Live =>
        match TimeOnlyGenerator(MethodName(EffectName(e)))
        case None => []
        case Some(s) => [Event(t + 0.05, EffectPart, s)]
  }

  /** The instrument layers, identical in the two generators but for the lead note. */
  function LayerEvents(mode: Mode, plan: Plan, i: nat): seq<Event>
    requires i < |plan.commits|
  {
    DrumEvents(plan, i) + BassEvents(plan, i) + ChordEvents(plan, i) + LeadEvents(mode, plan, i) + VocalEvents(plan, i)
  }

  /** Everything one loop iteration schedules; only the live generator plays easter eggs. */
  function BeatEvents(mode: Mode, plan: Plan, i: nat): seq<Event>
    requires i < |plan.commits|
  {
    var c := plan.commits[i];
    TransitionEvents(plan, i) + LayerEvents(mode, plan, i)
    + (if mode == Live then EggEvents(c.easterEggs, TimeAt(plan, i)) else [])
    + EffectEvents(mode, c, TimeAt(plan, i))
  }

  /** The events of the first `n` beats, in scheduling order. */
  function TrackEvents(mode: Mode, plan: Plan, n: nat): seq<Event>
    requires n <= |plan.commits|
  {
    if n == 0 then [] else TrackEvents(mode, plan, n - 1) + BeatEvents(mode, plan, n - 1)
  }

  /** The live generator's visualiser signals: a section signal on each change of section type, a beat signal on every beat. */
  datatype Cue = SectionCue(kind: SectionKind, beatIndex: nat, at: real) | BeatCue(beatIndex: nat, at: real)

  function BeatCues(plan: Plan, i: nat): seq<Cue>
    requires i < |plan.commits|
  {
    var kind := SectionAt(plan, i).kind;
    (if LastKind(plan, i) != Some(kind) then [SectionCue(kind, i, TimeAt(plan, i))] else [])
    + [BeatCue(i, TimeAt(plan, i))]
  }

  function TrackCues(plan: Plan, n: nat): seq<Cue>
    requires n <= |plan.commits|
  {
    if n == 0 then [] else TrackCues(plan, n - 1) + BeatCues(plan, n - 1)
  }

  /**
   * The plan both generators follow for a commit list, bpm and a genre that
   * finds a table entry (`60 / bpm` is a real beat for any bpm but 0).
   */
  function PlanFor(commits: seq<Commit>, start: real, bpm: real, genre: Option<string>): Plan
    requires bpm != 0.0 && LookupGenre(genre).Entry?
  {
    Plan(commits, start, 60.0 / bpm, LookupGenre(genre).genre, ShaMap(Structure(commits)))
  }
}
