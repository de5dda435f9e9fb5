/**
 * The `AudioEngine` object: its context and mixer state, and the two
 * generators that walk the commits beat by beat. Each generator call
 * (`playKick`, `singVowel`, ...) schedules one `Event`; the live engine keeps
 * what it has scheduled on its open context, the offline generator returns
 * what it schedules on the context it is handed.
 */
module Engine {
  import opened Wrappers
  import opened JsText
  import opened Lists
  import opened Commits
  import opened EasterEggs
  import opened MusicTheory
  import opened Classifier
  import opened SongStructure
  import opened SectionMap
  import opened Schedule
  import opened ScheduleProperties

  // ---------------------------------------------------------------- one loop iteration

  /** The section-change block: a transition sound, from the second beat on, when the section type changes. */
  method TransitionBlock(plan: Plan, beatIndex: nat, lastSectionType: Option<SectionKind>, section: Section, time: real)
    returns (evs: seq<Event>)
    requires beatIndex < |plan.commits| && lastSectionType == LastKind(plan, beatIndex)
    requires section == SectionAt(plan, beatIndex) && time == TimeAt(plan, beatIndex)
    ensures evs == TransitionEvents(plan, beatIndex)
  {
    evs := [];
    if lastSectionType != Some(section.kind) {
      if beatIndex > 0 {
        if section.kind == Chorus || section.kind == Verse {
          evs := [Event(time - plan.beat * 0.5, TransitionPart, DrumRoll)];
        } else if section.kind == Bridge {
          evs := [Event(time - plan.beat * 1.5, TransitionPart, ReverseCymbal)];
        } else if section.kind == Outro {
          evs := [Event(time, TransitionPart, Sound.OrchestralHit)];
        }
      }
    }
  }

  /** The drum hit the pattern slot names, when the section has drums. */
  method DrumBlock(plan: Plan, beatIndex: nat, section: Section, pattern: Pattern, time: real, intensity: real)
    returns (evs: seq<Event>)
    requires beatIndex < |plan.commits| && section == SectionAt(plan, beatIndex) && time == TimeAt(plan, beatIndex)
    requires pattern == PatternAt(plan, beatIndex) && intensity == IntensityAt(plan, beatIndex)
    ensures evs == DrumEvents(plan, beatIndex)
  {
    evs := [];
    if Drums in section.layers {
      var steps := Steps(pattern);
      var slot := steps[beatIndex % |steps|];
      if slot == K {
        evs := [Event(time, DrumPart, Kick(intensity))];
      } else if slot == S {
        evs := [Event(time, DrumPart, Snare(intensity))];
      } else if slot == H {
        evs := [Event(time, DrumPart, ClosedHiHat(intensity))];
      }
    }
  }

  /** Bass on even beats, chords on every fourth beat, both from the current chord of the progression. */
  method HarmonyBlock(plan: Plan, beatIndex: nat, section: Section, time: real, intensity: real,
                      currentChord: seq<string>, currentBassNote: string)
    returns (bass: seq<Event>, chord: seq<Event>)
    requires beatIndex < |plan.commits| && section == SectionAt(plan, beatIndex) && time == TimeAt(plan, beatIndex)
    requires intensity == IntensityAt(plan, beatIndex)
    requires currentChord == ChordOf(plan.genre, ChordIndexForBeat(beatIndex, 4))
    requires currentBassNote == BassNoteOf(plan.genre, ChordIndexForBeat(beatIndex, 4))
    ensures bass == BassEvents(plan, beatIndex) && chord == ChordEvents(plan, beatIndex)
  {
    bass := [];
    if Bass in section.layers && beatIndex % 2 == 0 {
      bass := [Event(time, BassPart, BassNote(currentBassNote, plan.beat * 1.5, intensity))];
    }
    chord := [];
    if (Synth in section.layers || Vocal in section.layers) && beatIndex % 4 == 0 {
      chord := [Event(time, ChordPart, ChordStack(currentChord, plan.beat * 3.5, intensity * 0.7))];
    }
  }

  /** The melodic note when the sha's first byte is a multiple of three; the live `playSynth` keeps only the time and frequency. */
  method LeadBlock(mode: Mode, plan: Plan, beatIndex: nat, section: Section, time: real, intensity: real, melodicScale: seq<Pitch>)
    returns (evs: seq<Event>)
    requires beatIndex < |plan.commits| && section == SectionAt(plan, beatIndex) && time == TimeAt(plan, beatIndex)
    requires intensity == IntensityAt(plan, beatIndex) && melodicScale == ScaleOf(plan.genre)
    ensures evs == LeadEvents(mode, plan, beatIndex)
  {
    evs := [];
    if Synth in section.layers {
      var hashNum := LeadHash(plan.commits[beatIndex].sha);
      if hashNum.Some? && JsRem(hashNum.value, 3) == 0 {
        var frequency := LeadPitch(melodicScale, hashNum.value);
        var sound := match mode
          case Live => LeadNote(frequency, 0.3, 1.0)
          case Offline => LeadNote(frequency, plan.beat * 0.8, intensity * 0.8);
        evs := [Event(time, LeadPart, sound)];
      }
    }
  }

  /** A sung vowel every eighth beat, when the section has vocals. */
  method VocalBlock(plan: Plan, beatIndex: nat, section: Section, time: real, intensity: real)
    returns (evs: seq<Event>)
    requires beatIndex < |plan.commits| && section == SectionAt(plan, beatIndex) && time == TimeAt(plan, beatIndex)
    requires intensity == IntensityAt(plan, beatIndex)
    ensures evs == VocalEvents(plan, beatIndex)
  {
    evs := [];
    var commit := plan.commits[beatIndex];
    if Vocal in section.layers && beatIndex % 8 == 0 {
      var vowel := VowelForAuthor(commit.author);
      var pitch := VowelPitch(commit.sha);
      evs := [Event(time, VocalPart, SungVowel(plan.beat * 2.0, vowel, pitch, intensity))];
    }
  }

  /** `commit.easterEggs.forEach`: each tag's `play…` method, when the engine has one, 0.1 s after the beat. */
  method EggBlock(eggs: seq<EggTag>, time: real) returns (evs: seq<Event>)
    ensures evs == EggEvents(eggs, time)
  {
    evs := [];
    var k := 0;
    while k < |eggs|
      invariant 0 <= k <= |eggs|
      invariant evs == EggEvents(eggs[..k], time)
    {
      assert eggs[..k + 1][..k] == eggs[..k];
      var soundMethod := MethodName(eggs[k].sound);
      var generator := TimeOnlyGenerator(soundMethod);
      if generator.Some? {
        evs := evs + [Event(time + 0.1, EggPart, generator.value)];
      }
      k := k + 1;
    }
    assert eggs[..k] == eggs;
  }

  /** The commit's effect 0.05 s after the beat: by building the method name live, by an `if` chain offline. */
  method EffectBlock(mode: Mode, commit: Commit, time: real) returns (evs: seq<Event>)
    ensures evs == EffectEvents(mode, commit, time)
  {
    evs := [];
    var effect := CommitEffect(commit);
    if effect.Some? {
      if mode == Live {
        var effectMethod := MethodName(EffectName(effect.value));
        var generator := TimeOnlyGenerator(effectMethod);
        if generator.Some? {
          evs := [Event(time + 0.05, EffectPart, generator.value)];
        }
      } else if effect.value == Effect.Cowbell {
        evs := [Event(time + 0.05, EffectPart, Sound.Cowbell)];
      } else if effect.value == Effect.OrchestralHit {
        evs := [Event(time + 0.05, EffectPart, Sound.OrchestralHit)];
      } else if effect.value == Effect.Glitch {
        evs := [Event(time + 0.05, EffectPart, Sound.Glitch)];
      } else if effect.value == Effect.Scratch {
        evs := [Event(time + 0.05, EffectPart, Sound.Scratch)];
      }
    }
  }

  /**
   * The body of the `commits.forEach` both generators run: what beat
   * `beatIndex` schedules, in call order, and its section type.
   */
  method BeatBody(mode: Mode, plan: Plan, progression: Progression, melodicScale: seq<Pitch>,
                  beatIndex: nat, lastSectionType: Option<SectionKind>)
    returns (evs: seq<Event>, sectionType: SectionKind)
    requires beatIndex < |plan.commits| && lastSectionType == LastKind(plan, beatIndex)
    requires progression == ProgressionOf(plan.genre) && melodicScale == ScaleOf(plan.genre)
    ensures evs == BeatEvents(mode, plan, beatIndex)
    ensures sectionType == SectionAt(plan, beatIndex).kind
  {
    var commits := plan.commits;
    var commit := commits[beatIndex];
    var time := TimeAt(plan, beatIndex);
    var pattern := SelectBeatPattern(commit, commits[(if beatIndex < 5 then 0 else beatIndex - 5)..beatIndex]);
    var section := if commit.sha in plan.bySha then plan.bySha[commit.sha] else DefaultSection;
    var intensity := CalculateDynamicIntensity(commit, section.intensity);
    var transition := TransitionBlock(plan, beatIndex, lastSectionType, section, time);
    sectionType := section.kind;

    var chordIndex := ChordIndexForBeat(beatIndex, 4);
    ProgressionShape(plan.genre);
    var currentChord := progression.chords[chordIndex];
    var currentBassNote := progression.bassNotes[chordIndex];

    var drums := DrumBlock(plan, beatIndex, section, pattern, time, intensity);
    var bass, chord := HarmonyBlock(plan, beatIndex, section, time, intensity, currentChord, currentBassNote);
    var lead := LeadBlock(mode, plan, beatIndex, section, time, intensity, melodicScale);
    var vocal := VocalBlock(plan, beatIndex, section, time, intensity);
    var eggs := [];
    if mode == Live {
      eggs := EggBlock(commit.easterEggs, time);
    }
    var effect := EffectBlock(mode, commit, time);
    var layers := drums + bass + chord + lead + vocal;
    assert layers == LayerEvents(mode, plan, beatIndex);
    evs := transition + layers + eggs + effect;
  }

  /** The `onSection` signal on a change of section type, then the `onBeat` signal, both at the beat's time. */
  method SignalBlock(plan: Plan, beatIndex: nat, lastSectionType: Option<SectionKind>, sectionType: SectionKind)
    returns (signals: seq<Cue>)
    requires beatIndex < |plan.commits| && lastSectionType == LastKind(plan, beatIndex)
    requires sectionType == SectionAt(plan, beatIndex).kind
    ensures signals == BeatCues(plan, beatIndex)
  {
    var time := TimeAt(plan, beatIndex);
    signals := [];
    if lastSectionType != Some(sectionType) {
      signals := [SectionCue(sectionType, beatIndex, time)];
    }
    signals := signals + [BeatCue(beatIndex, time)];
  }

  // ---------------------------------------------------------------- the engine

  /** The mixer as a value: whether a context is open, the five gains (none without a context) and the playing flag. */
  datatype Mixer = Mixer(contextOpen: bool, master: Option<real>, drums: Option<real>, bass: Option<real>,
                         synth: Option<real>, vocal: Option<real>, isPlaying: bool)

  /** What `generateTrack` returns and signals: the duration and sections, and the `onSection`/`onBeat` calls in order. */
  datatype Track = Track(duration: real, sections: seq<Section>, cues: seq<Cue>)

  /** What `generateTrackOffline` leaves on the rendering context, and the duration it returns. */
  datatype Rendering = Rendering(events: seq<Event>, duration: real)

  class AudioEngine {
    /** `this.context !== null`. */
    var contextOpen: bool
    var masterGain: Option<real>
    var drumsGain: Option<real>
    var bassGain: Option<real>
    var synthGain: Option<real>
    var vocalGain: Option<real>
    var isPlaying: bool
    /** What the open context has been asked to play, in call order. */
    var scheduled: seq<Event>

    function State(): Mixer
      reads this
    {
      Mixer(contextOpen, masterGain, drumsGain, bassGain, synthGain, vocalGain, isPlaying)
    }

    /** The gain nodes exist exactly while the context does, and a closed context holds nothing. */
    predicate Valid()
      reads this
    {
      (masterGain.Some? <==> contextOpen) && (drumsGain.Some? <==> contextOpen) && (bassGain.Some? <==> contextOpen)
      && (synthGain.Some? <==> contextOpen) && (vocalGain.Some? <==> contextOpen)
      && (!contextOpen ==> scheduled == [])
    }

    constructor()
      ensures Valid() && State() == Mixer(false, None, None, None, None, None, false)
    {
      contextOpen := false;
      masterGain, drumsGain, bassGain, synthGain, vocalGain := None, None, None, None, None;
      isPlaying := false;
      scheduled := [];
    }

    /** `init`: nothing when a context is open; otherwise a new context, master gain 0.6 and the four track gains at 1.0. */
    method Init()
      requires Valid()
      modifies this
      ensures Valid() && contextOpen
      ensures old(contextOpen) ==> State() == old(State()) && scheduled == old(scheduled)
      ensures !old(contextOpen) ==>
                State() == Mixer(true, Some(0.6), Some(1.0), Some(1.0), Some(1.0), Some(1.0), old(isPlaying))
                && scheduled == []
    {
      if contextOpen {
        return;
      }
      contextOpen := true;
      masterGain := Some(0.6);
      drumsGain, bassGain, synthGain, vocalGain := Some(1.0), Some(1.0), Some(1.0), Some(1.0);
    }

    /** `stop`: close the context, drop the gains and stop playing; nothing without a context. */
    method Stop()
      requires Valid()
      modifies this
      ensures Valid() && !contextOpen
      ensures !old(contextOpen) ==> State() == old(State())
      ensures old(contextOpen) ==> State() == Mixer(false, None, None, None, None, None, false)
    {
      if contextOpen {
        contextOpen := false;
        masterGain, drumsGain, bassGain, synthGain, vocalGain := None, None, None, None, None;
        isPlaying := false;
        scheduled := [];
      }
    }

    /** `setDrumsVolume`: set the gain when the node exists, otherwise nothing. */
    method SetDrumsVolume(value: real)
      requires Valid()
      modifies this
      ensures Valid() && scheduled == old(scheduled)
      ensures State() == old(State()).(drums := if old(drumsGain).Some? then Some(value) else None)
    {
      if drumsGain.Some? {
        drumsGain := Some(value);
      }
    }

    method SetBassVolume(value: real)
      requires Valid()
      modifies this
      ensures Valid() && scheduled == old(scheduled)
      ensures State() == old(State()).(bass := if old(bassGain).Some? then Some(value) else None)
    {
      if bassGain.Some? {
        bassGain := Some(value);
      }
    }

    method SetSynthVolume(value: real)
      requires Valid()
      modifies this
      ensures Valid() && scheduled == old(scheduled)
      ensures State() == old(State()).(synth := if old(synthGain).Some? then Some(value) else None)
    {
      if synthGain.Some? {
        synthGain := Some(value);
      }
    }

    method SetVocalVolume(value: real)
      requires Valid()
      modifies this
      ensures Valid() && scheduled == old(scheduled)
      ensures State() == old(State()).(vocal := if old(vocalGain).Some? then Some(value) else None)
    {
      if vocalGain.Some? {
        vocalGain := Some(value);
      }
    }

    /**
     * `generateTrack`, with `now` the context's clock: the track starts 0.1 s
     * later, every beat's events are scheduled on the context in call order,
     * and the section and beat signals for the visualiser are returned. For a
     * genre that finds an inherited member the call throws (`None`) after
     * `init` and before anything is scheduled or the playing flag is set.
     */
    method GenerateTrack(commits: seq<Commit>, bpm: real, genre: Option<string>, now: real) returns (r: Option<Track>)
      requires Valid() && bpm != 0.0
      modifies this
      ensures Valid() && contextOpen
      ensures r.None? <==> LookupGenre(genre).Inherited?
      ensures var mixer := if old(contextOpen) then old(State())
                            else Mixer(true, Some(0.6), Some(1.0), Some(1.0), Some(1.0), Some(1.0), old(isPlaying));
              State() == if r.Some? then mixer.(isPlaying := true) else mixer
      ensures r.None? ==> scheduled == (if old(contextOpen) then old(scheduled) else [])
      ensures LookupGenre(genre).Entry? ==>
                scheduled == (if old(contextOpen) then old(scheduled) else [])
                             + TrackEvents(Live, PlanFor(commits, now + 0.1, bpm, genre), |commits|)
                && r == Some(Track(TrackDuration(|commits|, 60.0 / bpm), Structure(commits),
                                   TrackCues(PlanFor(commits, now + 0.1, bpm, genre), |commits|)))
    {
      Init();
      var beatDuration := 60.0 / bpm;
      var startTime := now + 0.1;
      var progression := GetChordProgression(genre);
      var melodicScale := GetMelodicScale(genre);
      if melodicScale.None? {
        return None;
      }
      var sections := DetectSongStructure(commits);
      var commitToSection := BuildSectionMap(sections);
      var plan := Plan(commits, startTime, beatDuration, LookupGenre(genre).genre, commitToSection);
      assert plan == PlanFor(commits, now + 0.1, bpm, genre);
      var cues := ScheduleBeats(plan, progression.value, melodicScale.value);
      isPlaying := true;
      r := Some(Track(TrackDuration(|commits|, beatDuration), sections, cues));
    }

    /** The `commits.forEach` of `generateTrack`: schedule every beat, signalling each section change and each beat. */
    method ScheduleBeats(plan: Plan, progression: Progression, melodicScale: seq<Pitch>) returns (cues: seq<Cue>)
      requires Valid() && contextOpen
      requires progression == ProgressionOf(plan.genre) && melodicScale == ScaleOf(plan.genre)
      modifies this`scheduled
      ensures Valid() && State() == old(State())
      ensures scheduled == old(scheduled) + TrackEvents(Live, plan, |plan.commits|)
      ensures cues == TrackCues(plan, |plan.commits|)
    {
      var commits := plan.commits;
      var lastSectionType: Option<SectionKind> := None;
      cues := [];
      var beatIndex := 0;
      while beatIndex < |commits|
        invariant 0 <= beatIndex <= |commits|
        invariant lastSectionType == LastKind(plan, beatIndex)
        invariant scheduled == old(scheduled) + TrackEvents(Live, plan, beatIndex)
        invariant cues == TrackCues(plan, beatIndex)
      {
        var evs, sectionType := BeatBody(Live, plan, progression, melodicScale, beatIndex, lastSectionType);
        TrackStep(Live, plan, beatIndex + 1);
        AppendAssoc(old(scheduled), TrackEvents(Live, plan, beatIndex), evs);
        scheduled := scheduled + evs;
        var signals := SignalBlock(plan, beatIndex, lastSectionType, sectionType);
        lastSectionType := Some(sectionType);
        CueStep(plan, beatIndex + 1);
        cues := cues + signals;
        beatIndex := beatIndex + 1;
      }
    }

    /**
     * `generateTrackOffline`: the same walk from time 0 onto the rendering
     * context it is handed, whose schedule it returns with the duration; it
     * throws (`None`) before scheduling anything for a genre that finds an
     * inherited member.
     */
    method GenerateTrackOffline(commits: seq<Commit>, bpm: real, genre: Option<string>) returns (r: Option<Rendering>)
      requires bpm != 0.0
      ensures r.None? <==> LookupGenre(genre).Inherited?
      ensures LookupGenre(genre).Entry? ==>
                r == Some(Rendering(TrackEvents(Offline, PlanFor(commits, 0.0, bpm, genre), |commits|),
                                    TrackDuration(|commits|, 60.0 / bpm)))
    {
      var beatDuration := 60.0 / bpm;
      var startTime := 0.0;
      var progression := GetChordProgression(genre);
      var melodicScale := GetMelodicScale(genre);
      if melodicScale.None? {
        return None;
      }
      var sections := DetectSongStructure(commits);
      var commitToSection := BuildSectionMap(sections);
      var plan := Plan(commits, startTime, beatDuration, LookupGenre(genre).genre, commitToSection);

      var lastSectionType: Option<SectionKind> := None;
      var events := [];
      var beatIndex := 0;
      while beatIndex < |commits|
        invariant 0 <= beatIndex <= |commits|
        invariant lastSectionType == LastKind(plan, beatIndex)
        invariant events == TrackEvents(Offline, plan, beatIndex)
      {
        var evs, sectionType := BeatBody(Offline, plan, progression.value, melodicScale.value, beatIndex, lastSectionType);
        TrackStep(Offline, plan, beatIndex + 1);
        events := events + evs;
        if lastSectionType != Some(sectionType) {
          lastSectionType := Some(sectionType);
        }
        beatIndex := beatIndex + 1;
      }
      r := Some(Rendering(events, TrackDuration(|commits|, beatDuration)));
    }
  }
}
