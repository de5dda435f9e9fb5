/**
 * What the schedule promises: which layers sound on which beats, what each
 * event carries, when events fall relative to their beat, and how the
 * offline rendering relates to live playback.
 */
module ScheduleProperties {
  import opened Wrappers
  import opened JsText
  import opened Commits
  import opened MusicTheory
  import opened Classifier
  import opened SongStructure
  import opened SectionMap
  import opened EasterEggs
  import opened Schedule

  predicate HasPart(evs: seq<Event>, p: Part) {
    exists e :: e in evs && e.part == p
  }

  /** The drum generator a pattern slot calls. */
  function DrumSound(d: Drum, intensity: real): Sound {
    match d
    case K => Kick(intensity)
    case S => Snare(intensity)
    case H => ClosedHiHat(intensity)
  }

  lemma {:induction false} EggEventsShape(eggs: seq<EggTag>, t: real)
    ensures forall e :: e in EggEvents(eggs, t) ==>
      e.part == EggPart && e.time == t + 0.1
      && exists k :: 0 <= k < |eggs| && TimeOnlyGenerator(MethodName(eggs[k].sound)) == Some(e.sound)
  {
    if |eggs| > 0 {
      var init := eggs[..|eggs| - 1];
      EggEventsShape(init, t);
      forall e | e in EggEvents(eggs, t)
        ensures exists k :: 0 <= k < |eggs| && TimeOnlyGenerator(MethodName(eggs[k].sound)) == Some(e.sound)
      {
        if e in EggEvents(init, t) {
          var k :| 0 <= k < |init| && TimeOnlyGenerator(MethodName(init[k].sound)) == Some(e.sound);
          assert eggs[k] == init[k];
        } else {
          assert TimeOnlyGenerator(MethodName(eggs[|eggs| - 1].sound)) == Some(e.sound);
        }
      }
    }
  }

  /** When every tag resolves (as the table's always do), each tag plays exactly once, in tag order. */
  lemma {:induction false} EggEventsOnePerTag(eggs: seq<EggTag>, t: real)
    requires forall k :: 0 <= k < |eggs| ==> TimeOnlyGenerator(MethodName(eggs[k].sound)).Some?
    ensures |EggEvents(eggs, t)| == |eggs|
    ensures forall k :: 0 <= k < |eggs| ==>
      EggEvents(eggs, t)[k] == Event(t + 0.1, EggPart, TimeOnlyGenerator(MethodName(eggs[k].sound)).value)
  {
    if |eggs| > 0 {
      var init := eggs[..|eggs| - 1];
      EggEventsOnePerTag(init, t);
      var last := Event(t + 0.1, EggPart, TimeOnlyGenerator(MethodName(eggs[|eggs| - 1].sound)).value);
      var r := EggEvents(eggs, t);
      assert r == EggEvents(init, t) + [last];
      forall k | 0 <= k < |eggs|
        ensures r[k] == Event(t + 0.1, EggPart, TimeOnlyGenerator(MethodName(eggs[k].sound)).value)
      {
        if k < |init| {
          assert r[k] == EggEvents(init, t)[k] && init[k] == eggs[k];
        }
      }
    }
  }

  /** Each part function emits only events of its own part. */
  lemma PartTags(mode: Mode, plan: Plan, i: nat)
    requires i < |plan.commits|
    ensures forall e :: e in TransitionEvents(plan, i) ==> e.part == TransitionPart
    ensures forall e :: e in DrumEvents(plan, i) ==> e.part == DrumPart
    ensures forall e :: e in BassEvents(plan, i) ==> e.part == BassPart
    ensures forall e :: e in ChordEvents(plan, i) ==> e.part == ChordPart
    ensures forall e :: e in LeadEvents(mode, plan, i) ==> e.part == LeadPart
    ensures forall e :: e in VocalEvents(plan, i) ==> e.part == VocalPart
    ensures forall e :: e in EffectEvents(mode, plan.commits[i], TimeAt(plan, i)) ==> e.part == EffectPart
    ensures forall e :: e in EggEvents(plan.commits[i].easterEggs, TimeAt(plan, i)) ==> e.part == EggPart
  {
    EggEventsShape(plan.commits[i].easterEggs, TimeAt(plan, i));
  }

  /** The events a beat's event belongs to, one part function at a time. */
  lemma BeatMember(mode: Mode, plan: Plan, i: nat, e: Event)
    requires i < |plan.commits|
    ensures e in BeatEvents(mode, plan, i) <==>
      || e in TransitionEvents(plan, i) || e in DrumEvents(plan, i) || e in BassEvents(plan, i)
      || e in ChordEvents(plan, i) || e in LeadEvents(mode, plan, i) || e in VocalEvents(plan, i)
      || (mode == Live && e in EggEvents(plan.commits[i].easterEggs, TimeAt(plan, i)))
      || e in EffectEvents(mode, plan.commits[i], TimeAt(plan, i))
  {
    var c := plan.commits[i];
    var L := LayerEvents(mode, plan, i);
    var G := if mode == Live then EggEvents(c.easterEggs, TimeAt(plan, i)) else [];
    assert BeatEvents(mode, plan, i) == TransitionEvents(plan, i) + L + G + EffectEvents(mode, c, TimeAt(plan, i));
    assert L == DrumEvents(plan, i) + BassEvents(plan, i) + ChordEvents(plan, i) + LeadEvents(mode, plan, i) + VocalEvents(plan, i);
  }

  /** Whether a beat holds an event of part `p` is decided by that part's own function. */
  lemma BeatHasPart(mode: Mode, plan: Plan, i: nat, p: Part, evs: seq<Event>)
    requires i < |plan.commits|
    requires evs == match p
      case TransitionPart => TransitionEvents(plan, i)
      case DrumPart => DrumEvents(plan, i)
      case BassPart => BassEvents(plan, i)
      case ChordPart => ChordEvents(plan, i)
      case LeadPart => LeadEvents(mode, plan, i)
      case VocalPart => VocalEvents(plan, i)
      case EggPart => if mode == Live then EggEvents(plan.commits[i].easterEggs, TimeAt(plan, i)) else []
      case EffectPart => EffectEvents(mode, plan.commits[i], TimeAt(plan, i))
    ensures HasPart(BeatEvents(mode, plan, i), p) <==> evs != []
    ensures forall e :: e in BeatEvents(mode, plan, i) && e.part == p ==> e in evs
  {
    PartTags(mode, plan, i);
    forall e | e in BeatEvents(mode, plan, i) && e.part == p ensures e in evs {
      BeatMember(mode, plan, i, e);
    }
    if evs != [] {
      BeatMember(mode, plan, i, evs[0]);
      assert evs[0] in evs;
    }
  }

  /**
   * Layer gating of one beat: each layer sounds exactly under its condition,
   * a transition only on a change of section type after the first beat, and
   * easter eggs only live.
   */
  lemma BeatGating(mode: Mode, plan: Plan, i: nat)
    requires i < |plan.commits|
    ensures HasPart(BeatEvents(mode, plan, i), DrumPart) <==> Drums in SectionAt(plan, i).layers
    ensures HasPart(BeatEvents(mode, plan, i), BassPart) <==> Bass in SectionAt(plan, i).layers && i % 2 == 0
    ensures HasPart(BeatEvents(mode, plan, i), ChordPart) <==>
      (Synth in SectionAt(plan, i).layers || Vocal in SectionAt(plan, i).layers) && i % 4 == 0
    ensures HasPart(BeatEvents(mode, plan, i), LeadPart) <==> Synth in SectionAt(plan, i).layers && LeadGate(plan.commits[i].sha)
    ensures HasPart(BeatEvents(mode, plan, i), VocalPart) <==> Vocal in SectionAt(plan, i).layers && i % 8 == 0
    ensures HasPart(BeatEvents(mode, plan, i), TransitionPart) <==>
      i > 0 && LastKind(plan, i) != Some(SectionAt(plan, i).kind) && SectionAt(plan, i).kind != Intro
    ensures HasPart(BeatEvents(mode, plan, i), EffectPart) <==> CommitEffect(plan.commits[i]).Some?
    ensures HasPart(BeatEvents(mode, plan, i), EggPart) ==> mode == Live
  {
    TransitionGate(mode, plan, i);
    DrumGate(mode, plan, i);
    BassGate(mode, plan, i);
    ChordGate(mode, plan, i);
    LeadGateOf(mode, plan, i);
    VocalGate(mode, plan, i);
    EggGate(mode, plan, i);
    EffectGate(mode, plan, i);
  }

  lemma TransitionGate(mode: Mode, plan: Plan, i: nat)
    requires i < |plan.commits|
    ensures HasPart(BeatEvents(mode, plan, i), TransitionPart) <==>
      i > 0 && LastKind(plan, i) != Some(SectionAt(plan, i).kind) && SectionAt(plan, i).kind != Intro
  {
    BeatHasPart(mode, plan, i, TransitionPart, TransitionEvents(plan, i));
    TransitionPresent(plan, i);
  }

  lemma TransitionPresent(plan: Plan, i: nat)
    requires i < |plan.commits|
    ensures TransitionEvents(plan, i) != [] <==>
      i > 0 && LastKind(plan, i) != Some(SectionAt(plan, i).kind) && SectionAt(plan, i).kind != Intro
  {
  }

  lemma DrumGate(mode: Mode, plan: Plan, i: nat)
    requires i < |plan.commits|
    ensures HasPart(BeatEvents(mode, plan, i), DrumPart) <==> Drums in SectionAt(plan, i).layers
  {
    BeatHasPart(mode, plan, i, DrumPart, DrumEvents(plan, i));
  }

  lemma BassGate(mode: Mode, plan: Plan, i: nat)
    requires i < |plan.commits|
    ensures HasPart(BeatEvents(mode, plan, i), BassPart) <==> Bass in SectionAt(plan, i).layers && i % 2 == 0
  {
    BeatHasPart(mode, plan, i, BassPart, BassEvents(plan, i));
  }

  lemma ChordGate(mode: Mode, plan: Plan, i: nat)
    requires i < |plan.commits|
    ensures HasPart(BeatEvents(mode, plan, i), ChordPart) <==>
      (Synth in SectionAt(plan, i).layers || Vocal in SectionAt(plan, i).layers) && i % 4 == 0
  {
    BeatHasPart(mode, plan, i, ChordPart, ChordEvents(plan, i));
  }

  lemma LeadGateOf(mode: Mode, plan: Plan, i: nat)
    requires i < |plan.commits|
    ensures HasPart(BeatEvents(mode, plan, i), LeadPart) <==> Synth in SectionAt(plan, i).layers && LeadGate(plan.commits[i].sha)
  {
    BeatHasPart(mode, plan, i, LeadPart, LeadEvents(mode, plan, i));
  }

  lemma VocalGate(mode: Mode, plan: Plan, i: nat)
    requires i < |plan.commits|
    ensures HasPart(BeatEvents(mode, plan, i), VocalPart) <==> Vocal in SectionAt(plan, i).layers && i % 8 == 0
  {
    BeatHasPart(mode, plan, i, VocalPart, VocalEvents(plan, i));
  }

  lemma EggGate(mode: Mode, plan: Plan, i: nat)
    requires i < |plan.commits|
    ensures HasPart(BeatEvents(mode, plan, i), EggPart) ==> mode == Live
  {
    var c := plan.commits[i];
    BeatHasPart(mode, plan, i, EggPart, if mode == Live then EggEvents(c.easterEggs, TimeAt(plan, i)) else []);
  }

  lemma EffectGate(mode: Mode, plan: Plan, i: nat)
    requires i < |plan.commits|
    ensures HasPart(BeatEvents(mode, plan, i), EffectPart) <==> CommitEffect(plan.commits[i]).Some?
  {
    var c := plan.commits[i];
    BeatHasPart(mode, plan, i, EffectPart, EffectEvents(mode, c, TimeAt(plan, i)));
    if CommitEffect(c).Some? {
      EffectDispatchResolves(CommitEffect(c).value);
    }
  }

  /** A drum event plays the pattern's slot for the beat (index modulo 8) at the beat's intensity. */
  lemma DrumContents(mode: Mode, plan: Plan, i: nat)
    requires i < |plan.commits|
    ensures forall e :: e in BeatEvents(mode, plan, i) && e.part == DrumPart ==>
      e == Event(TimeAt(plan, i), DrumPart, DrumSound(Steps(PatternAt(plan, i))[i % 8], IntensityAt(plan, i)))
  {
    assert Slot(PatternAt(plan, i), i) == Steps(PatternAt(plan, i))[i % 8];
    BeatHasPart(mode, plan, i, DrumPart, DrumEvents(plan, i));
  }

  lemma HarmonyShape(plan: Plan, i: nat)
    requires i < |plan.commits|
    ensures forall e :: e in BassEvents(plan, i) ==>
      e == Event(TimeAt(plan, i), BassPart, BassNote(BassNoteOf(plan.genre, (i / 4) % 4), plan.beat * 1.5, IntensityAt(plan, i)))
    ensures forall e :: e in ChordEvents(plan, i) ==>
      e == Event(TimeAt(plan, i), ChordPart, ChordStack(ChordOf(plan.genre, (i / 4) % 4), plan.beat * 3.5, IntensityAt(plan, i) * 0.7))
  {
    assert ChordIndexForBeat(i, 4) == (i / 4) % 4;
  }

  /** Bass lasts 1.5 beats at the beat's intensity and plays the bass note of chord ⌊i/4⌋ mod 4. */
  lemma BassContents(mode: Mode, plan: Plan, i: nat)
    requires i < |plan.commits|
    ensures forall e :: e in BeatEvents(mode, plan, i) && e.part == BassPart ==>
      e == Event(TimeAt(plan, i), BassPart, BassNote(BassNoteOf(plan.genre, (i / 4) % 4), plan.beat * 1.5, IntensityAt(plan, i)))
  {
    HarmonyShape(plan, i);
    BeatHasPart(mode, plan, i, BassPart, BassEvents(plan, i));
  }

  /** Chords last 3.5 beats at 0.7 of the intensity and play chord ⌊i/4⌋ mod 4. */
  lemma ChordContents(mode: Mode, plan: Plan, i: nat)
    requires i < |plan.commits|
    ensures forall e :: e in BeatEvents(mode, plan, i) && e.part == ChordPart ==>
      e == Event(TimeAt(plan, i), ChordPart, ChordStack(ChordOf(plan.genre, (i / 4) % 4), plan.beat * 3.5, IntensityAt(plan, i) * 0.7))
  {
    HarmonyShape(plan, i);
    BeatHasPart(mode, plan, i, ChordPart, ChordEvents(plan, i));
  }

  /** The vowel lasts two beats, with the author's vowel and the sha's pitch. */
  lemma VocalContents(mode: Mode, plan: Plan, i: nat)
    requires i < |plan.commits|
    ensures forall e :: e in BeatEvents(mode, plan, i) && e.part == VocalPart ==>
      e == Event(TimeAt(plan, i), VocalPart,
                 SungVowel(plan.beat * 2.0, VowelForAuthor(plan.commits[i].author), VowelPitch(plan.commits[i].sha), IntensityAt(plan, i)))
  {
    VocalShape(plan, i);
    BeatHasPart(mode, plan, i, VocalPart, VocalEvents(plan, i));
  }

  lemma VocalShape(plan: Plan, i: nat)
    requires i < |plan.commits|
    ensures forall e :: e in VocalEvents(plan, i) ==>
      e == Event(TimeAt(plan, i), VocalPart,
                 SungVowel(plan.beat * 2.0, VowelForAuthor(plan.commits[i].author), VowelPitch(plan.commits[i].sha), IntensityAt(plan, i)))
  {
  }

  /** The transition into a section: a drum roll half a beat early, a reverse cymbal a beat and a half early, or an orchestral hit on the beat. */
  lemma TransitionContents(mode: Mode, plan: Plan, i: nat)
    requires i < |plan.commits|
    ensures forall e :: e in BeatEvents(mode, plan, i) && e.part == TransitionPart ==>
      var kind := SectionAt(plan, i).kind;
      || ((kind == Chorus || kind == Verse) && e.time == TimeAt(plan, i) - plan.beat * 0.5 && e.sound == DrumRoll)
      || (kind == Bridge && e.time == TimeAt(plan, i) - plan.beat * 1.5 && e.sound == ReverseCymbal)
      || (kind == Outro && e.time == TimeAt(plan, i) && e.sound == Sound.OrchestralHit)
  {
    BeatHasPart(mode, plan, i, TransitionPart, TransitionEvents(plan, i));
  }

  /** The effect sounds 0.05 s after the beat, in both modes the generator the effect names. */
  lemma EffectContents(mode: Mode, plan: Plan, i: nat)
    requires i < |plan.commits|
    ensures forall e :: e in BeatEvents(mode, plan, i) && e.part == EffectPart ==>
      CommitEffect(plan.commits[i]).Some?
      && e == Event(TimeAt(plan, i) + 0.05, EffectPart, EffectSound(CommitEffect(plan.commits[i]).value))
  {
    var c := plan.commits[i];
    if CommitEffect(c).Some? {
      EffectDispatchResolves(CommitEffect(c).value);
    }
    BeatHasPart(mode, plan, i, EffectPart, EffectEvents(mode, c, TimeAt(plan, i)));
  }

  /** Easter eggs sound 0.1 s after the beat, each the generator one of the commit's tags names. */
  lemma EggContents(mode: Mode, plan: Plan, i: nat)
    requires i < |plan.commits|
    ensures forall e :: e in BeatEvents(mode, plan, i) && e.part == EggPart ==>
      mode == Live && e.time == TimeAt(plan, i) + 0.1
      && exists k :: 0 <= k < |plan.commits[i].easterEggs|
           && TimeOnlyGenerator(MethodName(plan.commits[i].easterEggs[k].sound)) == Some(e.sound)
  {
    var c := plan.commits[i];
    EggEventsShape(c.easterEggs, TimeAt(plan, i));
    BeatHasPart(mode, plan, i, EggPart, if mode == Live then EggEvents(c.easterEggs, TimeAt(plan, i)) else []);
  }

  /** The time of each part function's events, relative to the beat. */
  lemma PartTimes(mode: Mode, plan: Plan, i: nat)
    requires i < |plan.commits|
    ensures forall e :: e in TransitionEvents(plan, i) ==>
      e.time == TimeAt(plan, i) - plan.beat * 1.5 || e.time == TimeAt(plan, i) - plan.beat * 0.5 || e.time == TimeAt(plan, i)
    ensures forall e :: e in LayerEvents(mode, plan, i) ==> e.time == TimeAt(plan, i)
    ensures forall e :: e in EggEvents(plan.commits[i].easterEggs, TimeAt(plan, i)) ==> e.time == TimeAt(plan, i) + 0.1
    ensures forall e :: e in EffectEvents(mode, plan.commits[i], TimeAt(plan, i)) ==> e.time == TimeAt(plan, i) + 0.05
  {
    TransitionTimes(plan, i);
    LayerTimes(mode, plan, i);
    EggEventsShape(plan.commits[i].easterEggs, TimeAt(plan, i));
    EffectTimes(mode, plan, i);
  }

  lemma TransitionTimes(plan: Plan, i: nat)
    requires i < |plan.commits|
    ensures forall e :: e in TransitionEvents(plan, i) ==>
      e.time == TimeAt(plan, i) - plan.beat * 1.5 || e.time == TimeAt(plan, i) - plan.beat * 0.5 || e.time == TimeAt(plan, i)
  {
  }

  lemma LayerTimes(mode: Mode, plan: Plan, i: nat)
    requires i < |plan.commits|
    ensures forall e :: e in LayerEvents(mode, plan, i) ==> e.time == TimeAt(plan, i)
  {
    assert LayerEvents(mode, plan, i)
        == DrumEvents(plan, i) + BassEvents(plan, i) + ChordEvents(plan, i) + LeadEvents(mode, plan, i) + VocalEvents(plan, i);
  }

  lemma EffectTimes(mode: Mode, plan: Plan, i: nat)
    requires i < |plan.commits|
    ensures forall e :: e in EffectEvents(mode, plan.commits[i], TimeAt(plan, i)) ==> e.time == TimeAt(plan, i) + 0.05
  {
  }

  /** Every event lies at one of five fixed offsets from its beat, hence within [t - 1.5 beats, t + 0.1]. */
  lemma BeatTiming(mode: Mode, plan: Plan, i: nat)
    requires i < |plan.commits| && plan.beat > 0.0
    ensures forall e :: e in BeatEvents(mode, plan, i) ==>
      var d := e.time - TimeAt(plan, i);
      d == -1.5 * plan.beat || d == -0.5 * plan.beat || d == 0.0 || d == 0.05 || d == 0.1
    ensures forall e :: e in BeatEvents(mode, plan, i) ==>
      TimeAt(plan, i) - 1.5 * plan.beat <= e.time <= TimeAt(plan, i) + 0.1
  {
    var c := plan.commits[i];
    var t := TimeAt(plan, i);
    var G := if mode == Live then EggEvents(c.easterEggs, t) else [];
    PartTimes(mode, plan, i);
    assert BeatEvents(mode, plan, i) == TransitionEvents(plan, i) + LayerEvents(mode, plan, i) + G + EffectEvents(mode, c, t);
  }

  /** Live lead notes keep the fixed 0.3 s decay and full gain; offline ones follow the beat and intensity. */
  lemma LeadNotesByMode(mode: Mode, plan: Plan, i: nat)
    requires i < |plan.commits|
    ensures forall e :: e in BeatEvents(mode, plan, i) && e.part == LeadPart ==>
      e.time == TimeAt(plan, i) && e.sound.LeadNote? && LeadGate(plan.commits[i].sha)
      && e.sound.pitch == LeadPitch(ScaleOf(plan.genre), LeadHash(plan.commits[i].sha).value)
      && (mode == Live ==> e.sound.duration == 0.3 && e.sound.intensity == 1.0)
      && (mode == Offline ==> e.sound.duration == plan.beat * 0.8 && e.sound.intensity == IntensityAt(plan, i) * 0.8)
  {
    BeatHasPart(mode, plan, i, LeadPart, LeadEvents(mode, plan, i));
  }

  /** The track is the beats' events in beat order. */
  lemma {:induction false} TrackMembers(mode: Mode, plan: Plan, n: nat, e: Event)
    requires n <= |plan.commits|
    ensures e in TrackEvents(mode, plan, n) <==> exists i :: 0 <= i < n && e in BeatEvents(mode, plan, i)
  {
    if n > 0 {
      TrackMembers(mode, plan, n - 1, e);
      var prev := TrackEvents(mode, plan, n - 1);
      var last := BeatEvents(mode, plan, n - 1);
      assert TrackEvents(mode, plan, n) == prev + last;
      if e in prev + last {
        if e in prev {
          var i :| 0 <= i < n - 1 && e in BeatEvents(mode, plan, i);
        } else {
          assert e in last;
        }
      }
      if exists i :: 0 <= i < n && e in BeatEvents(mode, plan, i) {
        var i :| 0 <= i < n && e in BeatEvents(mode, plan, i);
        if i < n - 1 { assert e in prev; } else { assert e in last; }
      }
    }
  }

  /** The offline track never contains an easter-egg sound. */
  lemma OfflineHasNoEggs(plan: Plan, n: nat)
    requires n <= |plan.commits|
    ensures !HasPart(TrackEvents(Offline, plan, n), EggPart)
  {
    forall e | e in TrackEvents(Offline, plan, n) ensures e.part != EggPart {
      TrackMembers(Offline, plan, n, e);
      var i :| 0 <= i < n && e in BeatEvents(Offline, plan, i);
      BeatGating(Offline, plan, i);
    }
  }

  // ---------------------------------------------------------------- live against offline

  /** Drop the easter-egg events. */
  function NoEggs(evs: seq<Event>): seq<Event> {
    if |evs| == 0 then []
    else NoEggs(evs[..|evs| - 1]) + (if evs[|evs| - 1].part == EggPart then [] else [evs[|evs| - 1]])
  }

  /** Forget a lead note's decay and gain, the one place the two generators' instruments differ. */
  function Blur(s: Sound): Sound {
    if s.LeadNote? then LeadNote(s.pitch, 0.0, 0.0) else s
  }

  /** Times measured from `origin`, lead parameters forgotten. */
  function Normalize(evs: seq<Event>, origin: real): seq<Event> {
    seq(|evs|, k requires 0 <= k < |evs| => Event(evs[k].time - origin, evs[k].part, Blur(evs[k].sound)))
  }

  lemma {:induction false} NoEggsConcat(a: seq<Event>, b: seq<Event>)
    ensures NoEggs(a + b) == NoEggs(a) + NoEggs(b)
    decreases |b|
  {
    if |b| == 0 {
      assert a + b == a;
    } else {
      assert (a + b)[..|a + b| - 1] == a + b[..|b| - 1];
      NoEggsConcat(a, b[..|b| - 1]);
    }
  }

  lemma {:induction false} NoEggsKeeps(evs: seq<Event>)
    requires !HasPart(evs, EggPart)
    ensures NoEggs(evs) == evs
  {
    if |evs| > 0 {
      assert evs[|evs| - 1] in evs;
      assert !HasPart(evs[..|evs| - 1], EggPart) by {
        forall e | e in evs[..|evs| - 1] ensures e.part != EggPart { assert e in evs; }
      }
      NoEggsKeeps(evs[..|evs| - 1]);
      assert evs[..|evs| - 1] + [evs[|evs| - 1]] == evs;
    }
  }

  lemma {:induction false} NoEggsOfEggs(eggs: seq<EggTag>, t: real)
    ensures NoEggs(EggEvents(eggs, t)) == []
  {
    if |eggs| > 0 {
      var init := EggEvents(eggs[..|eggs| - 1], t);
      var last := EggEvents(eggs, t)[|init|..];
      assert EggEvents(eggs, t) == init + last;
      NoEggsOfEggs(eggs[..|eggs| - 1], t);
      NoEggsConcat(init, last);
      EggEventsShape(eggs, t);
      assert forall e :: e in last ==> e in EggEvents(eggs, t);
      if |last| == 1 {
        assert last == [] + [last[0]];
      }
    }
  }

  lemma NormalizeConcat(a: seq<Event>, b: seq<Event>, origin: real)
    ensures Normalize(a + b, origin) == Normalize(a, origin) + Normalize(b, origin)
  {
  }

  /** Moving the start moves every beat and nothing else. */
  lemma StartShift(plan: Plan, s: real, i: nat)
    requires i < |plan.commits|
    ensures TimeAt(plan.(start := s), i) - s == TimeAt(plan.(start := 0.0), i)
    ensures SectionAt(plan.(start := s), i) == SectionAt(plan.(start := 0.0), i)
    ensures IntensityAt(plan.(start := s), i) == IntensityAt(plan.(start := 0.0), i)
    ensures LastKind(plan.(start := s), i) == LastKind(plan.(start := 0.0), i)
    ensures PatternAt(plan.(start := s), i) == PatternAt(plan.(start := 0.0), i)
  {
  }

  /** The part of `StartShift` the one-event parts need: time, section and intensity. */
  lemma BeatShift(plan: Plan, s: real, i: nat)
    requires i < |plan.commits|
    ensures TimeAt(plan.(start := s), i) - s == TimeAt(plan.(start := 0.0), i)
    ensures SectionAt(plan.(start := s), i) == SectionAt(plan.(start := 0.0), i)
    ensures IntensityAt(plan.(start := s), i) == IntensityAt(plan.(start := 0.0), i)
  {
  }

  lemma TransitionShift(plan: Plan, s: real, i: nat)
    requires i < |plan.commits|
    ensures Normalize(TransitionEvents(plan.(start := s), i), s) == Normalize(TransitionEvents(plan.(start := 0.0), i), 0.0)
  {
    StartShift(plan, s, i);
  }

  lemma DrumShift(plan: Plan, s: real, i: nat)
    requires i < |plan.commits|
    ensures Normalize(DrumEvents(plan.(start := s), i), s) == Normalize(DrumEvents(plan.(start := 0.0), i), 0.0)
  {
    StartShift(plan, s, i);
  }

  lemma BassShift(plan: Plan, s: real, i: nat)
    requires i < |plan.commits|
    ensures Normalize(BassEvents(plan.(start := s), i), s) == Normalize(BassEvents(plan.(start := 0.0), i), 0.0)
  {
    var pL, pO := plan.(start := s), plan.(start := 0.0);
    BeatShift(plan, s, i);
    var note := BassNoteOf(plan.genre, ChordIndexForBeat(i, 4));
    var sound := BassNote(note, plan.beat * 1.5, IntensityAt(pO, i));
    GatedShift(Bass in SectionAt(pO, i).layers && i % 2 == 0,
               Event(TimeAt(pL, i), BassPart, sound), Event(TimeAt(pO, i), BassPart, sound), s,
               BassEvents(pL, i), BassEvents(pO, i));
  }

  lemma ChordShift(plan: Plan, s: real, i: nat)
    requires i < |plan.commits|
    ensures Normalize(ChordEvents(plan.(start := s), i), s) == Normalize(ChordEvents(plan.(start := 0.0), i), 0.0)
  {
    var pL, pO := plan.(start := s), plan.(start := 0.0);
    BeatShift(plan, s, i);
    var layers := SectionAt(pO, i).layers;
    var sound := ChordStack(ChordOf(plan.genre, ChordIndexForBeat(i, 4)), plan.beat * 3.5, IntensityAt(pO, i) * 0.7);
    GatedShift((Synth in layers || Vocal in layers) && i % 4 == 0,
               Event(TimeAt(pL, i), ChordPart, sound), Event(TimeAt(pO, i), ChordPart, sound), s,
               ChordEvents(pL, i), ChordEvents(pO, i));
  }

  lemma LeadShift(plan: Plan, s: real, i: nat)
    requires i < |plan.commits|
    ensures Normalize(LeadEvents(Live, plan.(start := s), i), s) == Normalize(LeadEvents(Offline, plan.(start := 0.0), i), 0.0)
  {
    var pL, pO := plan.(start := s), plan.(start := 0.0);
    var sha := plan.commits[i].sha;
    BeatShift(plan, s, i);
    if LeadGate(sha) {
      var pitch := LeadPitch(ScaleOf(plan.genre), LeadHash(sha).value);
      var eL := Event(TimeAt(pL, i), LeadPart, LeadSound(Live, pitch, plan.beat, IntensityAt(pL, i)));
      var eO := Event(TimeAt(pO, i), LeadPart, LeadSound(Offline, pitch, plan.beat, IntensityAt(pO, i)));
      assert Blur(eL.sound) == Blur(eO.sound) == LeadNote(pitch, 0.0, 0.0);
      GatedShift(Synth in SectionAt(pO, i).layers, eL, eO, s, LeadEvents(Live, pL, i), LeadEvents(Offline, pO, i));
    } else {
      assert LeadEvents(Live, pL, i) == [] && LeadEvents(Offline, pO, i) == [];
    }
  }

  lemma VocalShift(plan: Plan, s: real, i: nat)
    requires i < |plan.commits|
    ensures Normalize(VocalEvents(plan.(start := s), i), s) == Normalize(VocalEvents(plan.(start := 0.0), i), 0.0)
  {
    var pL, pO := plan.(start := s), plan.(start := 0.0);
    var c := plan.commits[i];
    BeatShift(plan, s, i);
    var sound := SungVowel(plan.beat * 2.0, VowelForAuthor(c.author), VowelPitch(c.sha), IntensityAt(pO, i));
    GatedShift(Vocal in SectionAt(pO, i).layers && i % 8 == 0,
               Event(TimeAt(pL, i), VocalPart, sound), Event(TimeAt(pO, i), VocalPart, sound), s,
               VocalEvents(pL, i), VocalEvents(pO, i));
  }

  /** A part that emits one event under a gate matches its shifted twin when the two events do. */
  lemma GatedShift(gate: bool, eL: Event, eO: Event, s: real, a: seq<Event>, a': seq<Event>)
    requires a == (if gate then [eL] else []) && a' == (if gate then [eO] else [])
    requires eL.time - s == eO.time && eL.part == eO.part && Blur(eL.sound) == Blur(eO.sound)
    ensures Normalize(a, s) == Normalize(a', 0.0)
  {
    if gate {
      NormalizeOne(eL, s);
      NormalizeOne(eO, 0.0);
    }
  }

  lemma NormalizeOne(e: Event, origin: real)
    ensures Normalize([e], origin) == [Event(e.time - origin, e.part, Blur(e.sound))]
  {
  }

  /** Normalized equality is kept by concatenation. */
  lemma MatchConcat(a: seq<Event>, b: seq<Event>, a': seq<Event>, b': seq<Event>, s: real)
    requires Normalize(a, s) == Normalize(a', 0.0)
    requires Normalize(b, s) == Normalize(b', 0.0)
    ensures Normalize(a + b, s) == Normalize(a' + b', 0.0)
  {
    NormalizeConcat(a, b, s);
    NormalizeConcat(a', b', 0.0);
  }

  lemma LayerShift(plan: Plan, s: real, i: nat)
    requires i < |plan.commits|
    ensures Normalize(LayerEvents(Live, plan.(start := s), i), s) == Normalize(LayerEvents(Offline, plan.(start := 0.0), i), 0.0)
  {
    var pL, pO := plan.(start := s), plan.(start := 0.0);
    var d, b, c, l, v := DrumEvents(pL, i), BassEvents(pL, i), ChordEvents(pL, i), LeadEvents(Live, pL, i), VocalEvents(pL, i);
    var d', b', c', l', v' := DrumEvents(pO, i), BassEvents(pO, i), ChordEvents(pO, i), LeadEvents(Offline, pO, i), VocalEvents(pO, i);
    DrumShift(plan, s, i);
    BassShift(plan, s, i);
    ChordShift(plan, s, i);
    LeadShift(plan, s, i);
    VocalShift(plan, s, i);
    MatchConcat(d, b, d', b', s);
    MatchConcat(d + b, c, d' + b', c', s);
    MatchConcat(d + b + c, l, d' + b' + c', l', s);
    MatchConcat(d + b + c + l, v, d' + b' + c' + l', v', s);
  }

  /** No easter egg hides among a beat's transition, layer or effect events. */
  lemma NonEggBlocks(mode: Mode, plan: Plan, i: nat)
    requires i < |plan.commits|
    ensures NoEggs(TransitionEvents(plan, i)) == TransitionEvents(plan, i)
    ensures NoEggs(LayerEvents(mode, plan, i)) == LayerEvents(mode, plan, i)
    ensures NoEggs(EffectEvents(mode, plan.commits[i], TimeAt(plan, i))) == EffectEvents(mode, plan.commits[i], TimeAt(plan, i))
  {
    PartTags(mode, plan, i);
    NoEggsOfPart(TransitionEvents(plan, i), TransitionPart);
    NoEggsOfPart(EffectEvents(mode, plan.commits[i], TimeAt(plan, i)), EffectPart);
    var L := LayerEvents(mode, plan, i);
    assert L == DrumEvents(plan, i) + BassEvents(plan, i) + ChordEvents(plan, i) + LeadEvents(mode, plan, i) + VocalEvents(plan, i);
    forall e | e in L ensures e.part != EggPart {
      assert || e in DrumEvents(plan, i) || e in BassEvents(plan, i) || e in ChordEvents(plan, i)
             || e in LeadEvents(mode, plan, i) || e in VocalEvents(plan, i);
    }
    NoEggsKeeps(L);
  }

  lemma EffectShift(c: Commit, t: real, s: real)
    ensures Normalize(EffectEvents(Live, c, t), s) == Normalize(EffectEvents(Offline, c, t - s), 0.0)
  {
    if CommitEffect(c).Some? {
      EffectDispatchResolves(CommitEffect(c).value);
    }
  }

  /** A sequence whose events are all of part `p`, not the egg part, loses nothing to NoEggs. */
  lemma NoEggsOfPart(evs: seq<Event>, p: Part)
    requires p != EggPart
    requires forall e :: e in evs ==> e.part == p
    ensures NoEggs(evs) == evs
  {
    NoEggsKeeps(evs);
  }

  lemma DropEggBlock(t: seq<Event>, l: seq<Event>, g: seq<Event>, f: seq<Event>)
    requires NoEggs(t) == t && NoEggs(l) == l && NoEggs(g) == [] && NoEggs(f) == f
    ensures NoEggs(t + l + g + f) == t + l + f
  {
    var tl := t + l;
    var tlg := tl + g;
    NoEggsConcat(t, l);
    assert NoEggs(tl) == tl;
    NoEggsConcat(tl, g);
    assert NoEggs(tlg) == tl + [];
    assert tl + [] == tl;
    NoEggsConcat(tlg, f);
  }

  /** The four blocks of a beat, matched block by block. */
  lemma BeatBlocks(t: seq<Event>, l: seq<Event>, g: seq<Event>, f: seq<Event>,
                   t': seq<Event>, l': seq<Event>, f': seq<Event>, s: real)
    requires NoEggs(t) == t && NoEggs(l) == l && NoEggs(g) == [] && NoEggs(f) == f
    requires Normalize(t, s) == Normalize(t', 0.0)
    requires Normalize(l, s) == Normalize(l', 0.0)
    requires Normalize(f, s) == Normalize(f', 0.0)
    ensures Normalize(NoEggs(t + l + g + f), s) == Normalize(t' + l' + [] + f', 0.0)
  {
    DropEggBlock(t, l, g, f);
    MatchThree(t, l, f, t', l', f', s);
    assert t' + l' + [] + f' == t' + l' + f';
  }

  lemma MatchThree(t: seq<Event>, l: seq<Event>, f: seq<Event>, t': seq<Event>, l': seq<Event>, f': seq<Event>, s: real)
    requires Normalize(t, s) == Normalize(t', 0.0)
    requires Normalize(l, s) == Normalize(l', 0.0)
    requires Normalize(f, s) == Normalize(f', 0.0)
    ensures Normalize(t + l + f, s) == Normalize(t' + l' + f', 0.0)
  {
    MatchConcat(t, l, t', l', s);
    MatchConcat(t + l, f, t' + l', f', s);
  }

  /** One beat: live minus its easter eggs, measured from its start, is the offline beat measured from 0. */
  lemma BeatLiveMatchesOffline(plan: Plan, s: real, i: nat)
    requires i < |plan.commits|
    ensures Normalize(NoEggs(BeatEvents(Live, plan.(start := s), i)), s)
         == Normalize(BeatEvents(Offline, plan.(start := 0.0), i), 0.0)
  {
    var pL, pO := plan.(start := s), plan.(start := 0.0);
    var c := plan.commits[i];
    var tL := TimeAt(pL, i);
    assert TimeAt(pO, i) == tL - s;
    NonEggBlocks(Live, pL, i);
    NoEggsOfEggs(c.easterEggs, tL);
    TransitionShift(plan, s, i);
    LayerShift(plan, s, i);
    EffectShift(c, tL, s);
    BeatBlocks(TransitionEvents(pL, i), LayerEvents(Live, pL, i), EggEvents(c.easterEggs, tL), EffectEvents(Live, c, tL),
               TransitionEvents(pO, i), LayerEvents(Offline, pO, i), EffectEvents(Offline, c, TimeAt(pO, i)), s);
  }

  /**
   * The offline rendering is the live schedule without its easter eggs,
   * moved to start at 0, once lead-note decay and gain are set aside.
   */
  lemma {:induction false} LiveMatchesOffline(plan: Plan, s: real, n: nat)
    requires n <= |plan.commits|
    ensures Normalize(NoEggs(TrackEvents(Live, plan.(start := s), n)), s)
         == Normalize(TrackEvents(Offline, plan.(start := 0.0), n), 0.0)
  {
    if n > 0 {
      var pL, pO := plan.(start := s), plan.(start := 0.0);
      LiveMatchesOffline(plan, s, n - 1);
      BeatLiveMatchesOffline(plan, s, n - 1);
      TrackStep(Live, pL, n);
      TrackStep(Offline, pO, n);
      MatchStep(TrackEvents(Live, pL, n - 1), BeatEvents(Live, pL, n - 1),
                TrackEvents(Offline, pO, n - 1), BeatEvents(Offline, pO, n - 1), s);
    }
  }

  lemma TrackStep(mode: Mode, plan: Plan, n: nat)
    requires 0 < n <= |plan.commits|
    ensures TrackEvents(mode, plan, n) == TrackEvents(mode, plan, n - 1) + BeatEvents(mode, plan, n - 1)
  {
  }

  lemma CueStep(plan: Plan, n: nat)
    requires 0 < n <= |plan.commits|
    ensures TrackCues(plan, n) == TrackCues(plan, n - 1) + BeatCues(plan, n - 1)
  {
  }

  /** Matching prefixes and matching suffixes give matching wholes. */
  lemma MatchStep(a: seq<Event>, b: seq<Event>, a': seq<Event>, b': seq<Event>, s: real)
    requires Normalize(NoEggs(a), s) == Normalize(a', 0.0)
    requires Normalize(NoEggs(b), s) == Normalize(b', 0.0)
    ensures Normalize(NoEggs(a + b), s) == Normalize(a' + b', 0.0)
  {
    NoEggsConcat(a, b);
    NormalizeConcat(NoEggs(a), NoEggs(b), s);
    NormalizeConcat(a', b', 0.0);
  }

  // ---------------------------------------------------------------- cues

  function BeatCuesOnly(cues: seq<Cue>): seq<Cue> {
    if |cues| == 0 then []
    else BeatCuesOnly(cues[..|cues| - 1]) + (if cues[|cues| - 1].BeatCue? then [cues[|cues| - 1]] else [])
  }

  lemma {:induction false} BeatCuesOnlyConcat(a: seq<Cue>, b: seq<Cue>)
    ensures BeatCuesOnly(a + b) == BeatCuesOnly(a) + BeatCuesOnly(b)
    decreases |b|
  {
    if |b| == 0 {
      assert a + b == a;
    } else {
      assert (a + b)[..|a + b| - 1] == a + b[..|b| - 1];
      BeatCuesOnlyConcat(a, b[..|b| - 1]);
    }
  }

  lemma BeatCuesOnlyOfBeat(plan: Plan, i: nat)
    requires i < |plan.commits|
    ensures BeatCuesOnly(BeatCues(plan, i)) == [BeatCue(i, TimeAt(plan, i))]
  {
    var kind := SectionAt(plan, i).kind;
    var sec: seq<Cue> := if LastKind(plan, i) != Some(kind) then [SectionCue(kind, i, TimeAt(plan, i))] else [];
    BeatCuesOnlyConcat(sec, [BeatCue(i, TimeAt(plan, i))]);
    assert BeatCuesOnly(sec) == [];
    assert BeatCuesOnly([BeatCue(i, TimeAt(plan, i))]) == [BeatCue(i, TimeAt(plan, i))];
  }

  /** The beat signals of the first `n` beats, one per beat at the beat's time. */
  function BeatSignals(plan: Plan, n: nat): (r: seq<Cue>)
    ensures |r| == n
    ensures forall i :: 0 <= i < n ==> r[i] == BeatCue(i, TimeAt(plan, i))
  {
    seq(n, i requires 0 <= i < n => BeatCue(i, TimeAt(plan, i)))
  }

  lemma BeatSignalsStep(plan: Plan, n: nat)
    requires n > 0
    ensures BeatSignals(plan, n) == BeatSignals(plan, n - 1) + [BeatCue(n - 1, TimeAt(plan, n - 1))]
  {
  }

  /** One beat signal per beat, in beat order, at the beat's time. */
  lemma {:induction false} CuesPerBeat(plan: Plan, n: nat)
    requires n <= |plan.commits|
    ensures BeatCuesOnly(TrackCues(plan, n)) == BeatSignals(plan, n)
  {
    if n > 0 {
      CuesPerBeat(plan, n - 1);
      var prev := TrackCues(plan, n - 1);
      assert TrackCues(plan, n) == prev + BeatCues(plan, n - 1);
      BeatCuesOnlyConcat(prev, BeatCues(plan, n - 1));
      BeatCuesOnlyOfBeat(plan, n - 1);
      BeatSignalsStep(plan, n);
    }
  }

  /** The first beat always signals its section, at the start time. */
  lemma {:induction false} FirstCue(plan: Plan, n: nat)
    requires 0 < n <= |plan.commits|
    ensures TrackCues(plan, n)[0] == SectionCue(SectionAt(plan, 0).kind, 0, plan.start)
  {
    if n == 1 {
      assert TrackCues(plan, 1) == [] + BeatCues(plan, 0);
      assert TimeAt(plan, 0) == plan.start;
    } else {
      FirstCue(plan, n - 1);
      assert TrackCues(plan, n) == TrackCues(plan, n - 1) + BeatCues(plan, n - 1);
    }
  }
}
