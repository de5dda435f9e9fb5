# CodeJams composer, in Dafny

CodeJams turns a repository's commit history into music. Each commit becomes one beat:

- its message, changed-file count, hour and sha choose a drum pattern, an intensity, a one-shot effect, a lead note and a sung vowel;
- the commit list as a whole is cut into song sections (intro, verse, chorus, bridge, outro);
- the genre is guessed from the file extensions the messages mention.

The same walk over the commits runs twice, once live and once for offline rendering. The offline rendering is serialised as a 16-bit PCM WAV file. Around the composer sit:

- URL parsers for GitHub repository references;
- the recent-searches list;
- a bookmark monitor that reports repositories with new commits.

This project models those parts and proves what they promise.

- **Pure code** becomes datatypes and functions with lemmas (`MusicTheory`, `Classifier`, `GithubPath`, `HomePage`, most of `BookmarkMonitor`).
- **Code that mutates locals in loops** becomes methods with loop invariants, proved against a specification function (`CalculateDynamicIntensity`, `FindIntenseCommitPeriod`, `DetectSongStructure`, `BuildSectionMap`, `ScanCategories`, the genre detector's methods, and the per-beat blocks and scheduling loops of `Engine`). The WAV writer fills an `array<byte>` in place.
- **Stateful objects** become classes. The audio engine keeps its context, gains and playing flag. The bookmark monitor keeps its running flag and stored list.
- **Web Audio calls** become `Event(time, part, sound)` values appended to a sequence. Each event carries the part of the beat that produced it, so the live and offline event lists can be compared.

Files:

| file | models |
|---|---|
| `wrappers.dfy`, `lists.dfy` | `Option`; filtering and slicing of sequences |
| `js_text.dfy` | the JavaScript string built-ins the core relies on: ASCII `toLowerCase`, `includes`, `trim`, `parseInt(…, 16)`, the truncating `%` |
| `commits.dfy` | the commit record and its easter-egg tags |
| `music_theory.dfy` | `music-theory.js` |
| `easter_eggs.dfy` | `easter-eggs.js` |
| `genre_detector.dfy` | `genre-detector.js` |
| `classifier.dfy` | vowel choice, intensity, effect and beat pattern in `audio.js` |
| `song_structure.dfy` | `detectSongStructure` and `findIntenseCommitPeriod` |
| `section_map.dfy` | the sha-to-section map that `generateTrack` builds |
| `schedule.dfy` | the events one beat produces, live or offline, and the section and beat signals |
| `schedule_props.dfy` | what the event lists satisfy, including how the offline list relates to the live one |
| `early_transition.dfy` | a five-commit track whose bridge cymbal falls before time zero |
| `engine.dfy` | the `AudioEngine` class: `init`, `stop`, the volume setters, `generateTrack`, `generateTrackOffline` |
| `wav_export.dfy` | `audioBufferToWav` |
| `github_path.dfy` | `parser.js` |
| `home_page.dfy` | `parseGitHubUrl` and the recent list in `HomePage.jsx` |
| `bookmark_monitor.dfy` | `bookmark-monitor.js` |

Section lengths such as `Math.floor(totalCommits * 0.1)` are modelled as integer division (`n / 10`, `n * 3 / 10`).

Not every sound event lies at or after the track start. `audio.js:1029` schedules a bridge's reverse cymbal 1.5 beats before the bridge's first beat. In an offline render that starts at time zero, a bridge entered at beat 1 therefore puts its cymbal half a beat before time zero. `EarlyTransition.EarlyCymbalAtAnyTempo` proves this for a concrete five-commit list at any positive tempo.

## Model

| member | source | states |
|---|---|---|
| Classifier.VowelForAuthor | codejams/src/services/audio.js:340-344 | there is no vowel exactly for an empty author name; otherwise the vowel is one of a, e, i, o, u |
| Classifier.VowelCycles | codejams/src/services/audio.js:340-344 | the vowel is "aeiou" at the author's first UTF-16 code unit modulo 5 |
| Classifier.VowelExamples | codejams/src/services/audio.js:340-344 | "Alice" sings 'a', "bob" sings 'o', and the empty name has no vowel |
| Classifier.Formants | codejams/src/services/audio.js:296-305 | every vowel's three formant frequencies are strictly increasing |
| Classifier.EmptyAuthorSingsA | codejams/src/services/audio.js:305 | an empty author name falls back to the formants of 'a' |
| Classifier.FilesBoost | codejams/src/services/audio.js:356-359 | the file boost lies in [0, 0.3]; it is 0 exactly when no file changed and 0.3 exactly from 50 files up |
| Classifier.Adjustment | codejams/src/services/audio.js:356-382 | the adjustments made before the clamp add up to between -0.1 and +0.95 |
| Classifier.Clamp | codejams/src/services/audio.js:385 | the result lies in [0.3, 1.5]; it leaves values in range alone and moves values below or above to the nearer bound |
| Classifier.DynamicIntensity | codejams/src/services/audio.js:352-386 | the intensity is always in [0.3, 1.5], whatever the base, files, hour and message |
| Classifier.CalculateDynamicIntensity | codejams/src/services/audio.js:352-386 | applying the adjustments one by one and then clamping gives the clamped sum of all adjustments, which lies in [0.3, 1.5] |
| Classifier.IntensityUnclamped | codejams/src/services/audio.js:356-382 | for a base in [0.4, 0.55], no adjustment ever clamps and the intensity is base plus the sum of the independent adjustments |
| Classifier.IntensityMonotoneInBase | codejams/src/services/audio.js:352-386 | a higher base never gives a lower intensity |
| Classifier.IntensityMonotoneInFiles | codejams/src/services/audio.js:356-359 | more changed files never give a lower intensity, all else equal |
| Classifier.CommitEffect | codejams/src/services/audio.js:393-418 | the first rule that applies wins: a merge gets cowbell; otherwise breaking or major gets the orchestral hit; otherwise more than 20 files gets glitch; otherwise 2-4 am gets scratch; otherwise none. Each outcome holds exactly under its condition |
| Classifier.MergeAlwaysCowbell | codejams/src/services/audio.js:395-397 | a message containing "merge" gets the cowbell whatever the file count and hour |
| Classifier.Steps | codejams/src/services/audio.js:421-427 | every drum pattern has eight slots |
| Classifier.SelectBeatPattern | codejams/src/services/audio.js:420-445 | patterns in priority order: breakdown exactly when the message holds "merge"; otherwise syncopated exactly for more than 15 files; otherwise buildup exactly for a feature word; otherwise energetic exactly for a busy window of at least three recent commits; basic exactly when none of these holds |
| Classifier.Recent | codejams/src/services/audio.js:573 | the recent window is the at most five commits just before the beat, in order |
| Classifier.GapSumCoversSpan | codejams/src/services/audio.js:434-439 | the summed neighbour gaps are at least the distance between the first and last dates |
| Classifier.EnergeticImpliesShortSpan | codejams/src/services/audio.js:433-441 | the energetic pattern only plays when the recent commits span less than an hour per gap |
| Classifier.ShortGapsAreBusy | codejams/src/services/audio.js:433-441 | if every neighbour gap is under an hour, the mean gap is under an hour |
| MusicTheory.GenreForKey | codejams/src/utils/music-theory.js:110 | a key found in the table names the genre with that key; an absent key matches no genre |
| MusicTheory.LookupGenreCases | codejams/src/utils/music-theory.js:108-111 | a missing genre finds the experimental entry; a genre whose lower-cased name is a table key finds that entry; the lookup finds a member inherited from `Object.prototype` exactly when the lower-cased name is "constructor" or "__proto__"; any other name finds experimental |
| MusicTheory.InheritedSpellings | codejams/src/utils/music-theory.js:108-111 | "Constructor" and "__PROTO__" find the inherited member; "toString", lower-cased to "tostring", falls back to experimental |
| MusicTheory.GetChordProgression | codejams/src/utils/music-theory.js:108-111 | the progression is the table entry's, and no progression exactly for an inherited member |
| MusicTheory.NoteNameOctave | codejams/src/utils/music-theory.js:22-27 | a listed note name with octave digit d has offset table[name] + 12·(d − 4) semitones from A4 |
| MusicTheory.ConcertA | codejams/src/utils/music-theory.js:18-29 | "A4" is offset 0, that is exactly 440 Hz |
| MusicTheory.SameEntrySamePitch | codejams/src/utils/music-theory.js:12-27 | two spellings with the same table entry give the same pitch in every octave |
| MusicTheory.Enharmonics | codejams/src/utils/music-theory.js:13-18 | C#/Db, D#/Eb, F#/Gb, G#/Ab and A#/Bb are equal in every octave |
| MusicTheory.OctaveIsTwelve | codejams/src/utils/music-theory.js:27 | raising the octave digit by one raises the pitch by 12 semitones |
| MusicTheory.NoMatchIsA4 | codejams/src/utils/music-theory.js:22-23 | a string with no note-name-and-digit match gives the 440 Hz default |
| MusicTheory.UnlistedSpellings | codejams/src/utils/music-theory.js:22-26 | E#, B#, Cb and Fb match the pattern but have no entry, so their pitch is not a number |
| MusicTheory.ChordIndexForBeat | codejams/src/utils/music-theory.js:119-121 | for a non-negative beat and positive beats per chord, the chord index lies in [0, 3] |
| MusicTheory.ChordIndexPeriodic | codejams/src/utils/music-theory.js:119-121 | the chord index repeats every 4·b beats |
| MusicTheory.ChordIndexBlock | codejams/src/utils/music-theory.js:119-121 | within the m-th block of b beats the chord index is constant, m mod 4 |
| MusicTheory.ChordIndexSixteen | codejams/src/services/audio.js:609 | with four beats per chord, the chord cycle repeats every 16 beats |
| MusicTheory.ProgressionShape | codejams/src/utils/music-theory.js:36-101 | every progression has 4 chords and 4 bass notes; chords have 3 notes, experimental's have 4 |
| MusicTheory.ScaleLength | codejams/src/utils/music-theory.js:129-135 | every scale has 8 notes except chiptune's 7 |
| MusicTheory.ScaleOf | codejams/src/utils/music-theory.js:138-140 | a genre's pitch list has one pitch per scale note, in scale order |
| MusicTheory.GetMelodicScale | codejams/src/utils/music-theory.js:128-140 | for a table entry, the melodic scale is its scale notes, mapped to pitches one by one in order; for an inherited member the call throws (no result), since `scale.map` is not a function there |
| MusicTheory.WellSpelledIsNumber | codejams/src/utils/music-theory.js:22-29 | a listed name followed by a digit always gives a numeric pitch |
| MusicTheory.ChordsWellSpelled | codejams/src/utils/music-theory.js:36-101 | every chord note in every table is a listed name with an octave digit |
| MusicTheory.BassWellSpelled | codejams/src/utils/music-theory.js:36-101 | every bass note in every table is a listed name with an octave digit |
| MusicTheory.ScaleWellSpelled | codejams/src/utils/music-theory.js:129-135 | every scale note is a listed name with an octave digit |
| MusicTheory.TablesWellSpelled | codejams/src/utils/music-theory.js:36-140 | no chord, bass or scale note of any genre gives NaN |
| EasterEggs.ScanCategories | codejams/src/utils/easter-eggs.js:43-50 | the category loop pushes exactly the tags of the categories found, in table order |
| EasterEggs.DetectEasterEggs | codejams/src/utils/easter-eggs.js:40-57 | same length as the input; element k keeps commit k's fields and gains index k and the message's tags |
| EasterEggs.Rank | codejams/src/utils/easter-eggs.js:1-38 | a category key's table position, when it has one |
| EasterEggs.TagsUpToShape | codejams/src/utils/easter-eggs.js:45-50 | scanning the first n categories yields one tag per category found, built from that category, in strictly increasing table order |
| EasterEggs.TagPresentIff | codejams/src/utils/easter-eggs.js:42-48 | a category's tag is present exactly when the lower-cased message contains one of its keywords |
| EasterEggs.TagsOrdered | codejams/src/utils/easter-eggs.js:1-50 | tags appear at most once each, in the order bug, refactor, breaking, wip, profanity, merge, each carrying its category's key, icon, sound and description |
| EasterEggs.NoKeywordNoTags | codejams/src/utils/easter-eggs.js:43-56 | the tag list is empty exactly when the message contains no keyword of any category |
| GenreDetector.Position | codejams/src/utils/genre-detector.js:1-37 | every genre has a place in the table's key order |
| GenreDetector.BpmRangesOrdered | codejams/src/utils/genre-detector.js:6-34 | every bpm range has min < max, 20 apart |
| GenreDetector.TokensAreExtensions | codejams/src/utils/genre-detector.js:44 | every token the `/\.\w+/g` scan yields is a dot followed by word characters, taken from the message |
| GenreDetector.SingleToken | codejams/src/utils/genre-detector.js:44 | a message that is one extension token yields exactly that token |
| GenreDetector.ExtensionSetMembers | codejams/src/utils/genre-detector.js:41-48 | the extension set holds exactly the lower-cased tokens of all messages |
| GenreDetector.Score | codejams/src/utils/genre-detector.js:55-59 | a genre's score never exceeds its number of extensions |
| GenreDetector.ScoreZero | codejams/src/utils/genre-detector.js:55-59 | the score is zero exactly when none of the genre's extensions was seen |
| GenreDetector.ScoreFull | codejams/src/utils/genre-detector.js:55-59 | the score is full exactly when all of the genre's extensions were seen |
| GenreDetector.LeaderShape | codejams/src/utils/genre-detector.js:62-71 | after n genres the leader's score is the maximum so far; a positive leader is the earliest genre with that score; a zero maximum leaves experimental |
| GenreDetector.DetectedGenreIsArgmax | codejams/src/utils/genre-detector.js:62-73 | the detected genre has the highest score; every earlier genre scores strictly less; it is experimental exactly when every score is zero |
| GenreDetector.NoCommitsIsExperimental | codejams/src/utils/genre-detector.js:62-73 | no commits give experimental |
| GenreDetector.ExperimentalNeverScores | codejams/src/utils/genre-detector.js:33 | experimental has no extensions and always scores zero |
| GenreDetector.CollectExtensions | codejams/src/utils/genre-detector.js:41-48 | the message loop collects exactly the extension set |
| GenreDetector.CountPresent | codejams/src/utils/genre-detector.js:55-59 | the counting loop computes the score |
| GenreDetector.ScoreGenres | codejams/src/utils/genre-detector.js:51-60 | the scores object holds every genre's score |
| GenreDetector.DetectGenre | codejams/src/utils/genre-detector.js:39-74 | the returned entry is the table entry of the argmax genre |
| SongStructure.DensityOrder | codejams/src/services/audio.js:536-538 | the density 10/(span in hours) of two windows orders them by shorter span, so comparing densities is comparing spans |
| SongStructure.BestUpTo | codejams/src/services/audio.js:528-542 | the window kept so far has a non-zero span and starts before n |
| SongStructure.BestIsEarliestShortest | codejams/src/services/audio.js:528-542 | no window is kept exactly when every scanned span is zero; otherwise the kept window has the smallest non-zero span and is the earliest one with it |
| SongStructure.IntenseStart | codejams/src/services/audio.js:528-544 | the chosen start leaves ten commits and is 0 or below N − 10; the last start is never scanned |
| SongStructure.IntensePeriod | codejams/src/services/audio.js:521-545 | the period is empty exactly when there are fewer than ten commits, and is ten commits otherwise |
| SongStructure.TenCommitsArePeriod | codejams/src/services/audio.js:528-544 | exactly ten commits always give all ten |
| SongStructure.FindIntenseCommitPeriod | codejams/src/services/audio.js:521-545 | the density scan returns the earliest shortest-span window, or the first ten, or nothing below ten commits |
| SongStructure.BridgeCandidates | codejams/src/services/audio.js:485-487 | the bridge filter never lengthens the list |
| SongStructure.BridgeCandidatesMembers | codejams/src/services/audio.js:485-487 | the bridge candidates are exactly the commits whose lower-cased message mentions refactor, breaking, major or rewrite |
| SongStructure.DetectSongStructure | codejams/src/services/audio.js:447-519 | the pushes produce the sections of the structure function |
| SongStructure.FallbackIffShort | codejams/src/services/audio.js:508-516 | the single fallback verse is the result exactly when there are at most three commits |
| SongStructure.SectionsInOrder | codejams/src/services/audio.js:447-519 | there is at least one section, and sections come strictly in the order intro, verse, chorus, bridge, outro |
| SongStructure.ChorusIffTen | codejams/src/services/audio.js:473-482 | there is a chorus exactly when there are at least ten commits, and it holds the ten-commit intense period |
| SongStructure.IntroFirst | codejams/src/services/audio.js:451-460 | from ten commits on, the first section is the intro: the last min(8, N/10) commits, drums only, at 0.5 |
| SongStructure.VerseSecond | codejams/src/services/audio.js:462-471 | from ten commits on, the second section is the verse, and the verse's commits followed by the intro's are one contiguous tail of the list: the verse is the ⌊3N/10⌋ commits just before the intro |
| SongStructure.OutroLast | codejams/src/services/audio.js:497-506 | from ten commits on, the last section is the outro: the first min(4, N/10) commits, drums and bass, at 0.4 |
| SongStructure.BridgeContents | codejams/src/services/audio.js:484-495 | there is a bridge exactly when at least four candidates exist; it is then the section of the first min(8, n) of the n candidates, with bass and synth at 0.6, all of them bridge commits of the list |
| SectionMap.BuildSectionMap | codejams/src/services/audio.js:561-566 | the nested loop builds the sha map of all sections |
| SectionMap.LastSectionWins | codejams/src/services/audio.js:561-566 | a sha is mapped exactly when some section holds it, and it maps to the last such section pushed |
| Schedule.ScratchDispatch | codejams/src/services/audio.js:168 | "scratch" dispatches to `playScratch` |
| Schedule.ReverseCymbalDispatch | codejams/src/services/audio.js:186 | "reverseCymbal" dispatches to `playReverseCymbal` |
| Schedule.OrchestralHitDispatch | codejams/src/services/audio.js:207 | "orchestralHit" dispatches to `playOrchestralHit` |
| Schedule.DrumRollDispatch | codejams/src/services/audio.js:224 | "drumRoll" dispatches to `playDrumRoll` |
| Schedule.CowbellDispatch | codejams/src/services/audio.js:230 | "cowbell" dispatches to `playCowbell` |
| Schedule.GlitchDispatch | codejams/src/services/audio.js:249 | "glitch" dispatches to `playGlitch` |
| Schedule.BassDispatch | codejams/src/services/audio.js:131-135 | "bass" dispatches to `playBass` with its defaults, an 80 Hz tone of 0.8 s at full intensity; "chord" names `playChord`, which the dispatch does not sound |
| Schedule.TableSoundsResolve | codejams/src/utils/easter-eggs.js:5-35 | every easter-egg category's sound name builds a method name the engine defines |
| Schedule.EffectDispatchResolves | codejams/src/services/audio.js:662-667 | every effect name builds a method name the engine defines, giving that effect's sound |
| Schedule.TagSoundsResolve | codejams/src/services/audio.js:650-658 | the name-built dispatch resolves for every tag a message can get |
| Schedule.VowelPitchRange | codejams/src/services/audio.js:646 | a hexadecimal sha gives a vowel pitch in [220, 439] |
| ScheduleProperties.EggEventsShape | codejams/src/services/audio.js:650-658 | every egg event sounds at t + 0.1 with the generator one of the tags names |
| ScheduleProperties.EggEventsOnePerTag | codejams/src/services/audio.js:650-658 | when every tag resolves, there is one egg event per tag, in tag order |
| ScheduleProperties.BeatMember | codejams/src/services/audio.js:583-669 | a beat's events are exactly those of its transition, drums, bass, chord, lead, vocal, effect and (live only) egg blocks |
| ScheduleProperties.BeatGating | codejams/src/services/audio.js:584-669 | all gates at once, as stated by the eight gate lemmas below; egg events appear only live |
| ScheduleProperties.TransitionGate | codejams/src/services/audio.js:584-597 | a transition sounds exactly when beat > 0, the section type changed and the new section is not an intro |
| ScheduleProperties.DrumGate | codejams/src/services/audio.js:614-622 | a drum sounds exactly when the section has drums |
| ScheduleProperties.BassGate | codejams/src/services/audio.js:625-627 | bass sounds exactly when the section has bass and the beat is even |
| ScheduleProperties.ChordGate | codejams/src/services/audio.js:630-632 | a chord sounds exactly when the section has synth or vocal and the beat is a multiple of 4 |
| ScheduleProperties.LeadGateOf | codejams/src/services/audio.js:635-641 | a lead note sounds exactly when the section has synth and the sha's first two hex digits are a multiple of 3 |
| ScheduleProperties.VocalGate | codejams/src/services/audio.js:644-648 | a vowel sounds exactly when the section has vocal and the beat is a multiple of 8 |
| ScheduleProperties.EggGate | codejams/src/services/audio.js:1079-1091 | egg sounds only occur in the live list |
| ScheduleProperties.EffectGate | codejams/src/services/audio.js:661-669 | an effect sounds exactly when the commit has one |
| ScheduleProperties.DrumContents | codejams/src/services/audio.js:613-622 | the drum sounds at t, plays the pattern's slot beat mod 8 as kick, snare or closed hi-hat, at the dynamic intensity |
| ScheduleProperties.HarmonyShape | codejams/src/services/audio.js:608-632 | bass and chord use chord index ⌊i/4⌋ mod 4, last 1.5 and 3.5 beats, with the chord at 0.7 of the intensity |
| ScheduleProperties.BassContents | codejams/src/services/audio.js:624-627 | the bass event in a beat is the current bass note for 1.5 beats at the intensity |
| ScheduleProperties.ChordContents | codejams/src/services/audio.js:629-632 | the chord event in a beat is the current chord for 3.5 beats at 0.7 of the intensity |
| ScheduleProperties.VocalContents | codejams/src/services/audio.js:643-648 | the vowel event lasts two beats with the author's vowel and the sha's pitch |
| ScheduleProperties.TransitionContents | codejams/src/services/audio.js:583-597 | a chorus or verse entry gets a drum roll at t − 0.5 beat, a bridge a reverse cymbal at t − 1.5 beats, an outro an orchestral hit at t |
| ScheduleProperties.EffectContents | codejams/src/services/audio.js:660-669 | the effect event is the commit's effect at t + 0.05 |
| ScheduleProperties.EggContents | codejams/src/services/audio.js:650-658 | an egg event is live only, at t + 0.1, and is the generator of one of the commit's tags |
| ScheduleProperties.BeatTiming | codejams/src/services/audio.js:571-669 | every event of beat i lies at t − 1.5 beats, t − 0.5 beat, t, t + 0.05 or t + 0.1, where t = start + i·beat |
| ScheduleProperties.LeadNotesByMode | codejams/src/services/audio.js:634-641 | the lead note is the scale pitch at the sha's hash; live it lasts 0.3 s at full gain, ignoring what it is passed, and offline it lasts 0.8 beat at 0.8 of the intensity |
| ScheduleProperties.TrackMembers | codejams/src/services/audio.js:571-677 | an event is in the track exactly when some beat produced it |
| ScheduleProperties.OfflineHasNoEggs | codejams/src/services/audio.js:1079-1091 | the offline track has no easter-egg sound |
| ScheduleProperties.LeadShift | codejams/src/services/audio.js:1063-1070 | apart from duration and gain, the live and offline lead notes are the same sounds at the same beat offsets |
| ScheduleProperties.EffectShift | codejams/src/services/audio.js:1079-1091 | the live and offline effect blocks give the same sound at the same offset from their start |
| ScheduleProperties.BeatLiveMatchesOffline | codejams/src/services/audio.js:1011-1092 | dropping egg events and measuring from each start, a live beat equals the offline beat, up to lead duration and gain |
| ScheduleProperties.LiveMatchesOffline | codejams/src/services/audio.js:1011-1092 | dropping egg events and measuring from each start, the live track equals the offline track, up to lead duration and gain |
| ScheduleProperties.BeatSignals | codejams/src/services/audio.js:672-674 | one beat signal per commit, for beat i at its time |
| ScheduleProperties.CuesPerBeat | codejams/src/services/audio.js:672-674 | the beat signals of a track are exactly one per beat, in beat order |
| ScheduleProperties.FirstCue | codejams/src/services/audio.js:599-602 | the first signal announces the first beat's section at the start time |
| EarlyTransition.FiveCandidates | codejams/src/services/audio.js:485-487 | with one plain commit and then four bridge commits, the last four are the candidates |
| EarlyTransition.SampleStructure | codejams/src/services/audio.js:447-519 | the five-commit list has a verse holding its last commit and a bridge holding its last four |
| EarlyTransition.SampleSections | codejams/src/services/audio.js:577 | in that list, beat 0 is unmapped and gets the default verse, and beat 1 is in the bridge |
| EarlyTransition.BridgeEntryCymbal | codejams/src/services/audio.js:1024-1033 | entering a bridge at beat 1 puts a reverse cymbal at 1.5 beats before beat 1 in the offline track |
| EarlyTransition.EarlyCymbal | codejams/src/services/audio.js:1027-1029 | for that list rendered from time 0, the cymbal sits at −0.5 beat, before the start |
| EarlyTransition.EarlyCymbalAtAnyTempo | codejams/src/services/audio.js:710-1035 | the same holds for the offline plan at any positive bpm |
| Engine.TransitionBlock | codejams/src/services/audio.js:583-606 | the transition step emits the transition events of the beat |
| Engine.DrumBlock | codejams/src/services/audio.js:613-622 | the drum step emits the drum events of the beat |
| Engine.HarmonyBlock | codejams/src/services/audio.js:608-632 | the bass and chord steps emit the beat's bass and chord events |
| Engine.LeadBlock | codejams/src/services/audio.js:634-641 | the lead step emits the lead events of the beat for the given mode |
| Engine.VocalBlock | codejams/src/services/audio.js:643-648 | the vocal step emits the vocal events of the beat |
| Engine.EggBlock | codejams/src/services/audio.js:650-658 | the egg loop emits the events of the commit's tags in tag order |
| Engine.EffectBlock | codejams/src/services/audio.js:660-669 | the effect step emits the commit's effect, by name dispatch live and by the if-chain offline |
| Engine.BeatBody | codejams/src/services/audio.js:571-669 | one loop iteration emits the beat's events and leaves the beat's section type as the last one |
| Engine.SignalBlock | codejams/src/services/audio.js:599-674 | one iteration's section signal (on a change) and beat signal |
| Engine.AudioEngine.constructor | codejams/src/services/audio.js:4-13 | a new engine has no context, no gains and is not playing |
| Engine.AudioEngine.Init | codejams/src/services/audio.js:15-40 | with a context open, nothing changes; otherwise a context opens with master gain 0.6 and the four track gains at 1.0 |
| Engine.AudioEngine.Stop | codejams/src/services/audio.js:689-700 | the context closes, the gains are dropped, playing stops; without a context nothing changes |
| Engine.AudioEngine.SetDrumsVolume | codejams/src/services/audio.js:45-47 | the drums gain takes the value when it exists; nothing else changes |
| Engine.AudioEngine.SetBassVolume | codejams/src/services/audio.js:49-51 | the bass gain takes the value when it exists; nothing else changes |
| Engine.AudioEngine.SetSynthVolume | codejams/src/services/audio.js:53-55 | the synth gain takes the value when it exists; nothing else changes |
| Engine.AudioEngine.SetVocalVolume | codejams/src/services/audio.js:57-59 | the vocal gain takes the value when it exists; nothing else changes |
| Engine.AudioEngine.GenerateTrack | codejams/src/services/audio.js:547-687 | after `init` (a context that was open keeps its gains; a new one gets 0.6 and four gains of 1.0), schedules the live events of every beat from now + 0.1, returns the signals, the structure's sections and N·60/bpm, and is playing; for a genre that finds an inherited member it throws after `init`, with nothing scheduled and the playing flag unchanged |
| Engine.AudioEngine.ScheduleBeats | codejams/src/services/audio.js:568-677 | the commit loop appends every beat's live events in beat order and returns the signals; the mixer is untouched |
| Engine.AudioEngine.GenerateTrackOffline | codejams/src/services/audio.js:710-1095 | the offline loop produces every beat's offline events from time 0 and returns N·60/bpm; for a genre that finds an inherited member it throws before scheduling anything |
| JsText.Lower | codejams/src/services/audio.js:429 | ASCII lower-casing: each ASCII capital becomes its small letter and every other character is kept, so the length is kept (unlike `toLowerCase` on some non-ASCII input, see below) |
| JsText.LowerOfLowerCase | codejams/src/services/audio.js:429 | lower-casing changes nothing without ASCII capitals |
| JsText.ContainsAt | codejams/src/services/audio.js:429 | `includes` holds exactly when the needle occurs at some position |
| JsText.TrimStartShape | codejams/src/components/HomePage.jsx:70 | trimming the start removes exactly the leading whitespace |
| JsText.TrimEnd | codejams/src/components/HomePage.jsx:70 | trimming the end removes exactly the trailing whitespace |
| JsText.TrimOfUnpadded | codejams/src/components/HomePage.jsx:70 | a string without surrounding whitespace is unchanged by trim |
| JsText.JsRem | codejams/src/services/audio.js:637 | JavaScript's `%` takes the sign of the dividend |
| JsText.ParseHexOfHexString | codejams/src/services/audio.js:636 | `parseInt(s, 16)` of a non-empty hex string is its value, which is below 16 to the power of its length |
| GithubPath.RunEnd | codejams/src/utils/parser.js:2 | a `[^\/]+` run ends at the next slash or at the end of the string |
| GithubPath.MatchHereSpec | codejams/src/utils/parser.js:2 | the match at a position is "/github.com/owner/repo" with greedy slash-free runs; none means no occurrence starts there |
| GithubPath.NoMissedMatch | codejams/src/utils/parser.js:2 | any occurrence at a position is found there |
| GithubPath.ParseSound | codejams/src/utils/parser.js:2-8 | a result comes from the leftmost occurrence, with non-empty, slash-free owner and repo and greedy runs |
| GithubPath.ParseComplete | codejams/src/utils/parser.js:2-3 | any occurrence of "/github.com/x/y" gives a result |
| GithubPath.ParseNullIff | codejams/src/utils/parser.js:2-3 | null exactly when no "/github.com/x/y" with non-empty, slash-free x and y occurs |
| GithubPath.RoundTrip | codejams/src/utils/parser.js:2-8 | parsing "/github.com/o/r", optionally followed by a slash and more, gives {o, r} |
| GithubPath.TrailingSegments | codejams/src/utils/parser.js:2-8 | trailing segments after "/github.com/o/r/" are ignored |
| HomePage.SplitSound | codejams/src/components/HomePage.jsx:73-76 | a match has non-empty, slash-free owner and repo joined by the single slash |
| HomePage.SplitComplete | codejams/src/components/HomePage.jsx:73-76 | "o/r" with non-empty, slash-free o and r splits into {o, r} |
| HomePage.NoSlashRefused | codejams/src/components/HomePage.jsx:73-74 | a cleaned string without a slash gives null |
| HomePage.TwoSlashesRefused | codejams/src/components/HomePage.jsx:73-74 | a cleaned string with two slashes gives null |
| HomePage.ParseIff | codejams/src/components/HomePage.jsx:64-77 | the result is {o, r} exactly when the cleaned input is "o/r" with non-empty, slash-free sides |
| HomePage.GithubStripped | codejams/src/components/HomePage.jsx:69 | a "github.com/" prefix is removed once, and an owner-repo path without it is left alone |
| HomePage.WwwStripped | codejams/src/components/HomePage.jsx:68 | a "www." prefix is removed once and nothing else |
| HomePage.ProtocolStripped | codejams/src/components/HomePage.jsx:67 | an "http://" or "https://" prefix is removed and nothing else |
| HomePage.ParsesAfterPrefixes | codejams/src/components/HomePage.jsx:66-76 | any combination of protocol, "www." and "github.com/" before "o/r" parses to {o, r} |
| HomePage.ParsesBare | codejams/src/components/HomePage.jsx:66-76 | "o/r" parses to {o, r} when o is not "github.com" and does not start with "www." |
| HomePage.LeadingSpaceBlocks | codejams/src/components/HomePage.jsx:66-70 | trim runs last, so " github.com/o/r" gives null |
| HomePage.OneSlashOnly | codejams/src/components/HomePage.jsx:73-74 | "o", "o/r/" and "o/r/x" shapes give null |
| HomePage.ExampleRefusals | codejams/src/components/HomePage.jsx:73-74 | "o", "o/r/" and "o/r/x" give null |
| HomePage.WithoutShape | codejams/src/components/HomePage.jsx:91 | the filter keeps exactly the other entries, in order |
| HomePage.RecentShape | codejams/src/components/HomePage.jsx:89-92 | the new entry comes first, no other copy of it remains, at most five entries; the others are the first entries of the old list that differ from it, in their old order, with none skipped |
| HomePage.RecentIdempotent | codejams/src/components/HomePage.jsx:89-92 | submitting the same repository twice leaves the list as after once |
| HomePage.SubmitRoundTrip | codejams/src/components/HomePage.jsx:82-96 | the path navigated to parses back, under the path parser, to the repository typed, which heads the recent list |
| WavExport.Le16RoundTrip | codejams/src/utils/audio-export.js:21-24 | a 16-bit little-endian write reads back as the value mod 2^16 |
| WavExport.Le32RoundTrip | codejams/src/utils/audio-export.js:26-29 | a 32-bit little-endian write reads back as the value mod 2^32 |
| WavExport.Int16RoundTrip | codejams/src/utils/audio-export.js:68-72 | a signed 16-bit sample reads back as itself |
| WavExport.MagicWords | codejams/src/utils/audio-export.js:32-54 | 0x46464952, 0x45564157, 0x20746d66 and 0x61746164, little-endian, spell "RIFF", "WAVE", "fmt " and "data" |
| WavExport.FileLength | codejams/src/utils/audio-export.js:13 | the file is at least the 44 header bytes |
| WavExport.Header | codejams/src/utils/audio-export.js:31-56 | the header is exactly 44 bytes |
| WavExport.SampleRange | codejams/src/utils/audio-export.js:67-71 | every stored sample lies in [−32768, 32767] |
| WavExport.FullScale | codejams/src/utils/audio-export.js:67-71 | −1 and below give −32768, 1 and above give 32767, and 0 gives 0 |
| WavExport.FrameBytesLength | codejams/src/utils/audio-export.js:65-75 | n frames take n·channels·2 bytes |
| WavExport.WavLength | codejams/src/utils/audio-export.js:13 | the file is frames·channels·2 + 44 bytes |
| WavExport.SamplePosition | codejams/src/utils/audio-export.js:64-75 | the sample of frame i, channel c sits at bytes 44 + 2·(i·channels + c) and reads back as its 16-bit value |
| WavExport.HeaderFields | codejams/src/utils/audio-export.js:31-56 | "RIFF", length − 8, "WAVE", "fmt ", 16, format 1, channels, rate, byte rate = rate·channels·2, block align = channels·2, 16 bits, "data", length − 44, each as the field width holds it |
| WavExport.PutUint16 | codejams/src/utils/audio-export.js:21-24 | writes two little-endian bytes at pos and advances by 2, keeping what was before |
| WavExport.PutUint32 | codejams/src/utils/audio-export.js:26-29 | writes four little-endian bytes at pos and advances by 4, keeping what was before |
| WavExport.WriteHeader | codejams/src/utils/audio-export.js:31-56 | the header writes lay down exactly the 44-byte header |
| WavExport.WriteRiff | codejams/src/utils/audio-export.js:31-36 | the first three writes lay down the RIFF part |
| WavExport.WriteFmt | codejams/src/utils/audio-export.js:37-52 | the next eight writes lay down the fmt chunk |
| WavExport.WriteData | codejams/src/utils/audio-export.js:53-56 | the last two header writes lay down the data chunk header |
| WavExport.WriteFrame | codejams/src/utils/audio-export.js:65-75 | one frame iteration appends that frame's samples, channel by channel |
| WavExport.WriteSample | codejams/src/utils/audio-export.js:66-74 | one channel iteration appends that channel's sample |
| WavExport.WriteFrames | codejams/src/utils/audio-export.js:64-75 | the interleaving loop fills the data after the header with every frame in order |
| WavExport.AudioBufferToWav | codejams/src/utils/audio-export.js:12-78 | the written buffer is exactly the WAV file of the audio buffer |
| BookmarkMonitor.CheckSpec | codejams/src/services/bookmark-monitor.js:9-27 | news exactly when the fetch succeeded with a non-empty first sha different from the recorded one; then the sha is the first one and the new commits are those whose sha differs from the recorded one, in order |
| BookmarkMonitor.FailureIsQuiet | codejams/src/services/bookmark-monitor.js:23-26 | a failed fetch reports nothing new |
| BookmarkMonitor.RecordedShaIsQuiet | codejams/src/services/bookmark-monitor.js:12-14 | once the latest sha is recorded, the same fetch reports nothing new |
| BookmarkMonitor.MarkAll | codejams/src/services/bookmark-monitor.js:37-41 | the update map keeps the list length |
| BookmarkMonitor.FirstOf | codejams/src/services/bookmark-monitor.js:44 | `find` gives the first bookmark for the repository |
| BookmarkMonitor.OthersUntouched | codejams/src/services/bookmark-monitor.js:37-45 | bookmarks for other repositories are unchanged and keep their order |
| BookmarkMonitor.MoveToFrontSpec | codejams/src/services/bookmark-monitor.js:37-46 | the updated bookmark comes first, duplicates of it are gone, and the others follow unchanged in their order |
| BookmarkMonitor.LastNews | codejams/src/services/bookmark-monitor.js:32-35 | the last bookmark with news, when any |
| BookmarkMonitor.LastNewsSpec | codejams/src/services/bookmark-monitor.js:32-35 | no later bookmark of the pass has news |
| BookmarkMonitor.NotificationsSpec | codejams/src/services/bookmark-monitor.js:35-53 | the notifications are exactly the bookmarks with news, in list order, each with its new commits |
| BookmarkMonitor.EarlierUpdateLost | codejams/src/services/bookmark-monitor.js:30-48 | an earlier bookmark with news, for another repository than the last one with news, is stored as it was read: its update is lost |
| BookmarkMonitor.Monitor.constructor | codejams/src/services/bookmark-monitor.js:4-7 | a new monitor is not running |
| BookmarkMonitor.Monitor.CheckAllBookmarks | codejams/src/services/bookmark-monitor.js:29-56 | the stored list ends as the last bookmark with news moved to the front of the list read at the start, and the notifications are returned in order |
| BookmarkMonitor.Monitor.Start | codejams/src/services/bookmark-monitor.js:58-68 | a no-op while running; otherwise one pass runs at once and the monitor is running |
| BookmarkMonitor.Monitor.Stop | codejams/src/services/bookmark-monitor.js:70-75 | the monitor is no longer running, so a later start runs again |

## Left out

- Web Audio synthesis (oscillators, filters, gains, noise buffers, `Math.random`): each generator is an event tag with its time and parameters. `Math.pow(2, …)` and Hz values are foreign floating point, so pitches are semitone offsets from A4 (`Offset(k)`, or `NotANumber` where the source gives NaN).
- Timers: the `setTimeout` callbacks (`onBeat`, `onSection`, the `isPlaying` reset at the end of the track) are concurrency. The signals come back as a list of cues, and the reset is not modelled.
- `setInterval` and the periodic checks `start` schedules: only the immediate pass is modelled. `checkAllBookmarks` is not awaited, so passes could interleave; this is not modelled.
- I/O becomes parameters: the network fetch for each bookmark is a `Fetch` value; `localStorage` is the `stored` field; `new Date().toISOString()` is the string `now`; the context's `currentTime` is `now`.
- Dates: `new Date(...)`, `getHours()` and time zones are taken as the given integers `epochMs` and `hour`. The branch for a commit with no date is not modelled.
- The optional `onNewCommit` callback: the notifications are returned as a list instead.
- NaN input samples, the float `sampleRate` (a `nat` here) and `ArrayBuffer` size limits; the `Blob` wrapping; `renderToWav`, `downloadBlob` and `exportTrack`.
- `Math.floor(totalCommits * 0.1)` and `* 0.3`: integer division, not the float product.
- The density `windowSize / hours` in `findIntenseCommitPeriod` is a real division on exact reals (`SongStructure.DensityOrder` shows it orders windows by span), not a float.
- MusicTheory.GetChordProgression: for "constructor" or "__proto__" the source returns the inherited member itself (the `Object` function or `Object.prototype`); the model returns `None` and does not model that object. Both generators throw on the scale before they use it.
- Schedule.TimeOnlyGenerator: an egg tag whose sound is "chord" makes the source call `playChord(time)`, which throws on its undefined `notes` in the middle of scheduling; the model schedules nothing for that tag and does not model the throw. `detectEasterEggs` only produces the six table sounds, which all resolve (`Schedule.TagSoundsResolve`), so no tag the program builds reaches it.
- JsText.Lower: only ASCII capitals are folded; every other character is left as it is. JavaScript's `toLowerCase` is Unicode-aware. It turns U+212A (KELVIN SIGN) into 'k', so "BREA\u212AING change" gets the `breaking` easter-egg tag and counts as a bridge candidate in the source but not in the model. The same holds for the other keywords with a "k" ("break", "hack" of `wip`, "fuck" of `profanity`). It also turns U+0130 into two code units, so the source's lower-cased string can be longer. Commit patterns ("merge"), genre names and the `/…/i` tests are affected only through such characters; the `/i` tests themselves fold only ASCII, as modelled.
- A `bpm` of 0, where `60 / bpm` is Infinity in JavaScript, is excluded by `bpm != 0.0`.
- HomePage.ParsesAfterPrefixes: the concrete inputs "github.com/o/r" and "https://www.github.com/o/r" are covered only as instances of this general lemma, not as separate examples.
- The `handleSubmit` error message and `setError`, and the rest of `HomePage.jsx`, are UI state.
- `github.js` and `llm.js`, where the commits come from, are not part of this model.
