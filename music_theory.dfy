/**
 * Static musical material per genre: chord progressions, bass lines and
 * melodic scales, plus the note-name reading of `noteToFrequency`. A note is
 * modelled by its semitone offset from A4 in 12-tone equal temperament; the
 * frequency is 440 * 2^(offset/12) Hz, which is left outside the model.
 */
module MusicTheory {
  import opened Wrappers
  import opened JsText

  datatype Genre = Synthwave | Industrial | Ambient | Chiptune | Experimental

  /** The key under which a genre is stored in the tables. */
  function KeyOf(g: Genre): string {
    match g
    case Synthwave => "synthwave"
    case Industrial => "industrial"
    case Ambient => "ambient"
    case Chiptune => "chiptune"
    case Experimental => "experimental"
  }

  /** Table lookup by exact key. */
  function GenreForKey(key: string): (r: Option<Genre>)
    ensures r.Some? ==> KeyOf(r.value) == key
    ensures r.None? ==> forall g: Genre :: KeyOf(g) != key
  {
    if key == "synthwave" then Some(Synthwave)
    else if key == "industrial" then Some(Industrial)
    else if key == "ambient" then Some(Ambient)
    else if key == "chiptune" then Some(Chiptune)
    else if key == "experimental" then Some(Experimental)
    else None
  }

  /** `genre?.toLowerCase() || 'experimental'`: the key looked up in the tables; `None` is a null or undefined genre. */
  function GenreKey(genre: Option<string>): string {
    if genre.None? || genre.value == "" then "experimental" else Lower(genre.value)
  }

  /**
   * The lower-case keys under which every object literal inherits a member
   * from `Object.prototype` (`constructor` and `__proto__`; the other
   * inherited names all hold a capital letter, which `toLowerCase` removes).
   */
  predicate InheritedKey(key: string) {
    key == "constructor" || key == "__proto__"
  }

  /** What `TABLE[genreKey] || TABLE.experimental` yields: a table entry, or a truthy member inherited from `Object.prototype`. */
  datatype TableValue = Entry(genre: Genre) | Inherited

  /** The lookup shared by `getChordProgression` and `getMelodicScale`, with its fallback. */
  function LookupGenre(genre: Option<string>): TableValue {
    var key := GenreKey(genre);
    if InheritedKey(key) then Inherited
    else match GenreForKey(key)
      case Some(g) => Entry(g)
      case None => Entry(Experimental)
  }

  /**
   * A genre name matches its table entry case-insensitively; "constructor"
   * and "__proto__", in any case, find an inherited member; anything else, or
   * nothing, means experimental.
   */
  lemma LookupGenreCases(genre: Option<string>)
    ensures genre.None? ==> LookupGenre(genre) == Entry(Experimental)
    ensures genre.Some? ==> forall g: Genre :: Lower(genre.value) == KeyOf(g) ==> LookupGenre(genre) == Entry(g)
    ensures LookupGenre(genre).Inherited? <==> genre.Some? && InheritedKey(Lower(genre.value))
    ensures genre.Some? && !InheritedKey(Lower(genre.value)) && (forall g: Genre :: Lower(genre.value) != KeyOf(g))
            ==> LookupGenre(genre) == Entry(Experimental)
  {
    if genre.Some? && genre.value == "" {
      assert forall g: Genre :: Lower(genre.value) != KeyOf(g) by {
        forall g: Genre ensures Lower(genre.value) != KeyOf(g) {
          assert |KeyOf(g)| > 0;
        }
      }
      assert !InheritedKey(Lower(genre.value));
    }
  }

  /** Capitals do not protect a name from the inherited members. */
  lemma InheritedSpellings()
    ensures LookupGenre(Some("Constructor")).Inherited?
    ensures LookupGenre(Some("__PROTO__")).Inherited?
    ensures LookupGenre(Some("toString")) == Entry(Experimental)
  {
    LookupGenreCases(Some("Constructor"));
    LookupGenreCases(Some("__PROTO__"));
    var t := Lower("toString");
    assert t[0] == 't' && |t| == 8;
    assert forall g: Genre :: t != KeyOf(g) by {
      forall g: Genre ensures t != KeyOf(g) {
        assert |KeyOf(g)| != 8 || KeyOf(g)[0] == 'c';
      }
    }
    LookupGenreCases(Some("toString"));
  }

  // ---------------------------------------------------------------- notes

  /** A note as `noteToFrequency` sees it: an offset in semitones from A4, or NaN. */
  datatype Pitch = Offset(semitones: int) | NotANumber

  /**
   * The semitone table, keyed by letter and accidental. The spellings it does
   * not list (E#, B#, Cb, Fb) are absent.
   */
  function SemitoneOf(letter: char, accidental: Option<char>): Option<int> {
    match accidental
    case None =>
      if letter == 'C' then Some(-9) else if letter == 'D' then Some(-7) else if letter == 'E' then Some(-5)
      else if letter == 'F' then Some(-4) else if letter == 'G' then Some(-2) else if letter == 'A' then Some(0)
      else if letter == 'B' then Some(2) else None
    case Some(a) =>
      if a == '#' then
        if letter == 'C' then Some(-8) else if letter == 'D' then Some(-6) else if letter == 'F' then Some(-3)
        else if letter == 'G' then Some(-1) else if letter == 'A' then Some(1) else None
      else if a == 'b' then
        if letter == 'D' then Some(-8) else if letter == 'E' then Some(-6) else if letter == 'G' then Some(-3)
        else if letter == 'A' then Some(-1) else if letter == 'B' then Some(1) else None
      else None
  }

  predicate IsDigit(c: char) { '0' <= c <= '9' }

  predicate IsNoteLetter(c: char) { 'A' <= c <= 'G' }

  /** What `/([A-G][#b]?)(\d)/` captures: the note name, split into letter and accidental, and the octave digit. */
  datatype NoteMatch = NoteMatch(letter: char, accidental: Option<char>, octave: nat)

  /** The regex tried at position `p`: an accidental is taken only when a digit follows it. */
  function MatchAt(s: string, p: nat): Option<NoteMatch>
    requires p < |s|
  {
    if !IsNoteLetter(s[p]) then None
    else if p + 2 < |s| && (s[p + 1] == '#' || s[p + 1] == 'b') && IsDigit(s[p + 2]) then
      Some(NoteMatch(s[p], Some(s[p + 1]), s[p + 2] as int - '0' as int))
    else if p + 1 < |s| && IsDigit(s[p + 1]) then
      Some(NoteMatch(s[p], None, s[p + 1] as int - '0' as int))
    else None
  }

  /** The leftmost match at or after `p`. */
  function FirstNoteMatch(s: string, p: nat): Option<NoteMatch>
    decreases |s| - p
  {
    if p >= |s| then None
    else match MatchAt(s, p)
      case Some(m) => Some(m)
      case None => FirstNoteMatch(s, p + 1)
  }

  /**
   * `noteToFrequency` on the level of semitones: no match gives the 440 Hz
   * default, which is offset 0; a match whose name the table lacks gives NaN.
   */
  function NoteToPitch(note: string): Pitch {
    match FirstNoteMatch(note, 0)
    case None => Offset(0)
    case Some(m) =>
      match SemitoneOf(m.letter, m.accidental)
      case None => NotANumber
      case Some(k) => Offset(k + (m.octave - 4) * 12)
  }

  /** A note written as letter, optional accidental and octave digit. */
  function Spell(letter: char, accidental: Option<char>, d: char): string {
    match accidental
    case None => [letter, d]
    case Some(a) => [letter, a, d]
  }

  /** A listed name followed by an octave digit is read as its table entry plus twelve per octave above 4. */
  lemma NoteNameOctave(letter: char, accidental: Option<char>, d: char)
    requires SemitoneOf(letter, accidental).Some? && IsDigit(d)
    ensures NoteToPitch(Spell(letter, accidental, d))
            == Offset(SemitoneOf(letter, accidental).value + 12 * (d as int - '0' as int - 4))
  {
    var s := Spell(letter, accidental, d);
    assert MatchAt(s, 0) == Some(NoteMatch(letter, accidental, d as int - '0' as int));
  }

  /** A4 is concert pitch: offset 0, hence exactly 440 Hz. */
  lemma ConcertA()
    ensures NoteToPitch("A4") == Offset(0)
  {
    NoteNameOctave('A', None, '4');
  }

  /** Two names with the same table entry are the same pitch in every octave. */
  lemma SameEntrySamePitch(l1: char, a1: Option<char>, l2: char, a2: Option<char>, d: char)
    requires SemitoneOf(l1, a1).Some? && SemitoneOf(l1, a1) == SemitoneOf(l2, a2) && IsDigit(d)
    ensures NoteToPitch(Spell(l1, a1, d)) == NoteToPitch(Spell(l2, a2, d))
  {
    NoteNameOctave(l1, a1, d);
    NoteNameOctave(l2, a2, d);
  }

  /** Sharps and their enharmonic flats are the same pitch in every octave. */
  lemma Enharmonics(d: char)
    requires IsDigit(d)
    ensures NoteToPitch("C#" + [d]) == NoteToPitch("Db" + [d])
    ensures NoteToPitch("D#" + [d]) == NoteToPitch("Eb" + [d])
    ensures NoteToPitch("F#" + [d]) == NoteToPitch("Gb" + [d])
    ensures NoteToPitch("G#" + [d]) == NoteToPitch("Ab" + [d])
    ensures NoteToPitch("A#" + [d]) == NoteToPitch("Bb" + [d])
  {
    SameEntrySamePitch('C', Some('#'), 'D', Some('b'), d);
    assert Spell('C', Some('#'), d) == "C#" + [d] && Spell('D', Some('b'), d) == "Db" + [d];
    SameEntrySamePitch('D', Some('#'), 'E', Some('b'), d);
    assert Spell('D', Some('#'), d) == "D#" + [d] && Spell('E', Some('b'), d) == "Eb" + [d];
    SameEntrySamePitch('F', Some('#'), 'G', Some('b'), d);
    assert Spell('F', Some('#'), d) == "F#" + [d] && Spell('G', Some('b'), d) == "Gb" + [d];
    SameEntrySamePitch('G', Some('#'), 'A', Some('b'), d);
    assert Spell('G', Some('#'), d) == "G#" + [d] && Spell('A', Some('b'), d) == "Ab" + [d];
    SameEntrySamePitch('A', Some('#'), 'B', Some('b'), d);
    assert Spell('A', Some('#'), d) == "A#" + [d] && Spell('B', Some('b'), d) == "Bb" + [d];
  }

  /** One octave up is twelve semitones up. */
  lemma OctaveIsTwelve(letter: char, accidental: Option<char>, d: char, e: char)
    requires SemitoneOf(letter, accidental).Some? && IsDigit(d) && IsDigit(e) && e as int == d as int + 1
    ensures NoteToPitch(Spell(letter, accidental, e)).semitones
            == NoteToPitch(Spell(letter, accidental, d)).semitones + 12
  {
    NoteNameOctave(letter, accidental, d);
    NoteNameOctave(letter, accidental, e);
  }

  /** A string with no note in it falls back to 440 Hz, the frequency of A4. */
  lemma NoMatchIsA4(s: string)
    requires FirstNoteMatch(s, 0).None?
    ensures NoteToPitch(s) == NoteToPitch("A4")
  {
    ConcertA();
  }

  /** E#, B#, Cb and Fb match the pattern but have no table entry: NaN. */
  lemma UnlistedSpellings(d: char)
    requires IsDigit(d)
    ensures NoteToPitch("E#" + [d]) == NotANumber && NoteToPitch("B#" + [d]) == NotANumber
    ensures NoteToPitch("Cb" + [d]) == NotANumber && NoteToPitch("Fb" + [d]) == NotANumber
  {
    assert MatchAt("E#" + [d], 0) == Some(NoteMatch('E', Some('#'), d as int - '0' as int));
    assert MatchAt("B#" + [d], 0) == Some(NoteMatch('B', Some('#'), d as int - '0' as int));
    assert MatchAt("Cb" + [d], 0) == Some(NoteMatch('C', Some('b'), d as int - '0' as int));
    assert MatchAt("Fb" + [d], 0) == Some(NoteMatch('F', Some('b'), d as int - '0' as int));
  }

  // ---------------------------------------------------------------- chords

  /**
   * `Math.floor(beatIndex / beatsPerChord) % 4`, with JavaScript's remainder.
   * For a non-negative beat the index lies in [0, 3].
   */
  function ChordIndexForBeat(beatIndex: int, beatsPerChord: int): (r: int)
    requires beatsPerChord > 0
    ensures beatIndex >= 0 ==> 0 <= r <= 3
  {
    JsRem(beatIndex / beatsPerChord, 4)
  }

  lemma DivUnique(n: int, b: int, q: int, r: int)
    requires b > 0 && 0 <= r < b && n == q * b + r
    ensures n / b == q && n % b == r
  {
    var q' := n / b;
    assert (q - q') * b == q * b - q' * b;
    MulSmall(q - q', b);
  }

  lemma MulSmall(d: int, b: int)
    requires b > 0 && -b < d * b < b
    ensures d == 0
  {
    if d >= 1 {
      MulLeq(1, d, b);
    } else if d <= -1 {
      MulLeq(d, -1, b);
    }
  }

  lemma MulLeq(a: int, c: int, b: int)
    requires a <= c && b > 0
    ensures a * b <= c * b
  {
  }

  /** The chord cycle repeats every four chords: four blocks of `beatsPerChord` beats. */
  lemma ChordIndexPeriodic(i: int, b: int)
    requires i >= 0 && b > 0
    ensures ChordIndexForBeat(i + 4 * b, b) == ChordIndexForBeat(i, b)
  {
    var q, r := i / b, i % b;
    assert i + 4 * b == (q + 4) * b + r;
    DivUnique(i + 4 * b, b, q + 4, r);
    DivUnique(q + 4, 4, q / 4 + 1, q % 4);
  }

  /** Every beat of the block that starts at beat `m * b` uses chord `m mod 4`. */
  lemma ChordIndexBlock(m: nat, k: int, b: int)
    requires b > 0 && 0 <= k < b
    ensures ChordIndexForBeat(m * b + k, b) == m % 4
  {
    DivUnique(m * b + k, b, m, k);
  }

  /** With four beats per chord the index repeats every sixteen beats. */
  lemma ChordIndexSixteen(k: int)
    requires k >= 0
    ensures ChordIndexForBeat(k + 16, 4) == ChordIndexForBeat(k, 4)
  {
    ChordIndexPeriodic(k, 4);
  }

  datatype Progression = Progression(chords: seq<seq<string>>, bassNotes: seq<string>, name: string, color: string)

  /** The `CHORD_PROGRESSIONS` table. */
  function ProgressionOf(g: Genre): Progression {
    match g
    case Synthwave =>
      Progression([["D3", "F3", "A3"], ["A2", "C3", "E3"], ["F2", "A2", "C3"], ["C3", "E3", "G3"]],
                  ["D2", "A2", "F2", "C2"], "vi-iii-IV-I (Emotional)", "warm")
    case Industrial =>
      Progression([["E3", "G3", "B3"], ["C3", "E3", "G3"], ["G2", "B2", "D3"], ["D3", "F#3", "A3"]],
                  ["E2", "C2", "G2", "D2"], "i-VI-III-VII (Powerful)", "dark")
    case Ambient =>
      Progression([["A3", "C4", "E4"], ["F3", "A3", "C4"], ["C3", "E3", "G3"], ["G3", "B3", "D4"]],
                  ["A2", "F2", "C2", "G2"], "vi-IV-I-V (Dreamy)", "ethereal")
    case Chiptune =>
      Progression([["C4", "E4", "G4"], ["G3", "B3", "D4"], ["A3", "C4", "E4"], ["F3", "A3", "C4"]],
                  ["C2", "G2", "A2", "F2"], "I-V-vi-IV (Pop)", "bright")
    case Experimental =>
      Progression([["C3", "E3", "G3", "B3"], ["F3", "A3", "C4", "E4"], ["G3", "B3", "D4", "F#4"], ["A3", "C4", "E4", "G4"]],
                  ["C2", "F2", "G2", "A2"], "I-IV-V-vi (Jazz)", "complex")
  }

  /** `getChordProgression`; `None` is the inherited member it hands back for an inherited key, which has no `chords`. */
  function GetChordProgression(genre: Option<string>): (r: Option<Progression>)
    ensures r.None? <==> LookupGenre(genre).Inherited?
    ensures LookupGenre(genre).Entry? ==> r == Some(ProgressionOf(LookupGenre(genre).genre))
  {
    match LookupGenre(genre)
    case Entry(g) => Some(ProgressionOf(g))
    case Inherited => None
  }

  /** Four chords and four bass notes everywhere; triads, except the four-note chords of experimental. */
  lemma ProgressionShape(g: Genre)
    ensures |ProgressionOf(g).chords| == 4 && |ProgressionOf(g).bassNotes| == 4
    ensures forall c :: 0 <= c < 4 ==> |ProgressionOf(g).chords[c]| == if g == Experimental then 4 else 3
  {
  }

  /** The melodic scales of `getMelodicScale`. */
  function ScaleNotes(g: Genre): seq<string> {
    match g
    case Synthwave => ["C4", "D4", "E4", "G4", "A4", "C5", "D5", "E5"]
    case Industrial => ["E3", "G3", "A3", "B3", "D4", "E4", "G4", "A4"]
    case Ambient => ["A3", "B3", "C4", "E4", "F4", "A4", "B4", "C5"]
    case Chiptune => ["C4", "E4", "G4", "C5", "E5", "G5", "C6"]
    case Experimental => ["C4", "D4", "E4", "F#4", "G4", "A4", "B4", "C5"]
  }

  lemma ScaleLength(g: Genre)
    ensures |ScaleNotes(g)| == if g == Chiptune then 7 else 8
  {
  }

  /** The pitches of a genre's scale: one per scale note, in scale order. */
  function ScaleOf(g: Genre): (r: seq<Pitch>)
    ensures |r| == |ScaleNotes(g)|
    ensures forall i :: 0 <= i < |r| ==> r[i] == NoteToPitch(ScaleNotes(g)[i])
  {
    seq(|ScaleNotes(g)|, i requires 0 <= i < |ScaleNotes(g)| => NoteToPitch(ScaleNotes(g)[i]))
  }

  /**
   * `getMelodicScale`: the scale of the genre's entry, mapped note by note.
   * `None` is the TypeError of `scale.map` on an inherited member, which is
   * not an array.
   */
  function GetMelodicScale(genre: Option<string>): (r: Option<seq<Pitch>>)
    ensures r.None? <==> LookupGenre(genre).Inherited?
    ensures r.Some? ==> |r.value| == |ScaleNotes(LookupGenre(genre).genre)|
    ensures r.Some? ==> forall i :: 0 <= i < |r.value| ==> r.value[i] == NoteToPitch(ScaleNotes(LookupGenre(genre).genre)[i])
  {
    match LookupGenre(genre)
    case Entry(g) => Some(ScaleOf(g))
    case Inherited => None
  }

  /** A listed name followed by an octave digit. */
  predicate WellSpelled(note: string) {
    (|note| == 2 && IsDigit(note[1]) && SemitoneOf(note[0], None).Some?)
    || (|note| == 3 && IsDigit(note[2]) && SemitoneOf(note[0], Some(note[1])).Some?)
  }

  lemma WellSpelledIsNumber(note: string)
    requires WellSpelled(note)
    ensures NoteToPitch(note).Offset?
  {
    if |note| == 2 {
      assert note == Spell(note[0], None, note[1]);
      NoteNameOctave(note[0], None, note[1]);
    } else {
      assert note == Spell(note[0], Some(note[1]), note[2]);
      NoteNameOctave(note[0], Some(note[1]), note[2]);
    }
  }

  /** The tables never produce NaN: all their notes are well spelled. */
  predicate AllWellSpelled(notes: seq<string>) {
    forall k :: 0 <= k < |notes| ==> WellSpelled(notes[k])
  }

  lemma AllAreNumbers(notes: seq<string>)
    requires AllWellSpelled(notes)
    ensures forall k :: 0 <= k < |notes| ==> NoteToPitch(notes[k]).Offset?
  {
    forall k | 0 <= k < |notes| ensures NoteToPitch(notes[k]).Offset? {
      WellSpelledIsNumber(notes[k]);
    }
  }

  lemma ChordsWellSpelled(g: Genre)
    ensures forall c :: 0 <= c < |ProgressionOf(g).chords| ==> AllWellSpelled(ProgressionOf(g).chords[c])
  {
  }

  lemma BassWellSpelled(g: Genre)
    ensures AllWellSpelled(ProgressionOf(g).bassNotes)
  {
  }

  lemma ScaleWellSpelled(g: Genre)
    ensures AllWellSpelled(ScaleNotes(g))
  {
  }

  /** The tables never produce NaN: all their notes are well spelled. */
  lemma TablesWellSpelled(g: Genre)
    ensures forall c, k :: 0 <= c < |ProgressionOf(g).chords| && 0 <= k < |ProgressionOf(g).chords[c]|
              ==> NoteToPitch(ProgressionOf(g).chords[c][k]).Offset?
    ensures forall k :: 0 <= k < |ProgressionOf(g).bassNotes| ==> NoteToPitch(ProgressionOf(g).bassNotes[k]).Offset?
    ensures forall k :: 0 <= k < |ScaleNotes(g)| ==> NoteToPitch(ScaleNotes(g)[k]).Offset?
  {
    var p := ProgressionOf(g);
    ChordsWellSpelled(g);
    forall c, k | 0 <= c < |p.chords| && 0 <= k < |p.chords[c]|
      ensures NoteToPitch(p.chords[c][k]).Offset?
    {
      AllAreNumbers(p.chords[c]);
    }
    BassWellSpelled(g);
    AllAreNumbers(p.bassNotes);
    ScaleWellSpelled(g);
    AllAreNumbers(ScaleNotes(g));
  }
}
