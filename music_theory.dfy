/**
  Notes, chords and melodies of the ear-training game (music/app.swift).

  Only integer pitch arithmetic is modelled: a note's position in the
  chromatic scale, its semitone offset from the reference pitch A4, the
  notes of a chord and the total length of a melody in beats.
*/
module MusicTheory {

  /** The twelve pitch classes, declared in chromatic order starting at C. */
  datatype Note = C | CSharp | D | DSharp | E | F | FSharp | G | GSharp | A | ASharp | B

  /** Every note, in declaration order (Swift's `Note.allCases`). */
  function AllNotes(): (notes: seq<Note>)
    ensures |notes| == 12
    ensures notes[9] == A
  {
    [C, CSharp, D, DSharp, E, F, FSharp, G, GSharp, A, ASharp, B]
  }

  /** The position of a note in `AllNotes()` (`allCases.firstIndex(of:)`, which always succeeds). */
  function Index(n: Note): (i: nat)
    ensures i < 12
    ensures AllNotes()[i] == n
  {
    match n
    case C => 0
    case CSharp => 1
    case D => 2
    case DSharp => 3
    case E => 4
    case F => 5
    case FSharp => 6
    case G => 7
    case GSharp => 8
    case A => 9
    case ASharp => 10
    case B => 11
  }

  /** The note at a position of the chromatic scale (`Note.allCases[i]`). */
  function NoteAt(i: nat): (n: Note)
    requires i < 12
    ensures Index(n) == i
  {
    AllNotes()[i]
  }

  /** The twelve cases are pairwise distinct and in the declared order. */
  lemma AllNotesDistinct()
    ensures forall i, j :: 0 <= i < 12 && 0 <= j < 12 && AllNotes()[i] == AllNotes()[j] ==> i == j
  {
    forall i, j | 0 <= i < 12 && 0 <= j < 12 && AllNotes()[i] == AllNotes()[j]
      ensures i == j
    {
      assert Index(NoteAt(i)) == i && Index(NoteAt(j)) == j;
    }
  }

  /** The raw value of a note: its display label. */
  function NoteName(n: Note): (s: string)
    ensures 1 <= |s| <= 2
    ensures ' ' !in s
  {
    match n
    case C => "C"
    case CSharp => "C#"
    case D => "D"
    case DSharp => "D#"
    case E => "E"
    case F => "F"
    case FSharp => "F#"
    case G => "G"
    case GSharp => "G#"
    case A => "A"
    case ASharp => "A#"
    case B => "B"
  }

  lemma NoteNameInjective(m: Note, n: Note)
    requires NoteName(m) == NoteName(n)
    ensures m == n
  {
  }

  /**
    The signed number of semitones from A4 to the given note in the given
    octave: `index - 9` within octave 4, shifted by 12 per octave. The
    frequency is 440 Hz times 2 to the power of this offset over 12.
  */
  function SemitonesFromA4(n: Note, octave: int): int
  {
    Index(n) - 9 + 12 * (octave - 4)
  }

  /** Within octave 4 the offset lies in -9..2 and is zero exactly for A (440 Hz). */
  lemma SemitonesInOctaveFour(n: Note)
    ensures -9 <= SemitonesFromA4(n, 4) <= 2
    ensures SemitonesFromA4(n, 4) == 0 <==> n == A
  {
  }

  /** One octave up is twelve semitones up (the frequency doubles). */
  lemma OctaveIsTwelveSemitones(n: Note, octave: int)
    ensures SemitonesFromA4(n, octave + 1) == SemitonesFromA4(n, octave) + 12
  {
  }

  /** Distinct (note, octave) pairs have distinct pitches. */
  lemma SemitonesInjective(m: Note, mo: int, n: Note, no: int)
    requires SemitonesFromA4(m, mo) == SemitonesFromA4(n, no)
    ensures m == n && mo == no
  {
    var d := mo - no;
    assert Index(n) - Index(m) == 12 * d;
    assert -12 < 12 * d < 12;
    assert Index(m) == Index(n);
    assert AllNotes()[Index(m)] == m && AllNotes()[Index(n)] == n;
  }

  /** The chord qualities of the quiz. */
  datatype ChordType = Major | Minor | Diminished | Augmented | Major7 | Minor7 | Dominant7

  /** The raw value of a chord type: its display label. */
  function TypeName(t: ChordType): string
  {
    match t
    case Major => "Major"
    case Minor => "Minor"
    case Diminished => "Diminished"
    case Augmented => "Augmented"
    case Major7 => "Major 7th"
    case Minor7 => "Minor 7th"
    case Dominant7 => "Dominant 7th"
  }

  lemma TypeNameInjective(s: ChordType, t: ChordType)
    requires TypeName(s) == TypeName(t)
    ensures s == t
  {
  }

  predicate IsSeventh(t: ChordType)
  {
    t == Major7 || t == Minor7 || t == Dominant7
  }

  /**
    The semitone intervals above the root. Each list starts at 0 (the root
    itself), rises strictly and stays within one octave; triads have three
    intervals and seventh chords four.
  */
  function Intervals(t: ChordType): (r: seq<int>)
    ensures |r| == (if IsSeventh(t) then 4 else 3)
    ensures r[0] == 0
    ensures forall i, j :: 0 <= i < j < |r| ==> r[i] < r[j]
    ensures forall i :: 0 <= i < |r| ==> 0 <= r[i] < 12
  {
    match t
    case Major => [0, 4, 7]
    case Minor => [0, 3, 7]
    case Diminished => [0, 3, 6]
    case Augmented => [0, 4, 8]
    case Major7 => [0, 4, 7, 11]
    case Minor7 => [0, 3, 7, 10]
    case Dominant7 => [0, 4, 7, 10]
  }

  datatype Chord = Chord(root: Note, chordType: ChordType, octave: int)

  /**
    The notes of a chord: each interval added to the root's index, wrapped
    into the octave. The octave field plays no part.
  */
  function ChordNotes(c: Chord): (notes: seq<Note>)
    ensures |notes| == |Intervals(c.chordType)|
    ensures forall i :: 0 <= i < |notes| ==>
      Index(notes[i]) == (Index(c.root) + Intervals(c.chordType)[i]) % 12
    ensures notes[0] == c.root
  {
    var iv := Intervals(c.chordType);
    seq(|iv|, i requires 0 <= i < |iv| => NoteAt((Index(c.root) + iv[i]) % 12))
  }

  /** The notes of a chord are pairwise distinct. */
  lemma ChordNotesDistinct(c: Chord)
    ensures forall i, j :: 0 <= i < j < |ChordNotes(c)| ==> ChordNotes(c)[i] != ChordNotes(c)[j]
  {
    var iv, r := Intervals(c.chordType), Index(c.root);
    forall i, j | 0 <= i < j < |ChordNotes(c)|
      ensures ChordNotes(c)[i] != ChordNotes(c)[j]
    {
      WrapWithinTwoOctaves(r + iv[i]);
      WrapWithinTwoOctaves(r + iv[j]);
      assert Index(ChordNotes(c)[i]) != Index(ChordNotes(c)[j]);
    }
  }

  /** Reducing a value below 24 modulo 12 subtracts at most one octave. */
  lemma WrapWithinTwoOctaves(x: int)
    requires 0 <= x < 24
    ensures x % 12 == if x < 12 then x else x - 12
  {
  }

  /** The label shown for a chord: the root's name, a space, the type's name. */
  function DisplayName(c: Chord): string
  {
    NoteName(c.root) + " " + TypeName(c.chordType)
  }

  /** The position of the first space in a string, or its length when it has none. */
  function FirstSpace(s: string): (k: nat)
    ensures k <= |s|
  {
    if s == [] || s[0] == ' ' then 0 else 1 + FirstSpace(s[1..])
  }

  lemma {:induction false} FirstSpaceAfter(a: string, b: string)
    requires ' ' !in a
    ensures FirstSpace(a + " " + b) == |a|
  {
    if a != [] {
      assert (a + " " + b)[1..] == a[1..] + " " + b;
      FirstSpaceAfter(a[1..], b);
    }
  }

  /** Two strings joined at a space split back uniquely when the left part has no space. */
  lemma SplitAtFirstSpace(a: string, b: string, c: string, d: string)
    requires ' ' !in a && ' ' !in c
    requires a + " " + b == c + " " + d
    ensures a == c && b == d
  {
    var s := a + " " + b;
    FirstSpaceAfter(a, b);
    FirstSpaceAfter(c, d);
    assert a == s[..|a|] == c;
    assert b == s[|a| + 1..] == d;
  }

  /** The display name ignores the octave and determines root and type. */
  lemma DisplayNameInjective(x: Chord, y: Chord)
    ensures DisplayName(x) == DisplayName(y) <==> x.root == y.root && x.chordType == y.chordType
  {
    if DisplayName(x) == DisplayName(y) {
      SplitAtFirstSpace(NoteName(x.root), TypeName(x.chordType), NoteName(y.root), TypeName(y.chordType));
      NoteNameInjective(x.root, y.root);
      TypeNameInjective(x.chordType, y.chordType);
    }
  }

  /** One melody entry: a note, its octave and its length in beats. */
  datatype MelodyNote = MelodyNote(note: Note, octave: int, duration: real)

  /** A melody: its entries in order and a tempo in beats per minute. */
  datatype Melody = Melody(notes: seq<MelodyNote>, tempo: real)

  /** The sum of the entries' beat lengths, folded from the left from 0. */
  function BeatSum(notes: seq<MelodyNote>): real
  {
    if notes == [] then 0.0 else BeatSum(notes[..|notes| - 1]) + notes[|notes| - 1].duration
  }

  /** `Melody.totalDuration`: the plain sum of the beat lengths; the tempo is not applied. */
  function TotalDuration(m: Melody): real
  {
    BeatSum(m.notes)
  }

  /** The total of a concatenation is the sum of the totals. */
  lemma {:induction false} BeatSumAppend(xs: seq<MelodyNote>, ys: seq<MelodyNote>)
    ensures BeatSum(xs + ys) == BeatSum(xs) + BeatSum(ys)
    decreases |ys|
  {
    if ys == [] {
      assert xs + ys == xs;
    } else {
      var zs := xs + ys;
      assert zs[..|zs| - 1] == xs + ys[..|ys| - 1];
      BeatSumAppend(xs, ys[..|ys| - 1]);
    }
  }

  /** A melody whose entries all last `d` beats lasts `|notes| * d` beats, whatever its tempo. */
  lemma {:induction false} UniformTotalDuration(m: Melody, d: real)
    requires forall i :: 0 <= i < |m.notes| ==> m.notes[i].duration == d
    ensures TotalDuration(m) == |m.notes| as real * d
    decreases |m.notes|
  {
    if m.notes != [] {
      var k := |m.notes| - 1;
      UniformTotalDuration(Melody(m.notes[..k], m.tempo), d);
    }
  }

  /** With no negative entry the total is never negative. */
  lemma {:induction false} TotalDurationNonNegative(m: Melody)
    requires forall i :: 0 <= i < |m.notes| ==> m.notes[i].duration >= 0.0
    ensures TotalDuration(m) >= 0.0
    decreases |m.notes|
  {
    if m.notes != [] {
      TotalDurationNonNegative(Melody(m.notes[..|m.notes| - 1], m.tempo));
    }
  }
}
