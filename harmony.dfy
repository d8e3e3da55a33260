/**
 * The part of the note/chord library that the harmonic core relies on,
 * reduced to integers: a note is a MIDI-style pitch (a larger number sounds
 * higher), an interval is a number of semitones above a note, and a chord is
 * a root pitch with a quality whose tones lie at fixed offsets above the root.
 */
module Harmony {
  import opened Wrappers

  /** A concrete pitch in semitones; C4 is 60. */
  type Pitch = int

  /** A note name without octave, as an offset from C: 0 is C, 11 is B. */
  type PitchClass = n: int | 0 <= n < 12

  /** Octave 4, the octave the library gives a note name written without one. */
  const DefaultOctaveBase: Pitch := 60

  /** One octave, the `P8` interval. */
  const Octave: int := 12

  /** The intervals the vocabulary uses, named as the library spells them. */
  datatype Interval = P1 | M2 | m3 | M3 | P4 | P5 | m6 | M6 | m7 | M7 {

    /** How far above a note this interval lands, always less than an octave. */
    function Semitones(): (n: nat)
      ensures n < Octave
    {
      match this
      case P1 => 0
      case M2 => 2
      case m3 => 3
      case M3 => 4
      case P4 => 5
      case P5 => 7
      case m6 => 8
      case M6 => 9
      case m7 => 10
      case M7 => 11
    }
  }

  /** No two intervals of the vocabulary span the same number of semitones. */
  lemma SemitonesInjective(i: Interval, j: Interval)
    requires i.Semitones() == j.Semitones()
    ensures i == j
  {
  }

  /** Chord qualities, in the library's symbols: M, m, maj7, m7, dom7, dim, m7b5. */
  datatype Quality =
    | MajorTriad
    | MinorTriad
    | MajorSeventh
    | MinorSeventh
    | DominantSeventh
    | Diminished
    | HalfDiminished
  {

    /** The chord tones as semitones above the root, bottom to top. */
    function Offsets(): (s: seq<int>)
      ensures 3 <= |s| <= 4 && s[0] == 0
      ensures forall k :: 0 < k < |s| ==> s[k - 1] < s[k] < Octave
    {
      match this
      case MajorTriad => [0, 4, 7]
      case MinorTriad => [0, 3, 7]
      case MajorSeventh => [0, 4, 7, 11]
      case MinorSeventh => [0, 3, 7, 10]
      case DominantSeventh => [0, 4, 7, 10]
      case Diminished => [0, 3, 6]
      case HalfDiminished => [0, 3, 6, 10]
    }
  }

  /** An entry of the harmonic vocabulary: where the root lies and what chord to build on it. */
  datatype ChordInterval = ChordInterval(interval: Interval, chordQuality: Quality)

  /** A chord symbol such as "Gdom7": a root name without octave and a quality. */
  datatype ChordSymbol = ChordSymbol(root: PitchClass, quality: Quality)

  /** A chord placed at a concrete pitch. */
  datatype Chord = Chord(root: Pitch, quality: Quality) {

    /** The chord's notes, bottom to top, starting from the root. */
    function Notes(): (ns: seq<Pitch>)
      ensures |ns| == |quality.Offsets()| && ns[0] == root
      ensures forall k :: 0 <= k < |ns| ==> ns[k] == root + quality.Offsets()[k]
    {
      Shift(quality.Offsets(), root)
    }

    /** The chord moved by `k` semitones (the library's `chord.interval(...)`). */
    function Transposed(k: int): (c: Chord)
      ensures c.quality == quality
      ensures c.Notes() == Shift(Notes(), k)
    {
      Chord(root + k, quality)
    }
  }

  /** Every pitch of `s` moved by `k` semitones, in the same order. */
  function Shift(s: seq<Pitch>, k: int): (r: seq<Pitch>)
    ensures |r| == |s|
    ensures forall j :: 0 <= j < |s| ==> r[j] == s[j] + k
  {
    if s == [] then [] else [s[0] + k] + Shift(s[1..], k)
  }

  /** A shifted sequence differs from the original whenever it is non-empty and the shift is not zero. */
  lemma ShiftMoves(s: seq<Pitch>, k: int)
    requires s != [] && k != 0
    ensures Shift(s, k) != s
  {
    assert Shift(s, k)[0] == s[0] + k;
  }

  /** The chord the library builds from a symbol: the root sits in octave 4. */
  function ChordOfSymbol(s: ChordSymbol): (c: Chord)
    ensures DefaultOctaveBase <= c.root < DefaultOctaveBase + Octave
    ensures c.root % Octave == s.root && c.quality == s.quality
  {
    Chord(DefaultOctaveBase + s.root, s.quality)
  }
}
