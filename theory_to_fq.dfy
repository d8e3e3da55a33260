/**
 * The harmonic vocabulary and chord resolution of the ear trainer: the table
 * from roman-numeral tokens to (interval, quality) pairs, the twelve tonic
 * names, the resolution of a token against a tonic, and the octave placement
 * of a chord relative to the tonic chord.
 */
module TheoryToFq {
  import opened Wrappers
  import opened Harmony
  import opened Numerals

  /** Every token an exercise may ask for, with its interval above the tonic and its quality. */
  const RelativeChordMap: map<string, ChordInterval> := map[
    "I" := ChordInterval(P1, MajorTriad),
    "Imaj7" := ChordInterval(P1, MajorSeventh),
    "i" := ChordInterval(P1, MinorTriad),
    "im7" := ChordInterval(P1, MinorSeventh),
    "ii" := ChordInterval(M2, MinorTriad),
    "iim7" := ChordInterval(M2, MinorSeventh),
    "ii°" := ChordInterval(M2, Diminished),
    "iiø7" := ChordInterval(M2, HalfDiminished),
    "iii" := ChordInterval(M3, MinorTriad),
    "iiim7" := ChordInterval(M3, MinorSeventh),
    "III" := ChordInterval(M3, MajorTriad),
    "bIII" := ChordInterval(m3, MajorTriad),
    "bIIImaj7" := ChordInterval(m3, MajorSeventh),
    "biii" := ChordInterval(m3, MinorTriad),
    "IVmaj7" := ChordInterval(P4, MajorSeventh),
    "iv" := ChordInterval(P4, MinorTriad),
    "ivm7" := ChordInterval(P4, MinorSeventh),
    "V" := ChordInterval(P5, MajorTriad),
    "V7" := ChordInterval(P5, DominantSeventh),
    "v" := ChordInterval(P5, MinorTriad),
    "vm7" := ChordInterval(P5, MinorSeventh),
    "vi" := ChordInterval(M6, MinorTriad),
    "vim7" := ChordInterval(M6, MinorSeventh),
    "VI" := ChordInterval(M6, MajorTriad),
    "bVI" := ChordInterval(m6, MajorTriad),
    "bVImaj7" := ChordInterval(m6, MajorSeventh),
    "bvi" := ChordInterval(m6, MinorTriad),
    "vii°" := ChordInterval(M7, Diminished),
    "viiø7" := ChordInterval(M7, HalfDiminished),
    "bVII" := ChordInterval(m7, MajorTriad),
    "bVII7" := ChordInterval(m7, DominantSeventh)
  ]

  /** `n` spells `t`, and by the rules of roman-numeral analysis means `e`. */
  ghost predicate SpelledBy(t: string, n: Numeral, e: ChordInterval) {
    n.WellFormed() && Spell(n) == t && Meaning(n) == Some(e)
  }

  /*
   * One lemma per entry of the table: the numeral that spells the key and
   * means the entry. In the lemma names "o" stands for the "°" suffix and
   * "h" for "ø".
   */

  lemma Spells_I()
    ensures "I" in RelativeChordMap && SpelledBy("I", Numeral(false, "I", ""), RelativeChordMap["I"])
  {
  }
  lemma Spells_Imaj7()
    ensures "Imaj7" in RelativeChordMap && SpelledBy("Imaj7", Numeral(false, "I", "maj7"), RelativeChordMap["Imaj7"])
  {
  }
  lemma Spells_i()
    ensures "i" in RelativeChordMap && SpelledBy("i", Numeral(false, "i", ""), RelativeChordMap["i"])
  {
  }
  lemma Spells_im7()
    ensures "im7" in RelativeChordMap && SpelledBy("im7", Numeral(false, "i", "m7"), RelativeChordMap["im7"])
  {
  }

  lemma Spells_ii()
    ensures "ii" in RelativeChordMap && SpelledBy("ii", Numeral(false, "ii", ""), RelativeChordMap["ii"])
  {
  }
  lemma Spells_iim7()
    ensures "iim7" in RelativeChordMap && SpelledBy("iim7", Numeral(false, "ii", "m7"), RelativeChordMap["iim7"])
  {
  }
  lemma Spells_iio()
    ensures "ii°" in RelativeChordMap && SpelledBy("ii°", Numeral(false, "ii", "°"), RelativeChordMap["ii°"])
  {
  }
  lemma Spells_iih7()
    ensures "iiø7" in RelativeChordMap && SpelledBy("iiø7", Numeral(false, "ii", "ø7"), RelativeChordMap["iiø7"])
  {
  }

  lemma Spells_iii()
    ensures "iii" in RelativeChordMap && SpelledBy("iii", Numeral(false, "iii", ""), RelativeChordMap["iii"])
  {
  }
  lemma Spells_iiim7()
    ensures "iiim7" in RelativeChordMap && SpelledBy("iiim7", Numeral(false, "iii", "m7"), RelativeChordMap["iiim7"])
  {
  }
  lemma Spells_III()
    ensures "III" in RelativeChordMap && SpelledBy("III", Numeral(false, "III", ""), RelativeChordMap["III"])
  {
  }
  lemma Spells_bIII()
    ensures "bIII" in RelativeChordMap && SpelledBy("bIII", Numeral(true, "III", ""), RelativeChordMap["bIII"])
  {
  }
  lemma Spells_bIIImaj7()
    ensures "bIIImaj7" in RelativeChordMap && SpelledBy("bIIImaj7", Numeral(true, "III", "maj7"), RelativeChordMap["bIIImaj7"])
  {
  }
  lemma Spells_biii()
    ensures "biii" in RelativeChordMap && SpelledBy("biii", Numeral(true, "iii", ""), RelativeChordMap["biii"])
  {
  }

  lemma Spells_IVmaj7()
    ensures "IVmaj7" in RelativeChordMap && SpelledBy("IVmaj7", Numeral(false, "IV", "maj7"), RelativeChordMap["IVmaj7"])
  {
  }
  lemma Spells_iv()
    ensures "iv" in RelativeChordMap && SpelledBy("iv", Numeral(false, "iv", ""), RelativeChordMap["iv"])
  {
  }
  lemma Spells_ivm7()
    ensures "ivm7" in RelativeChordMap && SpelledBy("ivm7", Numeral(false, "iv", "m7"), RelativeChordMap["ivm7"])
  {
  }

  lemma Spells_V()
    ensures "V" in RelativeChordMap && SpelledBy("V", Numeral(false, "V", ""), RelativeChordMap["V"])
  {
  }
  lemma Spells_V7()
    ensures "V7" in RelativeChordMap && SpelledBy("V7", Numeral(false, "V", "7"), RelativeChordMap["V7"])
  {
  }
  lemma Spells_v()
    ensures "v" in RelativeChordMap && SpelledBy("v", Numeral(false, "v", ""), RelativeChordMap["v"])
  {
  }
  lemma Spells_vm7()
    ensures "vm7" in RelativeChordMap && SpelledBy("vm7", Numeral(false, "v", "m7"), RelativeChordMap["vm7"])
  {
  }

  lemma Spells_vi()
    ensures "vi" in RelativeChordMap && SpelledBy("vi", Numeral(false, "vi", ""), RelativeChordMap["vi"])
  {
  }
  lemma Spells_vim7()
    ensures "vim7" in RelativeChordMap && SpelledBy("vim7", Numeral(false, "vi", "m7"), RelativeChordMap["vim7"])
  {
  }
  lemma Spells_VI()
    ensures "VI" in RelativeChordMap && SpelledBy("VI", Numeral(false, "VI", ""), RelativeChordMap["VI"])
  {
  }
  lemma Spells_bVI()
    ensures "bVI" in RelativeChordMap && SpelledBy("bVI", Numeral(true, "VI", ""), RelativeChordMap["bVI"])
  {
  }
  lemma Spells_bVImaj7()
    ensures "bVImaj7" in RelativeChordMap && SpelledBy("bVImaj7", Numeral(true, "VI", "maj7"), RelativeChordMap["bVImaj7"])
  {
  }
  lemma Spells_bvi()
    ensures "bvi" in RelativeChordMap && SpelledBy("bvi", Numeral(true, "vi", ""), RelativeChordMap["bvi"])
  {
  }

  lemma Spells_viio()
    ensures "vii°" in RelativeChordMap && SpelledBy("vii°", Numeral(false, "vii", "°"), RelativeChordMap["vii°"])
  {
  }
  lemma Spells_viih7()
    ensures "viiø7" in RelativeChordMap && SpelledBy("viiø7", Numeral(false, "vii", "ø7"), RelativeChordMap["viiø7"])
  {
  }
  lemma Spells_bVII()
    ensures "bVII" in RelativeChordMap && SpelledBy("bVII", Numeral(true, "VII", ""), RelativeChordMap["bVII"])
  {
  }
  lemma Spells_bVII7()
    ensures "bVII7" in RelativeChordMap && SpelledBy("bVII7", Numeral(true, "VII", "7"), RelativeChordMap["bVII7"])
  {
  }

  /*
   * The keys grouped by the scale degree of the root, so that each proof
   * about the whole table stays small.
   */

  /** The keys of the chords built on the tonic. */
  const TonicKeys: set<string> := {"I", "Imaj7", "i", "im7"}

  /** The keys of the chords built on the supertonic. */
  const SupertonicKeys: set<string> := {"ii", "iim7", "ii°", "iiø7"}

  /** The keys of the chords built on the mediant and the flat mediant. */
  const MediantKeys: set<string> := {"iii", "iiim7", "III", "bIII", "bIIImaj7", "biii"}

  /** The keys of the chords built on the subdominant. */
  const SubdominantKeys: set<string> := {"IVmaj7", "iv", "ivm7"}

  /** The keys of the chords built on the dominant. */
  const DominantKeys: set<string> := {"V", "V7", "v", "vm7"}

  /** The keys of the chords built on the submediant and the flat submediant. */
  const SubmediantKeys: set<string> := {"vi", "vim7", "VI", "bVI", "bVImaj7", "bvi"}

  /** The keys of the chords built on the leading tone and the subtonic. */
  const SeventhDegreeKeys: set<string> := {"vii°", "viiø7", "bVII", "bVII7"}

  lemma TonicSpelled()
    ensures forall t | t in TonicKeys :: exists n :: SpelledBy(t, n, RelativeChordMap[t])
  {
    forall t | t in TonicKeys
      ensures exists n :: SpelledBy(t, n, RelativeChordMap[t])
    {
      if t == "I" {
        Spells_I();
      } else if t == "Imaj7" {
        Spells_Imaj7();
      } else if t == "i" {
        Spells_i();
      } else {
        Spells_im7();
      }
    }
  }

  lemma SupertonicSpelled()
    ensures forall t | t in SupertonicKeys :: exists n :: SpelledBy(t, n, RelativeChordMap[t])
  {
    forall t | t in SupertonicKeys
      ensures exists n :: SpelledBy(t, n, RelativeChordMap[t])
    {
      if t == "ii" {
        Spells_ii();
      } else if t == "iim7" {
        Spells_iim7();
      } else if t == "ii°" {
        Spells_iio();
      } else {
        Spells_iih7();
      }
    }
  }

  lemma MediantSpelled()
    ensures forall t | t in MediantKeys :: exists n :: SpelledBy(t, n, RelativeChordMap[t])
  {
    forall t | t in MediantKeys
      ensures exists n :: SpelledBy(t, n, RelativeChordMap[t])
    {
      if t == "iii" {
        Spells_iii();
      } else if t == "iiim7" {
        Spells_iiim7();
      } else if t == "III" {
        Spells_III();
      } else if t == "bIII" {
        Spells_bIII();
      } else if t == "bIIImaj7" {
        Spells_bIIImaj7();
      } else {
        Spells_biii();
      }
    }
  }

  lemma SubdominantSpelled()
    ensures forall t | t in SubdominantKeys :: exists n :: SpelledBy(t, n, RelativeChordMap[t])
  {
    forall t | t in SubdominantKeys
      ensures exists n :: SpelledBy(t, n, RelativeChordMap[t])
    {
      if t == "IVmaj7" {
        Spells_IVmaj7();
      } else if t == "iv" {
        Spells_iv();
      } else {
        Spells_ivm7();
      }
    }
  }

  lemma DominantSpelled()
    ensures forall t | t in DominantKeys :: exists n :: SpelledBy(t, n, RelativeChordMap[t])
  {
    forall t | t in DominantKeys
      ensures exists n :: SpelledBy(t, n, RelativeChordMap[t])
    {
      if t == "V" {
        Spells_V();
      } else if t == "V7" {
        Spells_V7();
      } else if t == "v" {
        Spells_v();
      } else {
        Spells_vm7();
      }
    }
  }

  lemma SubmediantSpelled()
    ensures forall t | t in SubmediantKeys :: exists n :: SpelledBy(t, n, RelativeChordMap[t])
  {
    forall t | t in SubmediantKeys
      ensures exists n :: SpelledBy(t, n, RelativeChordMap[t])
    {
      if t == "vi" {
        Spells_vi();
      } else if t == "vim7" {
        Spells_vim7();
      } else if t == "VI" {
        Spells_VI();
      } else if t == "bVI" {
        Spells_bVI();
      } else if t == "bVImaj7" {
        Spells_bVImaj7();
      } else {
        Spells_bvi();
      }
    }
  }

  lemma SeventhDegreeSpelled()
    ensures forall t | t in SeventhDegreeKeys :: exists n :: SpelledBy(t, n, RelativeChordMap[t])
  {
    forall t | t in SeventhDegreeKeys
      ensures exists n :: SpelledBy(t, n, RelativeChordMap[t])
    {
      if t == "vii°" {
        Spells_viio();
      } else if t == "viiø7" {
        Spells_viih7();
      } else if t == "bVII" {
        Spells_bVII();
      } else {
        Spells_bVII7();
      }
    }
  }

  /** The groups cover the table. */
  lemma KeysGrouped(t: string)
    requires t in RelativeChordMap
    ensures || t in TonicKeys || t in SupertonicKeys || t in MediantKeys || t in SubdominantKeys
            || t in DominantKeys || t in SubmediantKeys || t in SeventhDegreeKeys
  {
  }

  /** Every key of the table is spelled by the rules of roman-numeral analysis and means what they say. */
  lemma TableFollowsNumerals(t: string)
    requires t in RelativeChordMap
    ensures Split(t).Some?
    ensures Meaning(Split(t).value) == Some(RelativeChordMap[t])
  {
    KeysGrouped(t);
    TonicSpelled();
    SupertonicSpelled();
    MediantSpelled();
    SubdominantSpelled();
    DominantSpelled();
    SubmediantSpelled();
    SeventhDegreeSpelled();
    var n :| SpelledBy(t, n, RelativeChordMap[t]);
    SplitSpell(n);
  }

  /** The reference grammar reads every key of the table exactly as the table does. */
  lemma TableAgreesWithParse(t: string)
    requires t in RelativeChordMap
    ensures ParseToken(t) == Some(RelativeChordMap[t])
  {
    TableFollowsNumerals(t);
  }

  /** Upper-case keys are exactly the chords with a major third (M, maj7, dom7); lower-case keys the rest. */
  lemma TableCaseGivesThird(t: string)
    requires t in RelativeChordMap
    ensures Split(t).Some?
    ensures Split(t).value.Upper()
        <==> RelativeChordMap[t].chordQuality in {MajorTriad, MajorSeventh, DominantSeventh}
    ensures !Split(t).value.Upper()
        <==> RelativeChordMap[t].chordQuality in {MinorTriad, MinorSeventh, Diminished, HalfDiminished}
  {
    TableFollowsNumerals(t);
    UpperCaseMeansMajorThird(Split(t).value);
  }

  /** A key starts with "b" exactly when its root lies a minor third, sixth or seventh above the tonic. */
  lemma TableFlatGivesMinorInterval(t: string)
    requires t in RelativeChordMap
    ensures |t| > 0
    ensures t[0] == 'b' <==> RelativeChordMap[t].interval in {m3, m6, m7}
  {
    TableFollowsNumerals(t);
    SpellFlat(Split(t).value);
    FlatMeansMinorInterval(Split(t).value);
  }

  /** Keys ending in "°" are diminished triads and keys ending in "ø7" half-diminished sevenths. */
  lemma TableDiminishedSuffixes(t: string)
    requires t in RelativeChordMap
    ensures Split(t).Some?
    ensures Split(t).value.suffix == "°" ==> RelativeChordMap[t].chordQuality == Diminished
    ensures Split(t).value.suffix == "ø7" ==> RelativeChordMap[t].chordQuality == HalfDiminished
  {
    TableFollowsNumerals(t);
    DiminishedSuffixes(Split(t).value);
  }

  /** Two keys with the same flat and the same degree put their root at the same interval. */
  lemma TableSameDegreeSameInterval(t1: string, t2: string)
    requires t1 in RelativeChordMap && t2 in RelativeChordMap
    requires Split(t1).Some? && Split(t2).Some?
    requires Split(t1).value.flat == Split(t2).value.flat
    requires Degree(Split(t1).value.roman) == Degree(Split(t2).value.roman)
    ensures RelativeChordMap[t1].interval == RelativeChordMap[t2].interval
  {
    TableFollowsNumerals(t1);
    TableFollowsNumerals(t2);
    SameDegreeSameInterval(Split(t1).value, Split(t2).value);
  }

  /**
   * The table with the plain major subdominant triad "IV" added, which the
   * major exercise list asks for but the table lacks.
   */
  const CorrectedChordMap: map<string, ChordInterval> := RelativeChordMap["IV" := ChordInterval(P4, MajorTriad)]

  lemma Spells_IV()
    ensures SpelledBy("IV", Numeral(false, "IV", ""), ChordInterval(P4, MajorTriad))
  {
  }

  /** The corrected table still reads every key as the rules of roman-numeral analysis do. */
  lemma CorrectedTableFollowsNumerals(t: string)
    requires t in CorrectedChordMap
    ensures ParseToken(t) == Some(CorrectedChordMap[t])
  {
    if t == "IV" {
      Spells_IV();
      SplitSpell(Numeral(false, "IV", ""));
    } else {
      TableAgreesWithParse(t);
    }
  }

  /** The twelve tonics offered to the player, from C upwards by semitones. */
  const ChromaticScaleNotes: seq<string> := ["C", "C#", "D", "D#", "E", "F", "F#", "G", "G#", "A", "A#", "B"]

  /** The semitone of a natural note letter above C, in either case. */
  function LetterSemitone(c: char): Option<PitchClass> {
    if c == 'C' || c == 'c' then Some(0)
    else if c == 'D' || c == 'd' then Some(2)
    else if c == 'E' || c == 'e' then Some(4)
    else if c == 'F' || c == 'f' then Some(5)
    else if c == 'G' || c == 'g' then Some(7)
    else if c == 'A' || c == 'a' then Some(9)
    else if c == 'B' || c == 'b' then Some(11)
    else None
  }

  /** The pitch class a note name without octave stands for: a letter, then at most one sharp or flat. */
  function NoteNameSemitone(name: string): (r: Option<PitchClass>)
    ensures r.Some? ==> 1 <= |name| <= 2 && LetterSemitone(name[0]).Some?
    ensures |name| == 1 ==> r == LetterSemitone(name[0])
  {
    if |name| == 0 || |name| > 2 || LetterSemitone(name[0]).None? then None
    else
      var natural := LetterSemitone(name[0]).value;
      if |name| == 1 then Some(natural)
      else if name[1] == '#' then Some((natural + 1) % Octave)
      else if name[1] == 'b' then Some((natural + Octave - 1) % Octave)
      else None
  }

  /** The k-th tonic name is the note k semitones above C. */
  lemma ChromaticScaleAscends()
    ensures |ChromaticScaleNotes| == Octave
    ensures forall k :: 0 <= k < |ChromaticScaleNotes| ==> NoteNameSemitone(ChromaticScaleNotes[k]) == Some(k)
  {
    NaturalsAscend();
    SharpsAscend();
  }

  /** The names without an accidental sit at 0, 2, 4, 5, 7, 9 and 11. */
  lemma NaturalsAscend()
    ensures forall k | k in {0, 2, 4, 5, 7, 9, 11} :: NoteNameSemitone(ChromaticScaleNotes[k]) == Some(k)
  {
    forall k | k in {0, 2, 4, 5, 7, 9, 11}
      ensures NoteNameSemitone(ChromaticScaleNotes[k]) == Some(k)
    {
      if k == 0 {
        assert ChromaticScaleNotes[0] == "C";
      } else if k == 2 {
        assert ChromaticScaleNotes[2] == "D";
      } else if k == 4 {
        assert ChromaticScaleNotes[4] == "E";
      } else if k == 5 {
        assert ChromaticScaleNotes[5] == "F";
      } else if k == 7 {
        assert ChromaticScaleNotes[7] == "G";
      } else if k == 9 {
        assert ChromaticScaleNotes[9] == "A";
      } else if k == 11 {
        assert ChromaticScaleNotes[11] == "B";
      }
    }
  }

  /** Each sharp sits one semitone above its letter. */
  lemma SharpsAscend()
    ensures forall k | k in {1, 3, 6, 8, 10} :: NoteNameSemitone(ChromaticScaleNotes[k]) == Some(k)
  {
    forall k | k in {1, 3, 6, 8, 10}
      ensures NoteNameSemitone(ChromaticScaleNotes[k]) == Some(k)
    {
      if k == 1 {
        assert ChromaticScaleNotes[1] == "C#";
      } else if k == 3 {
        assert ChromaticScaleNotes[3] == "D#";
      } else if k == 6 {
        assert ChromaticScaleNotes[6] == "F#";
      } else if k == 8 {
        assert ChromaticScaleNotes[8] == "G#";
      } else if k == 10 {
        assert ChromaticScaleNotes[10] == "A#";
      }
    }
  }

  /** No two tonic names are the same. */
  lemma ChromaticScaleDistinct()
    ensures forall j, k :: 0 <= j < k < |ChromaticScaleNotes| ==> ChromaticScaleNotes[j] != ChromaticScaleNotes[k]
  {
    ChromaticScaleAscends();
  }

  /**
   * The chord symbol a roman numeral names in the key of `tonic`: its root lies
   * the entry's interval above the tonic, its quality is the entry's. An
   * unknown tonic name or a token outside the table fails.
   */
  function NotationToChord(tonic: string, romanNotation: string): (r: Option<ChordSymbol>)
    ensures r.Some? <==> NoteNameSemitone(tonic).Some? && romanNotation in RelativeChordMap
    ensures r.Some? ==> r.value.quality == RelativeChordMap[romanNotation].chordQuality
    ensures r.Some? ==>
      (r.value.root - NoteNameSemitone(tonic).value) % Octave == RelativeChordMap[romanNotation].interval.Semitones()
  {
    var pc := NoteNameSemitone(tonic);
    if pc.None? || romanNotation !in RelativeChordMap then None
    else
      var entry := RelativeChordMap[romanNotation];
      RaiseThenLower(pc.value, entry.interval.Semitones());
      Some(ChordSymbol((pc.value + entry.interval.Semitones()) % Octave, entry.chordQuality))
  }

  /** Going up `s` semitones round the octave and measuring back down gives `s` again. */
  lemma RaiseThenLower(pc: PitchClass, s: nat)
    requires s < Octave
    ensures ((pc + s) % Octave - pc) % Octave == s
  {
  }

  /** The chord a token names is the one its numeral names by the rules of roman-numeral analysis. */
  lemma NotationFollowsNumerals(tonic: string, romanNotation: string)
    requires NotationToChord(tonic, romanNotation).Some?
    ensures ParseToken(romanNotation).Some?
    ensures NotationToChord(tonic, romanNotation).value.quality == ParseToken(romanNotation).value.chordQuality
    ensures (NotationToChord(tonic, romanNotation).value.root - NoteNameSemitone(tonic).value) % Octave
         == ParseToken(romanNotation).value.interval.Semitones()
  {
    TableAgreesWithParse(romanNotation);
  }

  /** In C, "V7" names the dominant seventh on G, whose notes are G4, B4, D5 and F5. */
  lemma DominantSeventhInC()
    ensures NotationToChord("C", "V7") == Some(ChordSymbol(7, DominantSeventh))
    ensures ChordOfSymbol(ChordSymbol(7, DominantSeventh)).Notes() == [67, 71, 74, 77]
  {
  }

  /** Transposing the tonic transposes every chord of the key by the same amount. */
  lemma NotationTransposes(tonic1: string, tonic2: string, romanNotation: string)
    requires NotationToChord(tonic1, romanNotation).Some? && NoteNameSemitone(tonic2).Some?
    ensures NotationToChord(tonic2, romanNotation).Some?
    ensures NotationToChord(tonic2, romanNotation).value.quality == NotationToChord(tonic1, romanNotation).value.quality
    ensures (NotationToChord(tonic2, romanNotation).value.root - NotationToChord(tonic1, romanNotation).value.root) % Octave
         == (NoteNameSemitone(tonic2).value - NoteNameSemitone(tonic1).value) % Octave
  {
    var s := RelativeChordMap[romanNotation].interval.Semitones();
    ShiftedDifference(NoteNameSemitone(tonic1).value, NoteNameSemitone(tonic2).value, s);
  }

  /** Two notes raised by the same amount round the octave stay as far apart as before. */
  lemma ShiftedDifference(p1: PitchClass, p2: PitchClass, s: nat)
    ensures ((p2 + s) % Octave - (p1 + s) % Octave) % Octave == (p2 - p1) % Octave
  {
  }

  /** Which way a chord may be moved by an octave to sit next to the tonic chord. */
  type OctaveDirection = d: int | d == 1 || d == -1 witness 1

  /**
   * The chord to play for `chordSymbol` in a progression on `tonicChord`.
   * Both start in octave 4. With a direction and a chord other than the tonic
   * chord, a chord whose root is below the tonic's moves up an octave when
   * the direction is up, and any other chord moves down an octave when the
   * direction is down.
   */
  function PlacedChord(tonicChord: ChordSymbol, chordSymbol: ChordSymbol, octave: Option<OctaveDirection>): Chord {
    var chord := ChordOfSymbol(chordSymbol);
    if chordSymbol != tonicChord && octave.Some? then
      var tonicRoot := ChordOfSymbol(tonicChord).root;
      if tonicRoot > chord.root then
        if octave.value == 1 then chord.Transposed(Octave) else chord
      else
        if octave.value == -1 then chord.Transposed(-Octave) else chord
    else
      chord
  }

  /** The notes of the placed chord, bottom to top. */
  function GetChordTones(tonicChord: ChordSymbol, chordSymbol: ChordSymbol, octave: Option<OctaveDirection>): (r: seq<Pitch>)
    ensures var notes := ChordOfSymbol(chordSymbol).Notes();
      r == notes || r == Shift(notes, Octave) || r == Shift(notes, -Octave)
    ensures |r| == |chordSymbol.quality.Offsets()|
  {
    PlacedChord(tonicChord, chordSymbol, octave).Notes()
  }

  /** The tonic chord itself, and any chord without a direction, keeps its notes in octave 4. */
  lemma TonesUnmoved(tonicChord: ChordSymbol, chordSymbol: ChordSymbol, octave: Option<OctaveDirection>)
    requires chordSymbol == tonicChord || octave.None?
    ensures GetChordTones(tonicChord, chordSymbol, octave) == ChordOfSymbol(chordSymbol).Notes()
  {
  }

  /** A chord moves up an octave exactly when it differs from the tonic chord, the direction is up and its root is below the tonic's. */
  lemma TonesMoveUp(tonicChord: ChordSymbol, chordSymbol: ChordSymbol, octave: Option<OctaveDirection>)
    ensures GetChordTones(tonicChord, chordSymbol, octave) == Shift(ChordOfSymbol(chordSymbol).Notes(), Octave)
        <==> chordSymbol != tonicChord && octave == Some(1) && tonicChord.root > chordSymbol.root
  {
    var notes := ChordOfSymbol(chordSymbol).Notes();
    ShiftMoves(notes, Octave);
    assert Shift(notes, -Octave)[0] != Shift(notes, Octave)[0];
  }

  /** A chord moves down an octave exactly when it differs from the tonic chord, the direction is down and its root is not below the tonic's. */
  lemma TonesMoveDown(tonicChord: ChordSymbol, chordSymbol: ChordSymbol, octave: Option<OctaveDirection>)
    ensures GetChordTones(tonicChord, chordSymbol, octave) == Shift(ChordOfSymbol(chordSymbol).Notes(), -Octave)
        <==> chordSymbol != tonicChord && octave == Some(-1) && tonicChord.root <= chordSymbol.root
  {
    var notes := ChordOfSymbol(chordSymbol).Notes();
    ShiftMoves(notes, -Octave);
    assert Shift(notes, -Octave)[0] != Shift(notes, Octave)[0];
  }

  /**
   * The point of the placement: going up, the root lands in the octave from
   * the tonic's root upwards; going down, any chord but the tonic chord lands
   * in the octave below the tonic's root.
   */
  lemma TonesNextToTonic(tonicChord: ChordSymbol, chordSymbol: ChordSymbol, octave: Option<OctaveDirection>)
    ensures var r := GetChordTones(tonicChord, chordSymbol, octave);
      var tonicRoot := ChordOfSymbol(tonicChord).root;
      && (octave == Some(1) ==> tonicRoot <= r[0] < tonicRoot + Octave)
      && (octave == Some(-1) && chordSymbol != tonicChord ==> tonicRoot - Octave <= r[0] < tonicRoot)
  {
  }
}
