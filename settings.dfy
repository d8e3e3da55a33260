/**
 * The exercise option lists: for each kind of exercise, the roman-numeral
 * tokens a progression may be drawn from, each list starting on the tonic.
 */
module Settings {
  import opened Harmony
  import opened Numerals
  import opened TheoryToFq

  /** The diatonic triads of the major key. */
  const Major: seq<string> := ["I", "ii", "iii", "IV", "V", "vi", "vii°"]

  /** The diatonic seventh chords of the major key. */
  const MajorSevenths: seq<string> := ["Imaj7", "iim7", "iiim7", "IVmaj7", "V7", "vim7", "viiø7"]

  /** The diatonic triads of the natural minor key. */
  const Minor: seq<string> := ["i", "ii°", "bIII", "iv", "v", "bVI", "bVII"]

  /** The diatonic seventh chords of the natural minor key. */
  const MinorSevenths: seq<string> := ["im7", "iiø7", "bIIImaj7", "ivm7", "vm7", "bVImaj7", "bVII7"]

  /** The major tonic with the major chords a third above or below it. */
  const ChromediantsMajor: seq<string> := ["I", "bIII", "III", "bVI", "VI"]

  /** The minor tonic with the minor chords a third above or below it. */
  const ChromediantsMinor: seq<string> := ["i", "biii", "iii", "bvi", "vi"]

  /** The option record, by exercise name. */
  const ChordsOptions: map<string, seq<string>> := map[
    "major" := Major,
    "majorSevenths" := MajorSevenths,
    "minor" := Minor,
    "minorSevenths" := MinorSevenths,
    "chromediants_major" := ChromediantsMajor,
    "chromediants_minor" := ChromediantsMinor
  ]

  /** The roots of the chromediant lists: the tonic and the four thirds around it. */
  const ChromediantIntervals: seq<Interval> := [P1, m3, M3, m6, M6]

  /** Every token of `tokens` is in `table`, and the k-th lies `intervals[k]` above the tonic. */
  ghost predicate ResolvesTo(table: map<string, ChordInterval>, tokens: seq<string>, intervals: seq<Interval>) {
    && |tokens| == |intervals|
    && forall k :: 0 <= k < |tokens| ==> tokens[k] in table && table[tokens[k]].interval == intervals[k]
  }

  /** Every token of `tokens` is in `table`, and the k-th is the chord of quality `q` built `intervals[k]` above the tonic. */
  ghost predicate ResolvesToQuality(table: map<string, ChordInterval>, tokens: seq<string>, intervals: seq<Interval>, q: Quality) {
    && |tokens| == |intervals|
    && forall k :: 0 <= k < |tokens| ==> tokens[k] in table && table[tokens[k]] == ChordInterval(intervals[k], q)
  }

  /** The seventh-chord lists of the major key resolve to the major scale. */
  lemma MajorSeventhsResolve()
    ensures ResolvesTo(RelativeChordMap, MajorSevenths, MajorScale)
  {
  }

  /** The triads of the minor key resolve to the natural minor scale. */
  lemma MinorResolves()
    ensures ResolvesTo(RelativeChordMap, Minor, MinorScale)
  {
  }

  /** The seventh chords of the minor key resolve to the natural minor scale. */
  lemma MinorSeventhsResolve()
    ensures ResolvesTo(RelativeChordMap, MinorSevenths, MinorScale)
  {
  }

  /** The major chromediants: the tonic and four major triads a third away. */
  lemma ChromediantsMajorResolve()
    ensures ResolvesToQuality(RelativeChordMap, ChromediantsMajor, ChromediantIntervals, MajorTriad)
  {
  }

  /** The minor chromediants: the tonic and four minor triads a third away. */
  lemma ChromediantsMinorResolve()
    ensures ResolvesToQuality(RelativeChordMap, ChromediantsMinor, ChromediantIntervals, MinorTriad)
  {
  }

  /** The k-th interval lies strictly above the ones before it. */
  predicate Rises(intervals: seq<Interval>) {
    forall j, k :: 0 <= j < k < |intervals| ==> intervals[j].Semitones() < intervals[k].Semitones()
  }

  /** The major scale, the natural minor scale and the chromediant roots all rise. */
  lemma ScalesRise()
    ensures Rises(MajorScale) && Rises(MinorScale) && Rises(ChromediantIntervals)
  {
  }

  /** Tokens resolving to rising intervals are pairwise different. */
  lemma RisingTokensDistinct(table: map<string, ChordInterval>, tokens: seq<string>, intervals: seq<Interval>)
    requires ResolvesTo(table, tokens, intervals) && Rises(intervals)
    ensures forall j, k :: 0 <= j < k < |tokens| ==> tokens[j] != tokens[k]
  {
    forall j, k | 0 <= j < k < |tokens|
      ensures tokens[j] != tokens[k]
    {
      assert intervals[j].Semitones() < intervals[k].Semitones();
    }
  }

  /**
   * As written, the fourth token of the major list is the plain triad "IV",
   * which the table lacks, so resolving it fails whatever the tonic; the
   * other six tokens resolve to their degrees of the major scale.
   */
  lemma MajorLacksSubdominant()
    ensures Major[3] == "IV" && Major[3] !in RelativeChordMap
    ensures forall tonic :: NotationToChord(tonic, Major[3]).None?
    ensures forall k | 0 <= k < |Major| && k != 3 :: Major[k] in RelativeChordMap && RelativeChordMap[Major[k]].interval == MajorScale[k]
  {
  }

  /** With the subdominant triad added, the major list resolves to the major scale. */
  lemma MajorResolvesCorrected()
    ensures ResolvesTo(CorrectedChordMap, Major, MajorScale)
  {
    MajorLacksSubdominant();
  }

  /** Every option list except the major one resolves in the table as written. */
  lemma SafeOptions()
    ensures forall name | name in ChordsOptions ::
      (forall t | t in ChordsOptions[name] :: t in RelativeChordMap) <==> name != "major"
  {
    MajorSeventhsResolve();
    MinorResolves();
    MinorSeventhsResolve();
    ChromediantsMajorResolve();
    ChromediantsMinorResolve();
    MajorLacksSubdominant();
  }

  /** With the subdominant triad added, every token of every option list resolves. */
  lemma OptionsResolveCorrected()
    ensures forall name | name in ChordsOptions :: forall t | t in ChordsOptions[name] :: t in CorrectedChordMap
  {
    SafeOptions();
    MajorResolvesCorrected();
  }

  /** The four diatonic lists hold seven different tokens each. */
  lemma DiatonicListsDistinct()
    ensures forall j, k :: 0 <= j < k < 7 ==> Major[j] != Major[k] && MajorSevenths[j] != MajorSevenths[k]
    ensures forall j, k :: 0 <= j < k < 7 ==> Minor[j] != Minor[k] && MinorSevenths[j] != MinorSevenths[k]
  {
    ScalesRise();
    MajorResolvesCorrected();
    RisingTokensDistinct(CorrectedChordMap, Major, MajorScale);
    MajorSeventhsResolve();
    RisingTokensDistinct(RelativeChordMap, MajorSevenths, MajorScale);
    MinorResolves();
    RisingTokensDistinct(RelativeChordMap, Minor, MinorScale);
    MinorSeventhsResolve();
    RisingTokensDistinct(RelativeChordMap, MinorSevenths, MinorScale);
  }

  /** Index for index, a seventh chord of a key shares its root with the triad of that key. */
  lemma SeventhsMatchTriads()
    ensures forall k :: 0 <= k < 7 ==> CorrectedChordMap[Major[k]].interval == CorrectedChordMap[MajorSevenths[k]].interval
    ensures forall k :: 0 <= k < 7 ==> RelativeChordMap[Minor[k]].interval == RelativeChordMap[MinorSevenths[k]].interval
  {
    MajorResolvesCorrected();
    MajorSeventhsResolve();
    MinorResolves();
    MinorSeventhsResolve();
    assert forall t | t in RelativeChordMap :: t in CorrectedChordMap && CorrectedChordMap[t] == RelativeChordMap[t] by {
      MajorLacksSubdominant();
    }
  }

  /** Every option list starts on the tonic chord: its first token lies a unison above the tonic. */
  lemma OptionsStartOnTonic()
    ensures forall name | name in ChordsOptions ::
      |ChordsOptions[name]| > 0 && ChordsOptions[name][0] in RelativeChordMap
      && RelativeChordMap[ChordsOptions[name][0]].interval == P1
  {
    forall name | name in ChordsOptions
      ensures |ChordsOptions[name]| > 0 && ChordsOptions[name][0] in RelativeChordMap
        && RelativeChordMap[ChordsOptions[name][0]].interval == P1
    {
      if name == "major" {
        MajorLacksSubdominant();
      } else if name == "majorSevenths" {
        MajorSeventhsResolve();
      } else if name == "minor" {
        MinorResolves();
      } else if name == "minorSevenths" {
        MinorSeventhsResolve();
      } else if name == "chromediants_major" {
        ChromediantsMajorResolve();
      } else {
        ChromediantsMinorResolve();
      }
    }
  }
}
