/**
 * How a roman-numeral token is spelled, as a reference definition to check
 * the vocabulary table against: an optional flat prefix "b", a numeral naming
 * a scale degree whose case says major (upper) or minor (lower), and a
 * suffix naming the chord kind ("maj7", "7", "m7", "°", "ø7" or none).
 */
module Numerals {
  import opened Wrappers
  import opened Harmony

  /** A token taken apart into its three parts. */
  datatype Numeral = Numeral(flat: bool, roman: string, suffix: string) {

    /** An upper-case numeral (I, V, IV, ...) names a chord with a major third. */
    predicate Upper() {
      |roman| > 0 && IsNumeralChar(roman[0], true)
    }

    /** The numeral is non-empty, of one case, and the suffix does not continue it. */
    predicate WellFormed() {
      && |roman| > 0
      && (forall k :: 0 <= k < |roman| ==> IsNumeralChar(roman[k], Upper()))
      && (suffix == [] || !IsNumeralChar(suffix[0], Upper()))
    }
  }

  predicate IsNumeralChar(c: char, upper: bool) {
    if upper then c == 'I' || c == 'V' else c == 'i' || c == 'v'
  }

  /** The token written out. */
  function Spell(n: Numeral): string {
    (if n.flat then "b" else "") + n.roman + n.suffix
  }

  /** The length of the run of numeral letters of one case at the start of `s`. */
  function NumeralLength(s: string, upper: bool): (n: nat)
    ensures n <= |s|
    ensures forall k :: 0 <= k < n ==> IsNumeralChar(s[k], upper)
    ensures n < |s| ==> !IsNumeralChar(s[n], upper)
  {
    if s != [] && IsNumeralChar(s[0], upper) then 1 + NumeralLength(s[1..], upper) else 0
  }

  /** Takes a token apart; fails when there is no numeral after the optional flat. */
  function Split(t: string): (r: Option<Numeral>)
    ensures r.Some? ==> r.value.WellFormed() && Spell(r.value) == t
  {
    var flat := |t| > 0 && t[0] == 'b';
    var body := if flat then t[1..] else t;
    if body == [] then None
    else
      var upper := IsNumeralChar(body[0], true);
      var n := NumeralLength(body, upper);
      if n == 0 then None
      else
        CutAtNumeralEnd(flat, body, upper);
        assert flat ==> t == "b" + body;
        Some(Numeral(flat, body[..n], body[n..]))
  }

  /** Cutting a body after its run of numeral letters gives a well-formed numeral that spells it again. */
  lemma CutAtNumeralEnd(flat: bool, body: string, upper: bool)
    requires body != [] && upper == IsNumeralChar(body[0], true) && NumeralLength(body, upper) > 0
    ensures var n := NumeralLength(body, upper);
      var r := Numeral(flat, body[..n], body[n..]);
      r.WellFormed() && Spell(r) == (if flat then "b" else "") + body
  {
    var n := NumeralLength(body, upper);
    var r := Numeral(flat, body[..n], body[n..]);
    assert r.Upper() == upper;
    assert body[..n] + body[n..] == body;
  }

  /** Spelling a well-formed numeral and taking it apart again gives it back. */
  lemma {:induction false} SplitSpell(n: Numeral)
    requires n.WellFormed()
    ensures Split(Spell(n)) == Some(n)
  {
    var t := Spell(n);
    var body := n.roman + n.suffix;
    assert t[0] == 'b' <==> n.flat by {
      if n.flat {
        assert t[0] == 'b';
      } else {
        assert t == body && t[0] == n.roman[0];
      }
    }
    assert (if n.flat then t[1..] else t) == body;
    var upper := n.Upper();
    assert IsNumeralChar(body[0], true) == upper by {
      assert body[0] == n.roman[0];
    }
    assert forall k :: 0 <= k < |n.roman| ==> body[k] == n.roman[k];
    assert n.suffix != [] ==> body[|n.roman|] == n.suffix[0];
    var len := NumeralLength(body, upper);
    assert len == |n.roman|;
    assert body[..len] == n.roman && body[len..] == n.suffix;
  }

  /** A spelled token starts with "b" exactly when the numeral is flat: no numeral letter is a "b". */
  lemma SpellFlat(n: Numeral)
    requires n.WellFormed()
    ensures |Spell(n)| > 0 && (n.flat <==> Spell(n)[0] == 'b')
  {
    if !n.flat {
      assert Spell(n)[0] == n.roman[0];
    }
  }

  /** The scale degree a numeral names, 1 to 7. */
  function Degree(roman: string): (d: Option<nat>)
    ensures d.Some? ==> 1 <= d.value <= 7
  {
    if roman == "i" || roman == "I" then Some(1)
    else if roman == "ii" || roman == "II" then Some(2)
    else if roman == "iii" || roman == "III" then Some(3)
    else if roman == "iv" || roman == "IV" then Some(4)
    else if roman == "v" || roman == "V" then Some(5)
    else if roman == "vi" || roman == "VI" then Some(6)
    else if roman == "vii" || roman == "VII" then Some(7)
    else None
  }

  /** The intervals of the major scale above its tonic, degree 1 first. */
  const MajorScale: seq<Interval> := [P1, M2, M3, P4, P5, M6, M7]

  /** The intervals of the natural minor scale above its tonic, degree 1 first. */
  const MinorScale: seq<Interval> := [P1, M2, m3, P4, P5, m6, m7]

  /** The interval a semitone lower, for the major intervals a flat can lower within the vocabulary. */
  function Flatten(i: Interval): (r: Option<Interval>)
    ensures r.Some? ==> r.value.Semitones() == i.Semitones() - 1
  {
    match i
    case M3 => Some(m3)
    case M6 => Some(m6)
    case M7 => Some(m7)
    case _ => None
  }

  /** The quality a suffix names after an upper- or lower-case numeral. */
  function SuffixQuality(upper: bool, suffix: string): Option<Quality> {
    if upper then
      if suffix == "" then Some(MajorTriad)
      else if suffix == "maj7" then Some(MajorSeventh)
      else if suffix == "7" then Some(DominantSeventh)
      else None
    else
      if suffix == "" then Some(MinorTriad)
      else if suffix == "m7" then Some(MinorSeventh)
      else if suffix == "°" then Some(Diminished)
      else if suffix == "ø7" then Some(HalfDiminished)
      else None
  }

  /** The interval of a degree of the major scale, lowered a semitone when flat. */
  function DegreeInterval(flat: bool, degree: nat): Option<Interval>
    requires 1 <= degree <= 7
  {
    var natural := MajorScale[degree - 1];
    if flat then Flatten(natural) else Some(natural)
  }

  /** What a numeral means by the rules of roman-numeral analysis. */
  function Meaning(n: Numeral): Option<ChordInterval> {
    var degree := Degree(n.roman);
    var quality := SuffixQuality(n.Upper(), n.suffix);
    if degree.None? || quality.None? then None
    else
      var interval := DegreeInterval(n.flat, degree.value);
      if interval.None? then None else Some(ChordInterval(interval.value, quality.value))
  }

  /** What a token means, when it is spelled by these rules. */
  function ParseToken(t: string): Option<ChordInterval> {
    match Split(t)
    case None => None
    case Some(n) => Meaning(n)
  }

  /** Upper case numerals give exactly the chords with a major third: M, maj7 and dom7. */
  lemma UpperCaseMeansMajorThird(n: Numeral)
    requires Meaning(n).Some?
    ensures n.Upper() <==> Meaning(n).value.chordQuality in {MajorTriad, MajorSeventh, DominantSeventh}
    ensures !n.Upper() <==> Meaning(n).value.chordQuality in {MinorTriad, MinorSeventh, Diminished, HalfDiminished}
  {
  }

  /** A flat prefix gives exactly the minor intervals m3, m6 and m7. */
  lemma FlatMeansMinorInterval(n: Numeral)
    requires Meaning(n).Some?
    ensures n.flat <==> Meaning(n).value.interval in {m3, m6, m7}
  {
    var d := Degree(n.roman).value;
    assert MajorScale[d - 1] in MajorScale;
  }

  /** The suffixes "°" and "ø7" give the diminished and the half-diminished chord. */
  lemma DiminishedSuffixes(n: Numeral)
    requires Meaning(n).Some?
    ensures n.suffix == "°" ==> Meaning(n).value.chordQuality == Diminished
    ensures n.suffix == "ø7" ==> Meaning(n).value.chordQuality == HalfDiminished
  {
  }

  /** The interval depends only on the flat and the degree, not on case or suffix. */
  lemma SameDegreeSameInterval(n1: Numeral, n2: Numeral)
    requires Meaning(n1).Some? && Meaning(n2).Some?
    requires n1.flat == n2.flat && Degree(n1.roman) == Degree(n2.roman)
    ensures Meaning(n1).value.interval == Meaning(n2).value.interval
  {
  }
}
