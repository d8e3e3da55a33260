# Ear trainer harmonic core and playback, in Dafny

This project models the core of an ear-training web application that plays
chord progressions for the player to recognise.

- **Harmonic vocabulary** (`src/services/theoryToFq.ts`). Roman-numeral tokens
  (`I`, `iim7`, `bVII7`, `viiø7`, ...) map to an interval above the key's
  tonic and a chord quality. `notationToChord` resolves a token in a given key
  to a chord symbol. `getChordTones` places a chord at most one octave up or
  down so that it sits next to the tonic chord.
- **Exercise option lists** (`src/services/settings.ts`). Each kind of
  exercise (major, major sevenths, minor, minor sevenths, major and minor
  chromediants) has a list of tokens from which progressions are drawn.
- **Playback** (`src/services/fqToSound.ts`). The player keeps module-level
  state: the lazily imported audio library, a lazily built sample library, and
  a cache of instruments by name. `playChords` makes a fixed sequence of calls
  to the audio engine's transport.

The note/chord library is reduced to integers (module `Harmony`):

- a note is a MIDI-style pitch, where a larger number sounds higher (C4 = 60);
- an interval is a number of semitones;
- a chord is a root pitch plus a quality, whose tones lie at fixed offsets above the root;
- a chord symbol is a pitch class plus a quality, and it is placed in octave 4.

Module `Numerals` gives an independent reference definition of how a
roman-numeral token is spelled and what it means: an optional flat, a numeral
whose case gives the third, and a suffix. The table is proved to agree with
it key by key.

The audio engine is seen only through a log of the calls made to it (module
`FqToSound`). Each handle the engine returns (library, sample library,
instrument, part) carries the position in the log of the call that created it.
Which parts will play is a fold over the log:

- a transport cancel clears the scheduled parts;
- starting a part schedules it;
- stopping a part unschedules it.

## Model

| member | source | states |
|---|---|---|
| Harmony.Interval.Semitones | src/services/theoryToFq.ts:13-45 | every interval the vocabulary uses puts the root 0 to 11 semitones above the tonic, strictly under an octave |
| Harmony.SemitonesInjective | src/services/theoryToFq.ts:13-45 | no two of the vocabulary's intervals span the same number of semitones |
| Harmony.Quality.Offsets | src/services/theoryToFq.ts:76 | a chord of any quality has 3 or 4 tones, starting at the root and rising strictly within one octave |
| Harmony.Chord.Notes | src/services/theoryToFq.ts:68-69 | a chord's notes are its root plus each offset of its quality, in order, the root first |
| Harmony.Chord.Transposed | src/services/theoryToFq.ts:60 | moving a chord by an interval keeps its quality and moves every note by the same amount |
| Harmony.Shift | src/services/theoryToFq.ts:60-69 | a shifted note list keeps its length and order and moves each note by exactly `k` |
| Harmony.ShiftMoves | src/services/theoryToFq.ts:60-64 | a non-zero octave move always changes the notes |
| Harmony.ChordOfSymbol | src/services/theoryToFq.ts:54-57 | a parsed chord symbol's root lies in octave 4 and has the symbol's pitch class and quality |
| Numerals.Split | src/services/theoryToFq.ts:13-45 | taking a token apart yields a well-formed numeral that spells the token again |
| Numerals.SplitSpell | src/services/theoryToFq.ts:13-45 | spelling a well-formed numeral and taking it apart gives the numeral back |
| Numerals.SpellFlat | src/services/theoryToFq.ts:25-27 | a spelled token starts with "b" exactly when the numeral is flat |
| Numerals.Flatten | src/services/theoryToFq.ts:25-44 | a flat lowers a major interval by exactly one semitone |
| Numerals.UpperCaseMeansMajorThird | src/services/theoryToFq.ts:13-45 | an upper-case numeral means exactly the qualities M, maj7 and dom7; a lower-case one means exactly m, m7, dim and m7b5 |
| Numerals.FlatMeansMinorInterval | src/services/theoryToFq.ts:25-44 | a flat prefix means exactly the intervals m3, m6 and m7 |
| Numerals.DiminishedSuffixes | src/services/theoryToFq.ts:20-21 | the suffix "°" means dim and "ø7" means m7b5 |
| Numerals.SameDegreeSameInterval | src/services/theoryToFq.ts:18-44 | the interval depends only on the flat and the degree, not on the case or the suffix |
| TheoryToFq.TableFollowsNumerals | src/services/theoryToFq.ts:13-45 | every key of the table is a well-formed numeral, and its entry is what the numeral means |
| TheoryToFq.TableAgreesWithParse | src/services/theoryToFq.ts:13-45 | the reference grammar reads every key exactly as the table does |
| TheoryToFq.TableCaseGivesThird | src/services/theoryToFq.ts:13-45 | a key is upper case exactly when its quality is M, maj7 or dom7, and lower case exactly when it is m, m7, dim or m7b5 |
| TheoryToFq.TableFlatGivesMinorInterval | src/services/theoryToFq.ts:13-45 | a key starts with "b" exactly when its interval is m3, m6 or m7 |
| TheoryToFq.TableDiminishedSuffixes | src/services/theoryToFq.ts:20-21 | keys ending in "°" are dim and keys ending in "ø7" are m7b5 (ii°, iiø7, vii°, viiø7) |
| TheoryToFq.TableSameDegreeSameInterval | src/services/theoryToFq.ts:18-44 | two keys with the same flat and degree share one interval, e.g. ii, iim7, ii° and iiø7 are all M2 |
| TheoryToFq.KeysGrouped | src/services/theoryToFq.ts:13-45 | the seven degree groups together cover every key of the table |
| TheoryToFq.CorrectedTableFollowsNumerals | src/services/theoryToFq.ts:13-45 | with "IV" added as (P4, M), every key, old or new, still means what its numeral says |
| TheoryToFq.NoteNameSemitone | src/services/theoryToFq.ts:75 | a tonic name is accepted only as a letter with at most one accidental, and a bare letter is its natural note |
| TheoryToFq.ChromaticScaleAscends | src/services/theoryToFq.ts:47 | there are exactly 12 tonic names, and the k-th is the note k semitones above C |
| TheoryToFq.NaturalsAscend | src/services/theoryToFq.ts:47 | the names without an accidental stand at semitones 0, 2, 4, 5, 7, 9 and 11 |
| TheoryToFq.SharpsAscend | src/services/theoryToFq.ts:47 | the sharps stand at semitones 1, 3, 6, 8 and 10 |
| TheoryToFq.ChromaticScaleDistinct | src/services/theoryToFq.ts:47 | no two tonic names are equal |
| TheoryToFq.NotationToChord | src/services/theoryToFq.ts:73-77 | the result exists exactly when the tonic is a note name and the token is a key; its quality is the key's, and its root lies the key's interval above the tonic, modulo 12 |
| TheoryToFq.NotationFollowsNumerals | src/services/theoryToFq.ts:73-77 | the chord a token resolves to is the one the rules of roman-numeral analysis give for it |
| TheoryToFq.DominantSeventhInC | src/services/theoryToFq.ts:73-77 | in C, "V7" resolves to G dom7, whose notes are G4, B4, D5 and F5 |
| TheoryToFq.NotationTransposes | src/services/theoryToFq.ts:73-77 | changing the tonic moves the resolved root by the same number of semitones and keeps the quality |
| TheoryToFq.RaiseThenLower | src/services/theoryToFq.ts:75 | going up an interval round the octave and measuring back down gives the interval again |
| TheoryToFq.ShiftedDifference | src/services/theoryToFq.ts:75 | two tonics raised by the same interval stay the same distance apart round the octave |
| TheoryToFq.GetChordTones | src/services/theoryToFq.ts:49-71 | the tones are the chord's notes, moved by at most one octave, all alike, with the tone count kept |
| TheoryToFq.TonesUnmoved | src/services/theoryToFq.ts:54-70 | the tonic chord itself, or any chord without a direction, is returned unshifted |
| TheoryToFq.TonesMoveUp | src/services/theoryToFq.ts:55-61 | a chord moves up an octave exactly when it is not the tonic chord, the direction is 1 and the tonic root is strictly higher |
| TheoryToFq.TonesMoveDown | src/services/theoryToFq.ts:55-66 | a chord moves down an octave exactly when it is not the tonic chord, the direction is -1 and the tonic root is not higher, equal roots included |
| TheoryToFq.TonesNextToTonic | src/services/theoryToFq.ts:58-69 | with direction 1 the root lands within the octave from the tonic root upward; with -1 any chord but the tonic chord lands strictly below the tonic root, within an octave |
| Settings.MajorSeventhsResolve | src/services/settings.ts:3 | every majorSevenths token is a key, and the intervals are those of the major scale in order |
| Settings.MinorResolves | src/services/settings.ts:4 | every minor token is a key, and the intervals are those of the natural minor scale in order |
| Settings.MinorSeventhsResolve | src/services/settings.ts:5 | every minorSevenths token is a key, and the intervals are those of the natural minor scale in order |
| Settings.ChromediantsMajorResolve | src/services/settings.ts:6 | the five chromediants_major tokens are M triads on P1, m3, M3, m6 and M6 |
| Settings.ChromediantsMinorResolve | src/services/settings.ts:7 | the five chromediants_minor tokens are m triads on P1, m3, M3, m6 and M6 |
| Settings.ScalesRise | src/services/settings.ts:2-7 | the major scale, the natural minor scale and the chromediant intervals rise strictly |
| Settings.RisingTokensDistinct | src/services/settings.ts:2-7 | tokens resolving to strictly rising intervals are pairwise different |
| Settings.MajorLacksSubdominant | src/services/settings.ts:2 | "IV" in the major list is not a key, so resolving it fails for every tonic; the other six tokens resolve to their major-scale degrees |
| Settings.MajorResolvesCorrected | src/services/settings.ts:2 | with "IV" added as (P4, M), the major list resolves to the major scale in order |
| Settings.SafeOptions | src/services/settings.ts:1-8 | all tokens of a list are keys exactly when the list is not the major one |
| Settings.OptionsResolveCorrected | src/services/settings.ts:1-8 | with "IV" added, every token of every list resolves |
| Settings.DiatonicListsDistinct | src/services/settings.ts:2-5 | each of the four diatonic lists holds seven different tokens |
| Settings.SeventhsMatchTriads | src/services/settings.ts:2-5 | index for index, majorSevenths shares its intervals with major, and minorSevenths with minor |
| Settings.OptionsStartOnTonic | src/services/settings.ts:2-7 | the first token of every list is a key on P1, the tonic chord |
| FqToSound.Triggers | src/services/fqToSound.ts:56-66 | one attack-release call per score element, in score order, with that element's chord and time and the duration "4n"; nothing is dropped or added |
| FqToSound.TriggersAppend | src/services/fqToSound.ts:61-66 | playing two scores in a row plays both, in order, with nothing dropped |
| FqToSound.Remove | src/services/fqToSound.ts:67 | stopping a part unschedules exactly that part and keeps every other |
| FqToSound.ScheduleAfterAppend | src/services/fqToSound.ts:58-71 | scheduling over two stretches of engine calls composes |
| FqToSound.CancelForgets | src/services/fqToSound.ts:60 | whatever was scheduled before a transport cancel never plays; only what follows counts |
| FqToSound.FreshPartScheduled | src/services/fqToSound.ts:61-71 | creating, stopping and starting a part after a cancel leaves exactly that part scheduled |
| FqToSound.PlaySchedulesOnlyItsPart | src/services/fqToSound.ts:58-71 | after the play sequence, exactly the new part is scheduled, whatever an earlier play left, and it plays exactly its score's triggers |
| FqToSound.Player.constructor | src/services/fqToSound.ts:22-24 | the player starts with nothing imported, no sample library, an empty instrument cache and no calls |
| FqToSound.Player.GetToneLib | src/services/fqToSound.ts:26-41 | the library is imported only when missing; every later call returns the same container and calls nothing |
| FqToSound.Player.CreateSynth | src/services/fqToSound.ts:82-85 | a new synthesizer is created (after importing the library if missing), and the imported library is kept |
| FqToSound.Player.GetSampleLibrary | src/services/fqToSound.ts:88-92 | the sample library is built only when missing, after importing the library if that is missing too; an existing library and imports are kept; the log grows by exactly those calls |
| FqToSound.Player.LoadSampler | src/services/fqToSound.ts:87-102 | a sampler loaded with list = name; the sample library is built at most once, and exactly one load call is made |
| FqToSound.Player.CreateInstrument | src/services/fqToSound.ts:74-80 | the result is a synthesizer exactly when the name is "synth", otherwise a sampler loaded with that name; the log grows by exactly the synthesizer's or the sampler's creation calls; the library ends imported and existing imports are kept; on the sampler path the sample library ends built and an existing one is kept, on the synthesizer path it is untouched |
| FqToSound.Player.CachedInstrument | src/services/fqToSound.ts:49-64 | get-or-insert: a cached instrument is reused with the cache unchanged; on a miss a new synthesizer is cached under the name, whatever the name; no other entry changes; the missing-instrument throw cannot be reached |
| FqToSound.Player.StartPart | src/services/fqToSound.ts:56-71 | releaseAll, stop, cancel, new part, part.stop, start, part.start(0), the rewind to position 0, start, in that order in the log, leaving exactly the new part scheduled |
| FqToSound.Player.PlayChords | src/services/fqToSound.ts:43-72 | the context is woken only when not running; the cache is get-or-insert with a synthesizer; the engine calls come in the source's order; the sample library is untouched; the transport is rewound; only the new part plays, one trigger per chord |

## Left out

- Note spelling and enharmonics of the chord library. A chord symbol is a
  pitch class and a quality, not a name string. A chord name the library would
  spell with B# (placed at C5) is not modelled; every symbol sits in octave 4.
- The library's quality tables. A quality's tones are the usual semitone offsets.
- The library's interval arithmetic is replaced by semitone addition modulo 12.
- TheoryToFq.NotationToChord: tonic names are limited to a letter with at
  most one `#` or `b`, which covers every tonic name the application offers.
  The library accepts more (double accidentals, octave numbers).
- TheoryToFq.NotationToChord: returns the chord symbol, not its name string.
  An unknown token yields `None` where the source would throw on destructuring
  `undefined`.
- Frequency comparison (`fq()`) is floating point. It is modelled as integer
  pitch order, which equal temperament preserves.
- Audio engine internals are not modelled: audio timing, sample loading over
  the network, and how a part schedules its callbacks. The engine is a log of
  calls. The part's callback is modelled as playing each score element at its
  own time.
- FqToSound.Triggers: a part fires its callbacks in time order, not in array
  order. The model's order is the score's, so it matches the source only when
  the score is sorted by time.
- FqToSound.Player.CachedInstrument: the cache is a plain object in the source,
  so a name every object inherits ("constructor", "toString", "__proto__", ...)
  finds an inherited value there. No synthesizer is created, and releasing that
  value throws. The model's cache is a map, so such a name is a miss: a
  synthesizer is cached under it and the play goes ahead.
- FqToSound.Player.PlayChords: for the same inherited names the source fails
  at the releaseAll call, while the model plays. Instrument names other than
  these behave alike in both.
- FqToSound.Player.LoadSampler: the sampler's load promise is taken to
  resolve. In the source it resolves only when the samples finish loading.
- FqToSound.Player.PlayChords: the state of the audio context is a parameter,
  since it belongs to the engine.
- FqToSound.Player.PlayChords: the `import('tone')` at the top of
  `playChords` is a separate import that does not go through the cached
  container. It is not logged.
- FqToSound.Player.PlayChords: the `await`s are modelled as sequential steps.
  Races between overlapping plays on the instrument cache are not modelled.
- The route table (`src/router/index.ts`) and the styling configuration
  (`tailwind.config.js`) hold no logic of the core and are not part of this model.

## Findings

| source | as written | input that shows it | evidently intended | confidence | as-written member | corrected member |
|---|---|---|---|---|---|---|
| src/services/settings.ts:2 against src/services/theoryToFq.ts:13-45, 74 | the major list offers the token "IV", but the table has only "IVmaj7", "iv" and "ivm7" | notationToChord(any tonic, 'IV') destructures `undefined` and throws | "IV" is the major triad on the fourth degree: interval P4, quality M | not executed | Settings.MajorLacksSubdominant | TheoryToFq.CorrectedTableFollowsNumerals, Settings.MajorResolvesCorrected |
