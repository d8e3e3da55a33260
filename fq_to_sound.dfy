/**
 * Playback of a chord progression through the audio engine. The engine is
 * seen only through the calls made to it, which are kept in order in a log;
 * every object the engine hands back (the lazily imported library, the sample
 * library, an instrument, a part) is a handle carrying the position in the
 * log of the call that created it.
 */
module FqToSound {
  import opened Wrappers

  /** One chord of a progression: when it sounds, and its notes by name. */
  datatype PartElement = PartElement(time: string, chord: seq<string>)

  /** An instrument: a polyphonic synthesizer or a sampler loaded with one sample set. */
  datatype Instrument = PolySynth(id: nat) | Sampler(id: nat, list: string)

  /** The imported engine library, kept once loaded. */
  datatype ToneImports = ToneImports(id: nat)

  /** The sample library, constructed at most once. */
  datatype SampleLibrary = SampleLibrary(id: nat)

  /** A part: a score that calls back the instrument once per element while the transport runs. */
  datatype Part = Part(id: nat, instrument: Instrument, score: seq<PartElement>)

  /** The calls the player makes to the audio engine. */
  datatype EngineCall =
    | ImportTone
    | NewSampleLibrary
    | NewPolySynth(id: nat)
    | LoadSample(id: nat, list: string)
    | ResumeContext
    | StartAudio
    | ReleaseAll(instrument: Instrument)
    | TransportStop
    | TransportCancel
    | NewPart(part: Part)
    | PartStop(part: Part)
    | PartStart(part: Part, offset: int)
    | SetPosition(position: int)
    | TransportStart
    | TriggerAttackRelease(instrument: Instrument, notes: seq<string>, duration: string, time: string)

  /** Every chord is held for a quarter note. */
  const ChordDuration: string := "4n"

  /** The calls the part makes back to its instrument, one per element, in order. */
  function Triggers(instrument: Instrument, score: seq<PartElement>): (r: seq<EngineCall>)
    ensures |r| == |score|
    ensures forall k :: 0 <= k < |score| ==>
      r[k] == TriggerAttackRelease(instrument, score[k].chord, ChordDuration, score[k].time)
  {
    if score == [] then []
    else [TriggerAttackRelease(instrument, score[0].chord, ChordDuration, score[0].time)] + Triggers(instrument, score[1..])
  }

  /** Playing two scores one after the other plays both, in order. */
  lemma {:induction false} TriggersAppend(instrument: Instrument, s1: seq<PartElement>, s2: seq<PartElement>)
    ensures Triggers(instrument, s1 + s2) == Triggers(instrument, s1) + Triggers(instrument, s2)
    decreases |s1|
  {
    if s1 == [] {
      assert s1 + s2 == s2;
    } else {
      assert (s1 + s2)[1..] == s1[1..] + s2;
      TriggersAppend(instrument, s1[1..], s2);
    }
  }

  /** `pending` without `p`. */
  function Remove(pending: seq<Part>, p: Part): (r: seq<Part>)
    ensures forall q :: q in r <==> q in pending && q != p
    ensures |r| <= |pending|
  {
    if pending == [] then []
    else if pending[0] == p then Remove(pending[1..], p)
    else [pending[0]] + Remove(pending[1..], p)
  }

  /**
   * The parts that will play once the transport runs, after one more call:
   * cancelling the transport drops every scheduled part, starting a part
   * schedules it, stopping a part unschedules it.
   */
  function Step(pending: seq<Part>, c: EngineCall): seq<Part> {
    match c
    case TransportCancel => []
    case PartStart(p, _) => if p in pending then pending else pending + [p]
    case PartStop(p) => Remove(pending, p)
    case _ => pending
  }

  /** The parts scheduled after a stretch of calls, starting from `pending`. */
  function ScheduleAfter(pending: seq<Part>, calls: seq<EngineCall>): seq<Part>
    decreases |calls|
  {
    if calls == [] then pending
    else ScheduleAfter(Step(pending, calls[0]), calls[1..])
  }

  /** The parts scheduled by a whole log. */
  function Scheduled(calls: seq<EngineCall>): seq<Part> {
    ScheduleAfter([], calls)
  }

  /** Scheduling over two stretches of the log composes. */
  lemma {:induction false} ScheduleAfterAppend(pending: seq<Part>, a: seq<EngineCall>, b: seq<EngineCall>)
    ensures ScheduleAfter(pending, a + b) == ScheduleAfter(ScheduleAfter(pending, a), b)
    decreases |a|
  {
    if a == [] {
      assert a + b == b;
    } else {
      assert (a + b)[1..] == a[1..] + b;
      ScheduleAfterAppend(Step(pending, a[0]), a[1..], b);
    }
  }

  /** Whatever was scheduled before a cancel never plays: only what follows it counts. */
  lemma CancelForgets(a: seq<EngineCall>, b: seq<EngineCall>)
    ensures Scheduled(a + [TransportCancel] + b) == Scheduled(b)
  {
    ScheduleAfterAppend([], a + [TransportCancel], b);
    ScheduleAfterAppend([], a, [TransportCancel]);
  }

  /** What the scheduled parts make their instruments play once the transport runs. */
  function Performance(parts: seq<Part>): seq<EngineCall> {
    if parts == [] then [] else Triggers(parts[0].instrument, parts[0].score) + Performance(parts[1..])
  }

  /** The calls that wake the audio context when it is not running. */
  function ContextSetup(contextRunning: bool): seq<EngineCall> {
    if contextRunning then [] else [ResumeContext, StartAudio]
  }

  /** The calls that create a synthesizer, importing the library first when it is not yet imported. */
  function SynthCreation(imported: bool, synth: Instrument): seq<EngineCall> {
    (if imported then [] else [ImportTone]) + [NewPolySynth(synth.id)]
  }

  /** The calls that construct the sample library when it is not yet built, importing the library first if needed. */
  function SampleLibraryCreation(built: bool, imported: bool): seq<EngineCall> {
    if built then [] else (if imported then [] else [ImportTone]) + [NewSampleLibrary]
  }

  /** The calls that load a sampler, constructing the sample library first if needed. */
  function SamplerCreation(built: bool, imported: bool, sampler: Instrument): seq<EngineCall>
    requires sampler.Sampler?
  {
    SampleLibraryCreation(built, imported) + [LoadSample(sampler.id, sampler.list)]
  }

  /** The calls a lookup in the instrument cache makes: none on a hit, a synthesizer's creation on a miss. */
  function CacheFill(hit: bool, imported: bool, instrument: Instrument): seq<EngineCall> {
    if hit then [] else SynthCreation(imported, instrument)
  }

  /**
   * The engine calls of a fresh part, from the stop of the old transport to
   * the start of the new one, which is rewound to its beginning first.
   */
  function PlaySuffix(instrument: Instrument, part: Part): seq<EngineCall> {
    [ReleaseAll(instrument), TransportStop, TransportCancel, NewPart(part), PartStop(part),
     StartAudio, PartStart(part, 0), SetPosition(0), TransportStart]
  }

  /** The calls that follow the cancel of a play: from nothing scheduled, they schedule exactly the new part. */
  function FreshPartCalls(part: Part): seq<EngineCall> {
    [NewPart(part), PartStop(part), StartAudio, PartStart(part, 0), SetPosition(0), TransportStart]
  }

  /** Stopping a part that is not scheduled, then starting it, leaves exactly that part scheduled. */
  lemma FreshPartScheduled(part: Part)
    ensures ScheduleAfter([], FreshPartCalls(part)) == [part]
  {
    var rest := FreshPartCalls(part);
    assert ScheduleAfter([], rest) == ScheduleAfter([], rest[1..]);
    assert ScheduleAfter([], rest[1..]) == ScheduleAfter(Remove([], part), rest[2..]);
    assert ScheduleAfter([], rest[2..]) == ScheduleAfter([], rest[3..]);
    assert Step([], PartStart(part, 0)) == [] + [part] == [part];
    assert ScheduleAfter([], rest[3..]) == ScheduleAfter([part], rest[4..]);
    assert ScheduleAfter([part], rest[4..]) == ScheduleAfter([part], rest[5..]);
    assert ScheduleAfter([part], rest[5..]) == ScheduleAfter([part], []);
  }

  /** After a play, exactly the new part is scheduled, whatever any earlier play left behind. */
  lemma PlaySchedulesOnlyItsPart(before: seq<EngineCall>, instrument: Instrument, part: Part)
    ensures Scheduled(before + PlaySuffix(instrument, part)) == [part]
    ensures Performance(Scheduled(before + PlaySuffix(instrument, part))) == Triggers(part.instrument, part.score)
  {
    var rest := FreshPartCalls(part);
    assert before + PlaySuffix(instrument, part) == before + [ReleaseAll(instrument), TransportStop] + [TransportCancel] + rest;
    CancelForgets(before + [ReleaseAll(instrument), TransportStop], rest);
    FreshPartScheduled(part);
    assert Triggers(part.instrument, part.score) + [] == Triggers(part.instrument, part.score);
  }

  /** The module-level state of the player and the calls it has made. */
  class Player {
    var toneImports: Option<ToneImports>
    var sampleLibrary: Option<SampleLibrary>
    var loadedInstruments: map<string, Instrument>
    var transportPosition: int
    var calls: seq<EngineCall>

    /** `i` is a synthesizer created by the call at position `i.id` of the log. */
    ghost predicate CreatedSynth(i: Instrument)
      reads this
    {
      i.PolySynth? && i.id < |calls| && calls[i.id] == NewPolySynth(i.id)
    }

    /**
     * The library is imported and the sample library constructed at most
     * once: every such call in the log is the one its handle names, the
     * library first. Every cached instrument is a synthesizer the log created.
     */
    ghost predicate Valid()
      reads this
    {
      && (forall k | 0 <= k < |calls| && calls[k] == ImportTone :: toneImports == Some(ToneImports(k)))
      && (forall k | 0 <= k < |calls| && calls[k] == NewSampleLibrary :: sampleLibrary == Some(SampleLibrary(k)))
      && (toneImports.Some? ==> toneImports.value.id < |calls| && calls[toneImports.value.id] == ImportTone)
      && (sampleLibrary.Some? ==>
            && toneImports.Some? && toneImports.value.id < sampleLibrary.value.id < |calls|
            && calls[sampleLibrary.value.id] == NewSampleLibrary)
      && (forall name | name in loadedInstruments :: CreatedSynth(loadedInstruments[name]))
    }

    /** Nothing loaded, nothing called. */
    constructor()
      ensures Valid()
      ensures toneImports == None && sampleLibrary == None
      ensures loadedInstruments == map[] && transportPosition == 0 && calls == []
    {
      toneImports := None;
      sampleLibrary := None;
      loadedInstruments := map[];
      transportPosition := 0;
      calls := [];
    }

    /** Appends calls that create nothing the invariant tracks. */
    method RecordAll(cs: seq<EngineCall>)
      requires Valid()
      requires forall k :: 0 <= k < |cs| ==> cs[k] != ImportTone && cs[k] != NewSampleLibrary && !cs[k].NewPolySynth?
      modifies this`calls
      ensures Valid()
      ensures calls == old(calls) + cs
    {
      calls := calls + cs;
    }

    /** Imports the library on first use; later uses get the same imports back and call nothing. */
    method GetToneLib() returns (lib: ToneImports)
      requires Valid()
      modifies this`toneImports, this`calls
      ensures Valid()
      ensures toneImports == Some(lib)
      ensures old(toneImports).Some? ==> lib == old(toneImports).value && calls == old(calls)
      ensures old(toneImports).None? ==> lib == ToneImports(|old(calls)|) && calls == old(calls) + [ImportTone]
    {
      if toneImports.None? {
        toneImports := Some(ToneImports(|calls|));
        calls := calls + [ImportTone];
      }
      lib := toneImports.value;
    }

    /** A new synthesizer routed to the output, after importing the library if needed. */
    method CreateSynth() returns (synth: Instrument)
      requires Valid()
      modifies this`toneImports, this`calls
      ensures Valid()
      ensures toneImports.Some? && (old(toneImports).Some? ==> toneImports == old(toneImports))
      ensures calls == old(calls) + SynthCreation(old(toneImports).Some?, synth)
      ensures synth == PolySynth(|calls| - 1)
    {
      var _ := GetToneLib();
      synth := PolySynth(|calls|);
      calls := calls + [NewPolySynth(synth.id)];
    }

    /** Constructs the sample library on first use, after importing the library; later uses call nothing. */
    method GetSampleLibrary() returns (library: SampleLibrary)
      requires Valid()
      modifies this`toneImports, this`sampleLibrary, this`calls
      ensures Valid()
      ensures sampleLibrary == Some(library)
      ensures old(sampleLibrary).Some? ==> library == old(sampleLibrary).value && toneImports == old(toneImports)
      ensures old(toneImports).Some? ==> toneImports == old(toneImports)
      ensures calls == old(calls) + SampleLibraryCreation(old(sampleLibrary).Some?, old(toneImports).Some?)
    {
      if sampleLibrary.None? {
        var _ := GetToneLib();
        sampleLibrary := Some(SampleLibrary(|calls|));
        calls := calls + [NewSampleLibrary];
      }
      library := sampleLibrary.value;
    }

    /**
     * A sampler loaded with the sample set `instrumentName`; the sample
     * library is constructed on first use, after importing the library.
     */
    method LoadSampler(instrumentName: string) returns (sampler: Instrument)
      requires Valid()
      modifies this`toneImports, this`sampleLibrary, this`calls
      ensures Valid()
      ensures sampleLibrary.Some? && (old(sampleLibrary).Some? ==> sampleLibrary == old(sampleLibrary))
      ensures old(sampleLibrary).Some? ==> toneImports == old(toneImports)
      ensures old(toneImports).Some? ==> toneImports == old(toneImports)
      ensures sampler == Sampler(|calls| - 1, instrumentName)
      ensures calls == old(calls) + SamplerCreation(old(sampleLibrary).Some?, old(toneImports).Some?, sampler)
    {
      var _ := GetSampleLibrary();
      sampler := Sampler(|calls|, instrumentName);
      RecordAll([LoadSample(sampler.id, instrumentName)]);
    }

    /** The instrument of a name: the synthesizer for "synth", otherwise a sampler of that sample set. */
    method CreateInstrument(instrumentName: string) returns (instrument: Instrument)
      requires Valid()
      modifies this`toneImports, this`sampleLibrary, this`calls
      ensures Valid()
      ensures instrument.PolySynth? <==> instrumentName == "synth"
      ensures instrument.Sampler? ==> instrument.list == instrumentName
      ensures instrument.id == |calls| - 1 && |old(calls)| < |calls|
      ensures toneImports.Some? && (old(toneImports).Some? ==> toneImports == old(toneImports))
      ensures instrumentName == "synth" ==> sampleLibrary == old(sampleLibrary)
      ensures instrumentName != "synth" ==>
        sampleLibrary.Some? && (old(sampleLibrary).Some? ==> sampleLibrary == old(sampleLibrary))
      ensures calls == old(calls) + (if instrumentName == "synth"
        then SynthCreation(old(toneImports).Some?, instrument)
        else SamplerCreation(old(sampleLibrary).Some?, old(toneImports).Some?, instrument))
    {
      if instrumentName == "synth" {
        instrument := CreateSynth();
      } else {
        instrument := LoadSampler(instrumentName);
      }
    }

    /**
     * The instrument cached under `instrumentName`; when there is none, a new
     * synthesizer, whatever the name, cached under it. No other entry changes.
     */
    method CachedInstrument(instrumentName: string) returns (instrument: Instrument)
      requires Valid()
      modifies this`toneImports, this`loadedInstruments, this`calls
      ensures Valid()
      ensures loadedInstruments == old(loadedInstruments)[instrumentName := instrument]
      ensures calls == old(calls) + CacheFill(old(instrumentName in loadedInstruments), old(toneImports).Some?, instrument)
      ensures old(toneImports).Some? ==> toneImports == old(toneImports)
      ensures old(instrumentName in loadedInstruments) ==> instrument == old(loadedInstruments[instrumentName])
      ensures old(instrumentName !in loadedInstruments) ==> |calls| > 0 && instrument == PolySynth(|calls| - 1)
    {
      var cached: Option<Instrument> := if instrumentName in loadedInstruments then Some(loadedInstruments[instrumentName]) else None;
      if cached.None? {
        var synth := CreateSynth();
        loadedInstruments := loadedInstruments[instrumentName := synth];
        cached := Some(synth);
      }
      // The part's callback throws when the instrument is missing; once the
      // cache is filled it always holds one, so that guard never fires.
      assert cached.Some?;
      instrument := cached.value;
    }

    /**
     * Silences the instrument, stops and clears the transport, and schedules
     * a new part for the score from the transport's start, then rewinds and
     * starts the transport.
     */
    method StartPart(instrument: Instrument, chordScore: seq<PartElement>) returns (part: Part)
      requires Valid()
      modifies this`calls, this`transportPosition
      ensures Valid()
      ensures part == Part(|old(calls)| + 3, instrument, chordScore)
      ensures calls == old(calls) + PlaySuffix(instrument, part)
      ensures transportPosition == 0
      ensures Scheduled(calls) == [part]
      ensures Performance(Scheduled(calls)) == Triggers(instrument, chordScore)
    {
      ghost var before := calls;
      RecordAll([ReleaseAll(instrument), TransportStop, TransportCancel]);
      part := Part(|calls|, instrument, chordScore);
      RecordAll([NewPart(part), PartStop(part), StartAudio, PartStart(part, 0)]);
      transportPosition := 0;
      RecordAll([SetPosition(0), TransportStart]);
      assert calls == before + PlaySuffix(instrument, part);
      PlaySchedulesOnlyItsPart(before, instrument, part);
    }

    /**
     * Plays a progression on the instrument cached under `instrumentName`,
     * creating and caching a synthesizer under that name first if there is
     * none. The audio context is resumed and started when it is not running.
     */
    method PlayChords(chordScore: seq<PartElement>, instrumentName: string, contextRunning: bool) returns (part: Part)
      requires Valid()
      modifies this`toneImports, this`loadedInstruments, this`calls, this`transportPosition
      ensures Valid()
      ensures loadedInstruments == old(loadedInstruments)[instrumentName := part.instrument]
      ensures old(instrumentName in loadedInstruments) ==> part.instrument == old(loadedInstruments[instrumentName])
      ensures old(instrumentName !in loadedInstruments) ==> part.instrument.PolySynth? && old(|calls|) <= part.instrument.id
      ensures part.score == chordScore
      ensures calls == old(calls) + ContextSetup(contextRunning)
        + CacheFill(old(instrumentName in loadedInstruments), old(toneImports).Some?, part.instrument)
        + PlaySuffix(part.instrument, part)
      ensures sampleLibrary == old(sampleLibrary)
      ensures old(toneImports).Some? ==> toneImports == old(toneImports)
      ensures transportPosition == 0
      ensures Scheduled(calls) == [part]
      ensures Performance(Scheduled(calls)) == Triggers(part.instrument, chordScore)
    {
      RecordAll(ContextSetup(contextRunning));
      var instrument := CachedInstrument(instrumentName);
      part := StartPart(instrument, chordScore);
    }
  }
}
