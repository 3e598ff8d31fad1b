/**
 * XvmAudioSystem (XvAudioSystem/Public/XvmAudioSystem.swift): the newer facade over a
 * pool of voices.  A note name is turned into the pitch argument of the current pitch
 * mode, the first free voice plays the sound, per-voice volumes are set by index,
 * interruptions stop and restart the engine, and shutdown silences and stops every
 * voice.  The facade records the calls it makes on the engine and the voices in
 * `trace`, so their order can be stated.
 */
module XvmAudio {
  import opened Wrappers
  import opened Utils
  import opened VoiceEngines
  import opened Pools

  /** The calls the facade makes on the engine and its voices. */
  datatype VoiceCall =
    | StartEngineCall
    | StopEngineCall
    | PlayOn(id: int, pitch: PitchArg)
    | SetVolumeOn(id: int, volume: int)
    | StopPlaybackOn(id: int)

  // ---------------------------------------------------------------------------
  // Pitch-mode dispatch
  // ---------------------------------------------------------------------------

  /**
   * playSound(name:volume:pitch:String...): in time-pitch mode the cents from C3, or 0
   * when the note does not parse; in varispeed mode the rate 2^(delta / 12) for the
   * semitone delta from C3, or 1.0 when the note does not parse; otherwise 0.
   */
  function ConvertPitch(mode: PitchMode, note: string): (p: PitchArg)
    ensures mode == TimePitch ==>
              p == if MidiNumber(note).Some? then Cents((MidiNumber(note).value - 48) * 100) else Cents(0)
    ensures mode == Varispeed ==>
              p == if MidiNumber(note).Some? then Rate(MidiNumber(note).value - 48) else Rate(0)
    ensures mode == OtherMode ==> p == Cents(0)
  {
    MidiOfC3();
    match mode
    case TimePitch => Cents(PitchShiftCents(note, DefaultBase).GetOr(0))
    case Varispeed => Rate(VarispeedSemitones(note, DefaultBase).GetOr(0))
    case OtherMode => Cents(0)
  }

  /** Pitching a C3 is neutral in every mode: no cents and the rate 1.0. */
  lemma BaseNoteIsNeutral(mode: PitchMode)
    ensures ConvertPitch(mode, DefaultBase) == if mode == Varispeed then Rate(0) else Cents(0)
  {
    MidiOfC3();
  }

  /** An unparsable note is pitched like C3. */
  lemma UnparsedNoteIsNeutral(mode: PitchMode, note: string)
    requires MidiNumber(note).None?
    ensures ConvertPitch(mode, note) == ConvertPitch(mode, DefaultBase)
  {
    BaseNoteIsNeutral(mode);
  }

  lemma ConvertPitchExamples()
    ensures ConvertPitch(TimePitch, "C4") == Cents(1200)
    ensures ConvertPitch(Varispeed, "A4") == Rate(21)
  {
    MidiOfC4();
    MidiOfA4();
  }

  // ---------------------------------------------------------------------------
  // Queries over the pool
  // ---------------------------------------------------------------------------

  /** For each voice, whether it is free. */
  function Free(cs: seq<Voice>): (r: seq<bool>)
    reads cs
    ensures |r| == |cs|
    ensures forall i :: 0 <= i < |cs| ==> r[i] == cs[i].IsAvailable()
  {
    if cs == [] then [] else [cs[0].IsAvailable()] + Free(cs[1..])
  }

  /**
   * Int((Double(busy) / Double(total) * 100).rounded()): the integer nearest to
   * 100 * busy / total, that is within half a unit of it (halves round up, away
   * from zero).
   */
  function RoundedPercent(busy: nat, total: nat): (r: int)
    requires total > 0
    ensures 200 * busy - total < 2 * total * r <= 200 * busy + total
  {
    var d := 2 * total;
    var m := 200 * busy + total;
    assert m == d * (m / d) + m % d;
    m / d
  }

  /** A rounded share of a whole lies between 0 and 100, and hits each end exactly. */
  lemma RoundedPercentBounds(busy: nat, total: nat)
    requires 0 < total && busy <= total
    ensures 0 <= RoundedPercent(busy, total) <= 100
    ensures RoundedPercent(busy, total) == 0 <==> 200 * busy < total
    ensures busy == total ==> RoundedPercent(busy, total) == 100
  {
    var r := RoundedPercent(busy, total);
    var d := 2 * total;
    if r <= -1 {
      MulAtLeast(d, r, -1);
    } else if r == 0 {
    } else if r <= 99 {
      MulAtLeast(d, 1, r);
      MulAtLeast(d, r, 99);
    } else if r == 100 {
    } else {
      MulAtLeast(d, 101, r);
    }
  }

  // ---------------------------------------------------------------------------
  // The facade
  // ---------------------------------------------------------------------------

  /** The calls shutdown makes on the voices, in order. */
  function ShutdownCalls(cs: seq<Voice>): (calls: seq<VoiceCall>)
    ensures |calls| == 2 * |cs|
    ensures forall i :: 0 <= i < |cs| ==>
              calls[2 * i] == SetVolumeOn(cs[i].id, 0) && calls[2 * i + 1] == StopPlaybackOn(cs[i].id)
  {
    if cs == [] then []
    else
      var rest := ShutdownCalls(cs[..|cs| - 1]);
      assert forall i :: 0 <= i < |cs| - 1 ==> cs[..|cs| - 1][i] == cs[i];
      rest + [SetVolumeOn(cs[|cs| - 1].id, 0), StopPlaybackOn(cs[|cs| - 1].id)]
  }

  class XvmAudioSystem {
    /** Engine.sharedInstance. */
    const engine: VoiceEngine
    var channels: seq<Voice>
    var channelTotal: int
    var pitchMode: PitchMode
    var trace: seq<VoiceCall>

    /** The voices are distinct objects. */
    predicate Valid()
      reads this
    {
      forall i, j :: 0 <= i < j < |channels| ==> channels[i] != channels[j]
    }

    constructor (shared: VoiceEngine)
      ensures engine == shared && channels == [] && channelTotal == 1 && pitchMode == TimePitch
      ensures trace == [] && Valid()
    {
      engine := shared;
      channels, channelTotal, pitchMode, trace := [], 1, TimePitch, [];
    }

    /**
     * setup(withChannelTotal:withPitchMode:enableFFT:): records the total and the mode,
     * sets the engine up and, when it answers a remote I/O unit, takes its voices.
     */
    method Setup(withChannelTotal: nat, withPitchMode: PitchMode, enableFft: bool,
                 remoteIo: Option<Channels.UnitId>) returns (r: Option<Channels.UnitId>)
      requires Valid()
      modifies this`channelTotal, this`pitchMode, this`channels, engine`voices, engine`pitchMode, engine`fftEnabled
      ensures Valid()
      ensures r == remoteIo && channelTotal == withChannelTotal && pitchMode == withPitchMode
      ensures channels == if remoteIo.Some? then engine.voices else old(channels)
      ensures remoteIo.Some? ==> |channels| == withChannelTotal && forall i :: 0 <= i < |channels| ==>
                fresh(channels[i]) && channels[i].id == i && channels[i].IsAvailable()
    {
      channelTotal := withChannelTotal;
      pitchMode := withPitchMode;
      var unit := engine.Setup(channelTotal, pitchMode, enableFft, remoteIo);
      if unit.Some? {
        channels := engine.GetChannels();
        return unit;
      }
      return None;
    }

    /** getAvailableChannel: the first free voice, by position. */
    function GetAvailableChannel(): (r: Option<nat>)
      reads this, channels
      ensures r.Some? ==> r.value < |channels| && channels[r.value].IsAvailable()
                          && forall j :: 0 <= j < r.value ==> !channels[j].IsAvailable()
      ensures r.None? ==> forall j :: 0 <= j < |channels| ==> !channels[j].IsAvailable()
    {
      FirstFree(Free(channels))
    }

    /** isChannelAvailable: some voice is free. */
    function IsChannelAvailable(): (b: bool)
      reads this, channels
      ensures b <==> exists i :: 0 <= i < |channels| && channels[i].IsAvailable()
    {
      GetAvailableChannel().Some?
    }

    /**
     * playSound(name:volume:pitch:Float...): -1 when every voice is busy, touching
     * nothing; otherwise starts the engine if it is not running, asks the first free voice
     * to play (`started` is whether it did) and answers that voice's id, or -1.
     */
    method PlaySound(name: string, volume: int, pitch: PitchArg, pan: int, loop: bool, filterCutoff: int,
                     started: bool) returns (r: int)
      requires Valid()
      modifies this`trace, engine`running, channels
      ensures match old(GetAvailableChannel())
              case None =>
                && r == -1 && trace == old(trace) && engine.running == old(engine.running)
                && forall i :: 0 <= i < |channels| ==>
                     channels[i].playing == old(channels[i].playing) && channels[i].volume == old(channels[i].volume)
              case Some(k) =>
                && trace == old(trace) + (if old(engine.running) then [] else [StartEngineCall])
                                       + [PlayOn(channels[k].id, pitch)]
                && engine.running
                && r == (if started then channels[k].id else -1)
                && (started ==> channels[k].playing && channels[k].volume == volume)
                && forall i :: 0 <= i < |channels| && (i != k || !started) ==>
                     channels[i].playing == old(channels[i].playing) && channels[i].volume == old(channels[i].volume)
    {
      var k := GetAvailableChannel();
      if k.None? {
        return -1;
      }
      var channel := channels[k.value];
      if !engine.IsRunning() {
        engine.StartEngine();
        trace := trace + [StartEngineCall];
      }
      var ok := channel.PlaySound(name, volume, pitch, pan, loop, filterCutoff, started);
      trace := trace + [PlayOn(channel.id, pitch)];
      if ok {
        return channel.id;
      }
      return -1;
    }

    /** playSound(name:volume:pitch:String...): the pitch of the current mode for the note. */
    method PlaySoundAtNote(name: string, volume: int, note: string, pan: int, loop: bool, filterCutoff: int,
                           started: bool) returns (r: int)
      requires Valid()
      modifies this`trace, engine`running, channels
      ensures match old(GetAvailableChannel())
              case None =>
                && r == -1 && trace == old(trace) && engine.running == old(engine.running)
                && forall i :: 0 <= i < |channels| ==>
                     channels[i].playing == old(channels[i].playing) && channels[i].volume == old(channels[i].volume)
              case Some(k) =>
                && trace == old(trace) + (if old(engine.running) then [] else [StartEngineCall])
                                       + [PlayOn(channels[k].id, ConvertPitch(pitchMode, note))]
                && engine.running
                && r == (if started then channels[k].id else -1)
                && (started ==> channels[k].playing && channels[k].volume == volume)
                && forall i :: 0 <= i < |channels| && (i != k || !started) ==>
                     channels[i].playing == old(channels[i].playing) && channels[i].volume == old(channels[i].volume)
    {
      r := PlaySound(name, volume, ConvertPitch(pitchMode, note), pan, loop, filterCutoff, started);
    }

    /** set(volume:forChannel:): only the voice at a valid index takes the volume. */
    method SetVolume(volume: int, index: int)
      requires Valid()
      modifies this`trace, if 0 <= index < |channels| then {channels[index]} else {}
      ensures 0 <= index < |channels| ==>
                channels[index].volume == volume && trace == old(trace) + [SetVolumeOn(channels[index].id, volume)]
      ensures !(0 <= index < |channels|) ==> trace == old(trace)
      ensures forall i :: 0 <= i < |channels| && i != index ==> channels[i].volume == old(channels[i].volume)
      ensures forall i :: 0 <= i < |channels| ==> channels[i].playing == old(channels[i].playing)
    {
      if !(0 <= index < |channels|) {
        return;
      }
      channels[index].SetVolume(volume);
      trace := trace + [SetVolumeOn(channels[index].id, volume)];
    }

    /** beginInterruption: stops the engine. */
    method BeginInterruption()
      modifies this`trace, engine`running
      ensures !engine.running && trace == old(trace) + [StopEngineCall]
    {
      engine.StopEngine();
      trace := trace + [StopEngineCall];
    }

    /** endInterruption: starts the engine. */
    method EndInterruption()
      modifies this`trace, engine`running
      ensures engine.running && trace == old(trace) + [StartEngineCall]
    {
      engine.StartEngine();
      trace := trace + [StartEngineCall];
    }

    /** shutdown: every voice gets volume 0 and is stopped, in order; then the engine stops. */
    method Shutdown()
      requires Valid()
      modifies this`trace, engine`running, channels
      ensures forall i :: 0 <= i < |channels| ==> channels[i].volume == 0 && !channels[i].playing
      ensures !engine.running
      ensures trace == old(trace) + ShutdownCalls(channels) + [StopEngineCall]
    {
      for c := 0 to |channels|
        modifies this`trace, channels
        invariant forall i :: 0 <= i < c ==> channels[i].volume == 0 && !channels[i].playing
        invariant trace == old(trace) + ShutdownCalls(channels[..c])
      {
        var voice := channels[c];
        voice.SetVolume(0);
        voice.StopPlayback();
        trace := trace + [SetVolumeOn(voice.id, 0), StopPlaybackOn(voice.id)];
        assert channels[..c + 1][..c] == channels[..c];
      }
      assert channels[..|channels|] == channels;
      engine.StopEngine();
      trace := trace + [StopEngineCall];
    }

    /**
     * getPercentageOfBusyChannels: 0 for an empty pool, otherwise the busy share of the
     * voices as a rounded percentage.
     */
    function GetPercentageOfBusyChannels(): (r: int)
      reads this, channels
      ensures 0 <= r <= 100
      ensures |channels| == 0 ==> r == 0
      ensures (forall i :: 0 <= i < |channels| ==> channels[i].IsAvailable()) ==> r == 0
      ensures |channels| > 0 && (forall i :: 0 <= i < |channels| ==> !channels[i].IsAvailable()) ==> r == 100
      ensures |channels| > 0 ==>
                var busy := CountBusy(Free(channels));
                200 * busy - |channels| < 2 * |channels| * r <= 200 * busy + |channels|
    {
      if |channels| == 0 then 0
      else
        var busy := CountBusy(Free(channels));
        RoundedPercentBounds(busy, |channels|);
        RoundedPercent(busy, |channels|)
    }
  }
}
