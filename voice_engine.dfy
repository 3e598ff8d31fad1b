/**
 * The voice interface XvmAudioSystem drives: a newer Engine/Channel API whose
 * implementation is not part of this model.  It is stated abstractly, with exactly
 * the operations the facade calls: a voice reports whether it is free, plays a sound
 * (answering whether it started), takes a volume and stops; the engine is set up with
 * a voice count, a pitch mode and an FFT switch, hands out its voices, reports whether
 * it runs, and starts and stops.
 */
module VoiceEngines {
  import opened Wrappers
  import Channels

  /** The pitch modes: the time-pitch (time stretch) unit, varispeed, or any other tag. */
  datatype PitchMode = TimePitch | Varispeed | OtherMode

  /**
   * The Float pitch handed to a voice: a cent offset for the time-pitch unit, or the
   * varispeed rate 2^(semitones / 12), written by its semitone count so that it stays
   * exact (Rate(0) is the rate 1.0).
   */
  datatype PitchArg = Cents(cents: int) | Rate(semitones: int)

  /** One playback voice. */
  class Voice {
    const id: int
    var playing: bool
    /** Volume in hundredths (100 is unity gain). */
    var volume: int

    /** A free voice, one not playing. */
    predicate IsAvailable()
      reads this
    {
      !playing
    }

    constructor (withId: int)
      ensures id == withId && !playing && volume == 100
    {
      id := withId;
      playing := false;
      volume := 100;
    }

    /**
     * playSound: when the voice starts (`started`), it is playing at the requested
     * volume; when it does not, it is left as it was.
     */
    method PlaySound(name: string, withVolume: int, pitch: PitchArg, pan: int, loop: bool,
                     filterCutoff: int, started: bool) returns (ok: bool)
      modifies this
      ensures ok == started
      ensures ok ==> playing && volume == withVolume
      ensures !ok ==> playing == old(playing) && volume == old(volume)
    {
      ok := started;
      if started {
        playing := true;
        volume := withVolume;
      }
    }

    method SetVolume(v: int)
      modifies this`volume
      ensures volume == v
    {
      volume := v;
    }

    method StopPlayback()
      modifies this`playing
      ensures !playing
    {
      playing := false;
    }
  }

  /** The shared engine behind XvmAudioSystem. */
  class VoiceEngine {
    var running: bool
    var voices: seq<Voice>
    var pitchMode: PitchMode
    var fftEnabled: bool

    constructor ()
      ensures !running && voices == [] && pitchMode == TimePitch && !fftEnabled
    {
      running, voices, pitchMode, fftEnabled := false, [], TimePitch, false;
    }

    function IsRunning(): bool
      reads this
    {
      running
    }

    method StartEngine()
      modifies this`running
      ensures running
    {
      running := true;
    }

    method StopEngine()
      modifies this`running
      ensures !running
    {
      running := false;
    }

    /**
     * setup(withChannelTotal:withPitchMode:enableFFT:): n new free voices with ids
     * 0..n-1; answers the remote I/O unit, or nil (`remoteIo`, from the OS).
     */
    method Setup(n: nat, mode: PitchMode, enableFft: bool, remoteIo: Option<Channels.UnitId>)
      returns (r: Option<Channels.UnitId>)
      modifies this`voices, this`pitchMode, this`fftEnabled
      ensures r == remoteIo
      ensures pitchMode == mode && fftEnabled == enableFft
      ensures |voices| == n
      ensures forall i :: 0 <= i < n ==> fresh(voices[i]) && voices[i].id == i && voices[i].IsAvailable()
      ensures forall i, j :: 0 <= i < j < n ==> voices[i] != voices[j]
    {
      pitchMode, fftEnabled := mode, enableFft;
      var vs: seq<Voice> := [];
      for c := 0 to n
        modifies {}
        invariant |vs| == c
        invariant forall i :: 0 <= i < c ==> fresh(vs[i]) && vs[i].id == i && vs[i].IsAvailable()
        invariant forall i, j :: 0 <= i < j < c ==> vs[i] != vs[j]
      {
        var v := new Voice(c);
        vs := vs + [v];
      }
      voices := vs;
      r := remoteIo;
    }

    /** getChannels: the engine's voices. */
    method GetChannels() returns (vs: seq<Voice>)
      ensures vs == voices
    {
      vs := voices;
    }
  }
}
