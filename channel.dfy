/**
 * One playback voice (XvAudioSystem/Private/Channel.swift): a file player unit feeding
 * a time-pitch unit on one mixer bus.  The channel remembers the open audio file and
 * the frame at which the scheduled sound ends; `isAvailable` compares the player's
 * current play time with that end frame and recycles a finished voice.
 *
 * Every Audio Unit and Audio File call is external: its status is an input, and the
 * calls the channel issues are appended to a log so their order and arguments can be
 * stated.
 */
module Channels {
  import opened Wrappers

  const UInt32Limit: int := 0x1_0000_0000

  /** Swift's UInt32. */
  type UInt32 = x: int | 0 <= x < UInt32Limit

  /** An AudioFileID handle. */
  type FileId = nat

  /** An AudioUnit handle. */
  type UnitId = nat

  /** PatchedScheduledAudioFileRegion, without its (always nil) completion callback. */
  datatype Region = Region(sampleTime: int, file: FileId, loopCount: nat, startFrame: int,
                           framesToPlay: UInt32)

  /** The calls a channel makes on its player unit, its pitch unit and its audio file. */
  datatype PlayerCall =
    | ResetPlayer
    | SetPitchParameter(pitch: real)
    | OpenFile(name: string, fileExtension: string)
    | ScheduleFileIds(file: FileId)
    | ScheduleRegion(region: Region)
    | PrimeFile(frames: nat)
    | ScheduleStart(sampleTime: int)
    | CloseAudioFile(file: FileId)

  /** What the CurrentPlayTime property query reports: its status and the sample time. */
  datatype PlayTime = PlayTime(ok: bool, sampleTime: real)

  /** UInt32(Double) traps at 2^32 and above. */
  predicate FrameFits(t: PlayTime) { t.ok && t.sampleTime > 0.0 ==> t.sampleTime < UInt32Limit as real }

  /** The OS answers one isAvailable call receives. */
  datatype Probe = Probe(time: PlayTime, resetOk: bool, closeOk: bool)

  /** The OS answers one play call receives. */
  datatype PlayEnv = PlayEnv(
    resetOk: bool,
    pitchOk: bool,
    loaded: Option<FileId>,             // _load: nil when the URL or AudioFileOpenURL fails
    framesPerPacket: Option<UInt32>,    // _getFormat: the file's mFramesPerPacket
    packets: Option<nat>,               // _getPackets: the data packet count
    fileIdsOk: bool,
    regionOk: bool,
    primeOk: bool,
    startOk: bool)

  /** The file opened and both of its properties could be read. */
  predicate Measured(env: PlayEnv) {
    env.loaded.Some? && env.framesPerPacket.Some? && env.packets.Some?
  }

  /** UInt32(packets) * framesPerPacket traps unless both the conversion and the product fit. */
  predicate EndFrameFits(env: PlayEnv) {
    Measured(env) ==> env.packets.value < UInt32Limit
                      && env.packets.value * env.framesPerPacket.value < UInt32Limit
  }

  /** The observable state of a channel: its end frame, its open file, and the calls made so far. */
  datatype ChannelState = ChannelState(endFrame: UInt32, audioFile: Option<FileId>, calls: seq<PlayerCall>)

  /** A channel as it is created: nothing scheduled, no file. */
  const Fresh: ChannelState := ChannelState(0, None, [])

  // ---------------------------------------------------------------------------
  // The channel's operations as functions of its state
  // ---------------------------------------------------------------------------

  /** _getCurrentFrame: 0 on error or a non-positive time, otherwise the time truncated. */
  function CurrentFrame(t: PlayTime): (frame: UInt32)
    requires FrameFits(t)
    ensures !t.ok || t.sampleTime <= 0.0 ==> frame == 0
    ensures t.ok && t.sampleTime > 0.0 ==> frame as real <= t.sampleTime < frame as real + 1.0
  {
    if t.ok && t.sampleTime > 0.0 then t.sampleTime.Floor else 0
  }

  /** _resetAudioPlayer: resets the player unit; reports the status. */
  function ResetStep(st: ChannelState, resetOk: bool): (res: (bool, ChannelState))
    ensures res.0 == resetOk
    ensures res.1 == st.(calls := st.calls + [ResetPlayer])
  {
    (resetOk, st.(calls := st.calls + [ResetPlayer]))
  }

  /**
   * _closeFile: with no open file it reports false and does nothing; otherwise it
   * closes the file and forgets it only if the close succeeded.
   */
  function CloseStep(st: ChannelState, closeOk: bool): (res: (bool, ChannelState))
    ensures res.0 <==> st.audioFile.Some? && closeOk
    ensures st.audioFile.None? ==> res.1 == st
    ensures st.audioFile.Some? ==> res.1.calls == st.calls + [CloseAudioFile(st.audioFile.value)]
    ensures res.1.audioFile == if res.0 then None else st.audioFile
    ensures res.1.endFrame == st.endFrame
  {
    match st.audioFile
    case None => (false, st)
    case Some(f) =>
      var logged := st.(calls := st.calls + [CloseAudioFile(f)]);
      if closeOk then (true, logged.(audioFile := None)) else (false, logged)
  }

  /** The three situations isAvailable distinguishes. */
  datatype Phase = Unused | Finished | Sounding

  function PhaseOf(frame: UInt32, endFrame: UInt32): (p: Phase)
    ensures p == Unused <==> frame == 0 && endFrame == 0
    ensures p == Finished <==> frame > endFrame
  {
    if frame == 0 && endFrame == 0 then Unused
    else if frame > endFrame then Finished
    else Sounding
  }

  /**
   * isAvailable: an unused channel is free and unchanged; a channel played past its end
   * frame resets its player, closes its file, and is free (with end frame 0) exactly when
   * the close succeeded; a channel still sounding is busy and unchanged.
   */
  function Availability(st: ChannelState, p: Probe): (res: (bool, ChannelState))
    requires FrameFits(p.time)
    ensures PhaseOf(CurrentFrame(p.time), st.endFrame) == Unused ==> res == (true, st)
    ensures PhaseOf(CurrentFrame(p.time), st.endFrame) == Sounding ==> res == (false, st)
    ensures PhaseOf(CurrentFrame(p.time), st.endFrame) == Finished ==>
              && res.0 == (st.audioFile.Some? && p.closeOk)
              && res.1.calls == st.calls + [ResetPlayer]
                                + (if st.audioFile.Some? then [CloseAudioFile(st.audioFile.value)] else [])
              && res.1.endFrame == (if res.0 then 0 else st.endFrame)
              && res.1.audioFile == (if res.0 then None else st.audioFile)
    ensures res.0 ==> res.1.endFrame == 0 && (res.1.audioFile.None? || res.1 == st)
  {
    match PhaseOf(CurrentFrame(p.time), st.endFrame)
    case Unused => (true, st)
    case Sounding => (false, st)
    case Finished =>
      var (_, afterReset) := ResetStep(st, p.resetOk);
      var (closed, afterClose) := CloseStep(afterReset, p.closeOk);
      (closed, if closed then afterClose.(endFrame := 0) else afterClose)
  }

  /** The region _initPlayer schedules: from time 0, no loop, frame 0 onwards, endFrame frames. */
  function WholeFile(file: FileId, endFrame: UInt32): Region {
    Region(0, file, 0, 0, endFrame)
  }

  /**
   * _initPlayer: schedules the open file, the region covering it, and a prime of 0
   * frames, stopping at the first failing call; false with no file open.
   */
  function InitPlayerStep(st: ChannelState, env: PlayEnv): (res: (bool, ChannelState))
    ensures res.0 <==> st.audioFile.Some? && env.fileIdsOk && env.regionOk && env.primeOk
    ensures res.1.endFrame == st.endFrame && res.1.audioFile == st.audioFile
    ensures st.audioFile.None? ==> res.1 == st
    ensures st.calls <= res.1.calls
    ensures forall k | |st.calls| <= k < |res.1.calls| && res.1.calls[k].ScheduleRegion? ::
              res.1.calls[k].region == WholeFile(st.audioFile.value, st.endFrame)
    ensures res.0 ==> res.1.calls == st.calls + [ScheduleFileIds(st.audioFile.value),
                                                 ScheduleRegion(WholeFile(st.audioFile.value, st.endFrame)),
                                                 PrimeFile(0)]
  {
    match st.audioFile
    case None => (false, st)
    case Some(f) =>
      var afterIds := st.calls + [ScheduleFileIds(f)];
      if !env.fileIdsOk then (false, st.(calls := afterIds))
      else
        var afterRegion := afterIds + [ScheduleRegion(WholeFile(f, st.endFrame))];
        if !env.regionOk then (false, st.(calls := afterRegion))
        else (env.primeOk, st.(calls := afterRegion + [PrimeFile(0)]))
  }

  /**
   * play: resets the player, sets the pitch, opens the file (replacing the channel's
   * file even when it fails), and, when the file's format and packet count can be read,
   * sets the end frame and schedules and starts the player.
   */
  function PlayStep(st: ChannelState, name: string, fileExtension: string, pitch: real, env: PlayEnv)
    : (res: (bool, ChannelState))
    requires EndFrameFits(env)
    ensures res.1.audioFile == env.loaded
    ensures res.1.endFrame == if Measured(env) then env.packets.value * env.framesPerPacket.value
                              else st.endFrame
    ensures res.0 == if Measured(env) && env.fileIdsOk && env.regionOk && env.primeOk
                     then env.startOk else env.pitchOk
    ensures |res.1.calls| > |st.calls| + 2
    ensures res.1.calls[..|st.calls|] == st.calls
    ensures res.1.calls[|st.calls|..|st.calls| + 3]
            == [ResetPlayer, SetPitchParameter(pitch), OpenFile(name, fileExtension)]
  {
    var (_, afterReset) := ResetStep(st, env.resetOk);
    var afterPitch := afterReset.(calls := afterReset.calls + [SetPitchParameter(pitch)]);
    var loaded := afterPitch.(audioFile := env.loaded,
                              calls := afterPitch.calls + [OpenFile(name, fileExtension)]);
    assert loaded.calls == st.calls + [ResetPlayer, SetPitchParameter(pitch), OpenFile(name, fileExtension)];
    if Measured(env) then
      var measured := loaded.(endFrame := env.packets.value * env.framesPerPacket.value);
      var (initOk, initialised) := InitPlayerStep(measured, env);
      if initOk then
        (env.startOk, initialised.(calls := initialised.calls + [ScheduleStart(-1)]))
      else
        (env.pitchOk, initialised)
    else
      (env.pitchOk, loaded)
  }

  /** reset: resets the player, closes the file, and always zeroes the end frame. */
  function ResetChannelStep(st: ChannelState, resetOk: bool, closeOk: bool): (r: ChannelState)
    ensures r.endFrame == 0
    ensures r.calls == st.calls + [ResetPlayer]
                       + (if st.audioFile.Some? then [CloseAudioFile(st.audioFile.value)] else [])
    ensures r.audioFile == if st.audioFile.Some? && closeOk then None else st.audioFile
  {
    var (_, afterReset) := ResetStep(st, resetOk);
    var (_, afterClose) := CloseStep(afterReset, closeOk);
    afterClose.(endFrame := 0)
  }

  // ---------------------------------------------------------------------------
  // Properties relating the operations
  // ---------------------------------------------------------------------------

  /** After reset, a player reporting frame 0 makes the channel available. */
  lemma ResetThenAvailable(st: ChannelState, resetOk: bool, closeOk: bool, p: Probe)
    requires FrameFits(p.time) && CurrentFrame(p.time) == 0
    ensures Availability(ResetChannelStep(st, resetOk, closeOk), p) == (true, ResetChannelStep(st, resetOk, closeOk))
  {
  }

  /** The reset status never affects isAvailable: the close result overwrites it. */
  lemma AvailabilityIgnoresResetStatus(st: ChannelState, p: Probe, resetOk: bool)
    requires FrameFits(p.time)
    ensures Availability(st, p) == Availability(st, p.(resetOk := resetOk))
  {
  }

  /** Closing twice: the second close reports false and changes nothing. */
  lemma CloseIdempotent(st: ChannelState, ok1: bool, ok2: bool)
    requires CloseStep(st, ok1).0
    ensures CloseStep(CloseStep(st, ok1).1, ok2) == (false, CloseStep(st, ok1).1)
  {
  }

  /**
   * A channel that was recycled (freed from the Finished phase) is free again at the
   * next query when its player reports frame 0.
   */
  lemma RecycledStaysFree(st: ChannelState, p: Probe, q: Probe)
    requires FrameFits(p.time) && FrameFits(q.time)
    requires Availability(st, p).0 && CurrentFrame(q.time) == 0
    ensures Availability(Availability(st, p).1, q) == (true, Availability(st, p).1)
  {
  }

  /**
   * A sound that was started is busy, and left alone, while the player's frame is
   * positive and has not passed the end frame.
   */
  lemma StartedIsBusy(st: ChannelState, name: string, ext: string, pitch: real, env: PlayEnv, p: Probe)
    requires EndFrameFits(env) && FrameFits(p.time)
    requires Measured(env)
    requires 0 < CurrentFrame(p.time) <= env.packets.value * env.framesPerPacket.value
    ensures var after := PlayStep(st, name, ext, pitch, env).1;
            Availability(after, p) == (false, after)
  {
  }

  /** When the file cannot be opened the channel reports the pitch setter's status. */
  lemma PlayWithoutFile(st: ChannelState, name: string, ext: string, pitch: real, env: PlayEnv)
    requires env.loaded.None?
    ensures PlayStep(st, name, ext, pitch, env).0 == env.pitchOk
    ensures PlayStep(st, name, ext, pitch, env).1.endFrame == st.endFrame
  {
  }

  /**
   * Every region a play schedules starts at time 0 and frame 0, does not loop, plays
   * exactly the new end frame's worth of frames, and names the newly opened file.
   */
  lemma PlayedRegion(st: ChannelState, name: string, ext: string, pitch: real, env: PlayEnv)
    requires EndFrameFits(env)
    ensures var after := PlayStep(st, name, ext, pitch, env).1;
            forall k | |st.calls| <= k < |after.calls| && after.calls[k].ScheduleRegion? ::
              after.calls[k].region == WholeFile(env.loaded.value, after.endFrame)
  {
    var after := PlayStep(st, name, ext, pitch, env).1;
    var base := st.calls + [ResetPlayer, SetPitchParameter(pitch), OpenFile(name, ext)];
    if Measured(env) {
      var measured := ChannelState(env.packets.value * env.framesPerPacket.value, env.loaded, base);
      var initialised := InitPlayerStep(measured, env).1;
      PlayStepMeasured(st, name, ext, pitch, env);
      forall k | |st.calls| <= k < |after.calls| && after.calls[k].ScheduleRegion?
        ensures after.calls[k].region == WholeFile(env.loaded.value, after.endFrame)
      {
        if |base| <= k < |initialised.calls| {
          assert after.calls[k] == initialised.calls[k];
        }
      }
    } else {
      assert after.calls == base;
    }
  }

  /** With the file measured, play's calls are the initialisation's, then possibly the start. */
  lemma PlayStepMeasured(st: ChannelState, name: string, ext: string, pitch: real, env: PlayEnv)
    requires EndFrameFits(env) && Measured(env)
    ensures var base := st.calls + [ResetPlayer, SetPitchParameter(pitch), OpenFile(name, ext)];
            var measured := ChannelState(env.packets.value * env.framesPerPacket.value, env.loaded, base);
            var initialised := InitPlayerStep(measured, env).1;
            var after := PlayStep(st, name, ext, pitch, env).1;
            && after.calls[..|base|] == base
            && (after.calls == initialised.calls || after.calls == initialised.calls + [ScheduleStart(-1)])
  {
  }

  // ---------------------------------------------------------------------------
  // The channel object
  // ---------------------------------------------------------------------------

  class Channel {
    /** The mixer input bus the channel plays on. */
    const busNum: int
    const playerUnit: UnitId
    const pitchUnit: UnitId

    var audioFile: Option<FileId>
    var endFrame: UInt32
    /** The calls issued so far. */
    var calls: seq<PlayerCall>

    function State(): ChannelState
      reads this
    {
      ChannelState(endFrame, audioFile, calls)
    }

    /** init(withBusNum:withPlayerUnit:withPitchUnit:). */
    constructor (withBusNum: int, withPlayerUnit: UnitId, withPitchUnit: UnitId)
      ensures busNum == withBusNum && playerUnit == withPlayerUnit && pitchUnit == withPitchUnit
      ensures State() == Fresh
    {
      busNum := withBusNum;
      playerUnit := withPlayerUnit;
      pitchUnit := withPitchUnit;
      audioFile := None;
      endFrame := 0;
      calls := [];
    }

    method IsAvailable(p: Probe) returns (available: bool)
      requires FrameFits(p.time)
      modifies this
      ensures (available, State()) == Availability(old(State()), p)
    {
      var currFrame := CurrentFrame(p.time);
      if currFrame == 0 && endFrame == 0 {
        available := true;
      } else if currFrame > endFrame {
        var closeSuccess := ResetAudioPlayer(p.resetOk);
        closeSuccess := CloseFile(p.closeOk);
        if closeSuccess {
          endFrame := 0;
        }
        available := closeSuccess;
      } else {
        available := false;
      }
    }

    method Play(name: string, fileExtension: string, pitch: real, env: PlayEnv) returns (success: bool)
      requires EndFrameFits(env)
      modifies this
      ensures (success, State()) == PlayStep(old(State()), name, fileExtension, pitch, env)
    {
      success := ResetAudioPlayer(env.resetOk);
      success := SetPitch(pitch, env.pitchOk);
      calls := calls + [OpenFile(name, fileExtension)];
      audioFile := env.loaded;
      if audioFile != None {
        if env.framesPerPacket.Some? {
          if env.packets.Some? {
            endFrame := env.packets.value * env.framesPerPacket.value;
            var initOk := InitPlayer(env);
            if initOk {
              success := StartPlayer(env.startOk);
            }
          }
        }
      }
    }

    method InitPlayer(env: PlayEnv) returns (success: bool)
      modifies this
      ensures (success, State()) == InitPlayerStep(old(State()), env)
    {
      if audioFile.None? {
        return false;
      }
      var file := audioFile.value;
      calls := calls + [ScheduleFileIds(file)];
      if !env.fileIdsOk {
        return false;
      }
      calls := calls + [ScheduleRegion(WholeFile(file, endFrame))];
      if !env.regionOk {
        return false;
      }
      calls := calls + [PrimeFile(0)];
      success := env.primeOk;
    }

    /** _startPlayer: start at sample time -1, the next render cycle. */
    method StartPlayer(startOk: bool) returns (success: bool)
      modifies this
      ensures success == startOk
      ensures State() == old(State()).(calls := old(calls) + [ScheduleStart(-1)])
    {
      calls := calls + [ScheduleStart(-1)];
      success := startOk;
    }

    method ResetAudioPlayer(resetOk: bool) returns (success: bool)
      modifies this
      ensures (success, State()) == ResetStep(old(State()), resetOk)
    {
      calls := calls + [ResetPlayer];
      success := resetOk;
    }

    /** _set(pitch:): sets the time-pitch unit's pitch parameter. */
    method SetPitch(pitch: real, pitchOk: bool) returns (success: bool)
      modifies this
      ensures success == pitchOk
      ensures State() == old(State()).(calls := old(calls) + [SetPitchParameter(pitch)])
    {
      calls := calls + [SetPitchParameter(pitch)];
      success := pitchOk;
    }

    method CloseFile(closeOk: bool) returns (success: bool)
      modifies this
      ensures (success, State()) == CloseStep(old(State()), closeOk)
    {
      if audioFile.Some? {
        calls := calls + [CloseAudioFile(audioFile.value)];
        if !closeOk {
          return false;
        }
        audioFile := None;
        return true;
      }
      return false;
    }

    method Reset(resetOk: bool, closeOk: bool)
      modifies this
      ensures State() == ResetChannelStep(old(State()), resetOk, closeOk)
    {
      var _ := ResetAudioPlayer(resetOk);
      var _ := CloseFile(closeOk);
      endFrame := 0;
    }
  }
}
