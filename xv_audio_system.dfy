/**
 * XvAudioSystem (XvAudioSystem/Public/XvAudioSystem.swift): the original facade over
 * the engine's channels.  It plays a sound on the first channel that reports itself
 * free, setting that bus's volume and pan on the mixer first; it counts free
 * channels and reports the busy share; an interruption blocks playback and fades every
 * bus out, tick by tick, until all are silent, when the channels are reset and the
 * engine stopped.
 *
 * The mixer's per-bus volume and pan parameters are the maps `volumes` and `pans`
 * (hundredths; a bus never written reads as unity gain).  Each OS answer is an input.
 */
module XvAudio {
  import opened Wrappers
  import opened Pools
  import opened Channels
  import opened Engines

  /** FADE_OUT_INC, 0.05, in hundredths. */
  const FadeOutInc: int := 5

  /** The mixer's default input volume, 1.0, in hundredths. */
  const UnityVolume: int := 100

  /** What _getVolume(forBus:) reads from the mixer when the query succeeds. */
  function VolumeOf(volumes: map<int, int>, bus: int): int
  {
    if bus in volumes then volumes[bus] else UnityVolume
  }

  // ---------------------------------------------------------------------------
  // One tick of the fade-out
  // ---------------------------------------------------------------------------

  /** The statuses of one channel's _getVolume and _set(volume:) during a fade tick. */
  datatype BusIo = BusIo(readOk: bool, writeOk: bool)

  /** The volume lowered by one step, set to 0 when it would go below 0. */
  function Lowered(v: int): (r: int)
    ensures r >= 0
    ensures v >= FadeOutInc ==> r == v - FadeOutInc
    ensures v < FadeOutInc ==> r == 0
  {
    if v - FadeOutInc < 0 then 0 else v - FadeOutInc
  }

  /** One channel of a tick: the new volumes, and whether this channel was still above zero. */
  function FadeStep(volumes: map<int, int>, bus: int, io: BusIo): (map<int, int>, bool)
  {
    if !io.readOk then (volumes, false)
    else
      var v := VolumeOf(volumes, bus);
      (if io.writeOk then volumes[bus := Lowered(v)] else volumes, v - FadeOutInc >= 0)
  }

  /**
   * _fadeOutChannels over the channels' buses in order: the volumes afterwards, and
   * isAnyChannelAboveZero.
   */
  function FadeTick(volumes: map<int, int>, buses: seq<int>, io: seq<BusIo>): (res: (map<int, int>, bool))
    requires |io| == |buses|
  {
    if |buses| == 0 then (volumes, false)
    else
      var n := |buses| - 1;
      var prev := FadeTick(volumes, buses[..n], io[..n]);
      var step := FadeStep(prev.0, buses[n], io[n]);
      (step.0, prev.1 || step.1)
  }

  predicate Distinct(buses: seq<int>)
  {
    forall i, j :: 0 <= i < j < |buses| ==> buses[i] != buses[j]
  }

  /** A tick leaves every bus no channel is on as it was. */
  lemma {:induction false} FadeTickElsewhere(volumes: map<int, int>, buses: seq<int>, io: seq<BusIo>, b: int)
    requires |io| == |buses| && b !in buses
    ensures VolumeOf(FadeTick(volumes, buses, io).0, b) == VolumeOf(volumes, b)
  {
    if |buses| > 0 {
      var n := |buses| - 1;
      assert b !in buses[..n] by {
        assert forall i :: 0 <= i < n ==> buses[..n][i] == buses[i];
      }
      FadeTickElsewhere(volumes, buses[..n], io[..n], b);
    }
  }

  /**
   * On distinct buses a tick lowers each bus whose volume was read and written by one
   * step (to no less than 0) and leaves the others as they were.
   */
  lemma {:induction false} FadeTickOnBuses(volumes: map<int, int>, buses: seq<int>, io: seq<BusIo>)
    requires |io| == |buses| && Distinct(buses)
    ensures forall i :: 0 <= i < |buses| ==>
              VolumeOf(FadeTick(volumes, buses, io).0, buses[i])
                == if io[i].readOk && io[i].writeOk then Lowered(VolumeOf(volumes, buses[i])) else VolumeOf(volumes, buses[i])
  {
    if |buses| > 0 {
      var n := |buses| - 1;
      var bs, ios := buses[..n], io[..n];
      assert Distinct(bs);
      FadeTickOnBuses(volumes, bs, ios);
      assert buses[n] !in bs;
      FadeTickElsewhere(volumes, bs, ios, buses[n]);
      forall i | 0 <= i < n
        ensures buses[i] == bs[i] && io[i] == ios[i]
      {
      }
    }
  }

  /** On distinct buses a tick reports a channel above zero exactly when some read volume was at least one step. */
  lemma {:induction false} FadeTickFlag(volumes: map<int, int>, buses: seq<int>, io: seq<BusIo>)
    requires |io| == |buses| && Distinct(buses)
    ensures (FadeTick(volumes, buses, io).1 <==>
             exists i :: 0 <= i < |buses| && io[i].readOk && VolumeOf(volumes, buses[i]) >= FadeOutInc)
  {
    if |buses| > 0 {
      var n := |buses| - 1;
      var bs, ios := buses[..n], io[..n];
      assert Distinct(bs);
      FadeTickFlag(volumes, bs, ios);
      assert buses[n] !in bs;
      FadeTickElsewhere(volumes, bs, ios, buses[n]);
      forall i | 0 <= i < n
        ensures buses[i] == bs[i] && io[i] == ios[i]
      {
      }
    }
  }

  /** The three together: the effect of a tick on every bus, and its flag. */
  lemma FadeTickEffect(volumes: map<int, int>, buses: seq<int>, io: seq<BusIo>)
    requires |io| == |buses| && Distinct(buses)
    ensures forall i :: 0 <= i < |buses| ==>
              VolumeOf(FadeTick(volumes, buses, io).0, buses[i])
                == if io[i].readOk && io[i].writeOk then Lowered(VolumeOf(volumes, buses[i])) else VolumeOf(volumes, buses[i])
    ensures forall b :: b !in buses ==> VolumeOf(FadeTick(volumes, buses, io).0, b) == VolumeOf(volumes, b)
    ensures (FadeTick(volumes, buses, io).1 <==>
             exists i :: 0 <= i < |buses| && io[i].readOk && VolumeOf(volumes, buses[i]) >= FadeOutInc)
  {
    FadeTickOnBuses(volumes, buses, io);
    FadeTickFlag(volumes, buses, io);
    forall b | b !in buses
      ensures VolumeOf(FadeTick(volumes, buses, io).0, b) == VolumeOf(volumes, b)
    {
      FadeTickElsewhere(volumes, buses, io, b);
    }
  }

  /**
   * A tick never raises a volume that was not negative, and never leaves one below
   * zero, whichever buses the channels share and whichever calls fail.
   */
  lemma {:induction false} FadeNeverRaises(volumes: map<int, int>, buses: seq<int>, io: seq<BusIo>, b: int)
    requires |io| == |buses| && VolumeOf(volumes, b) >= 0
    ensures 0 <= VolumeOf(FadeTick(volumes, buses, io).0, b) <= VolumeOf(volumes, b)
  {
    if |buses| > 0 {
      var n := |buses| - 1;
      FadeNeverRaises(volumes, buses[..n], io[..n], b);
    }
  }

  /** The fade completes on a tick exactly when every volume read was below one step. */
  lemma FadeCompletes(volumes: map<int, int>, buses: seq<int>, io: seq<BusIo>)
    requires |io| == |buses| && Distinct(buses)
    ensures (!FadeTick(volumes, buses, io).1 <==>
             forall i :: 0 <= i < |buses| && io[i].readOk ==> VolumeOf(volumes, buses[i]) < FadeOutInc)
  {
    FadeTickEffect(volumes, buses, io);
  }

  /**
   * A tick that does not complete the fade, with every volume written, strictly lowers
   * some bus: repeated ticks must silence every bus.
   */
  lemma FadeProgresses(volumes: map<int, int>, buses: seq<int>, io: seq<BusIo>)
    requires |io| == |buses| && Distinct(buses)
    requires forall i :: 0 <= i < |io| ==> io[i].writeOk
    requires FadeTick(volumes, buses, io).1
    ensures exists i :: 0 <= i < |buses|
              && VolumeOf(FadeTick(volumes, buses, io).0, buses[i]) < VolumeOf(volumes, buses[i])
  {
    FadeTickEffect(volumes, buses, io);
    var i :| 0 <= i < |buses| && io[i].readOk && VolumeOf(volumes, buses[i]) >= FadeOutInc;
    assert VolumeOf(FadeTick(volumes, buses, io).0, buses[i]) == VolumeOf(volumes, buses[i]) - FadeOutInc;
  }

  // ---------------------------------------------------------------------------
  // Busy share
  // ---------------------------------------------------------------------------

  /** Swift's Int division, truncating toward zero; it traps on a zero divisor. */
  function TruncDiv(a: int, b: int): (q: int)
    requires b != 0
    ensures a >= 0 && b > 0 ==> q == a / b
    ensures var r := a - b * q;
            0 <= (if a >= 0 then r else -r) < (if b > 0 then b else -b)
  {
    if (a >= 0) == (b > 0) then
      (if a >= 0 then a / b else (-a) / (-b))
    else
      -((if a >= 0 then a else -a) / (if b > 0 then b else -b))
  }

  /** getPercentageOfBusyChannels: (100 * (channelTotal - available)) / channelTotal. */
  function BusyPercent(channelTotal: int, available: int): int
    requires channelTotal != 0
  {
    TruncDiv(100 * (channelTotal - available), channelTotal)
  }

  /** With no more free channels than the total, the busy share is a percentage, 0 and 100 at the ends. */
  lemma BusyPercentBounds(channelTotal: int, available: int)
    requires 0 <= available <= channelTotal && channelTotal != 0
    ensures 0 <= BusyPercent(channelTotal, available) <= 100
    ensures available == channelTotal ==> BusyPercent(channelTotal, available) == 0
    ensures available == 0 ==> BusyPercent(channelTotal, available) == 100
  {
    var d := channelTotal;
    var n := 100 * (d - available);
    var q, m := n / d, n % d;
    assert BusyPercent(d, available) == q;
    assert n == d * q + m && 0 <= m < d;
    if q > 100 {
      MulAtLeast(d, 101, q);
    }
    if available == d && q >= 1 {
      MulAtLeast(d, 1, q);
    }
    if available == 0 && q < 100 {
      MulAtLeast(d, q, 99);
    }
  }

  /** The share is truncated, not rounded: one of three channels busy is 33, two are 66. */
  lemma BusyPercentTruncates()
    ensures BusyPercent(3, 2) == 33 && BusyPercent(3, 1) == 66
  {
  }

  // ---------------------------------------------------------------------------
  // Scanning the channels
  // ---------------------------------------------------------------------------

  /** The channels' states. */
  function States(cs: seq<Channel>): (r: seq<ChannelState>)
    reads cs
    ensures |r| == |cs| && forall i :: 0 <= i < |cs| ==> r[i] == cs[i].State()
  {
    if cs == [] then [] else [cs[0].State()] + States(cs[1..])
  }

  /** Every channel's player clock fits a UInt32 frame. */
  predicate ProbesFit(probes: seq<Probe>)
  {
    forall i :: 0 <= i < |probes| ==> FrameFits(probes[i].time)
  }

  /** No channel object appears twice. */
  predicate DistinctChannels(cs: seq<Channel>)
  {
    forall i, j :: 0 <= i < |cs| && 0 <= j < |cs| && i != j ==> cs[i] != cs[j]
  }

  /** The channels are in the given states. */
  predicate StatesAre(cs: seq<Channel>, states: seq<ChannelState>)
    reads cs
  {
    |cs| == |states| && forall i :: 0 <= i < |cs| ==> cs[i].State() == states[i]
  }

  /** What each channel's isAvailable answers, given its state and the OS answers it meets. */
  function Answers(states: seq<ChannelState>, probes: seq<Probe>): (r: seq<bool>)
    requires |probes| == |states| && ProbesFit(probes)
    ensures |r| == |states| && forall i :: 0 <= i < |states| ==> r[i] == Availability(states[i], probes[i]).0
  {
    seq(|states|, i requires 0 <= i < |states| => Availability(states[i], probes[i]).0)
  }

  /** The states after querying the first `n` channels with isAvailable. */
  function Queried(states: seq<ChannelState>, probes: seq<Probe>, n: nat): (r: seq<ChannelState>)
    requires |probes| == |states| && ProbesFit(probes) && n <= |states|
    ensures |r| == |states|
    ensures forall i :: 0 <= i < |states| ==>
              r[i] == if i < n then Availability(states[i], probes[i]).1 else states[i]
  {
    seq(|states|, i requires 0 <= i < |states| => if i < n then Availability(states[i], probes[i]).1 else states[i])
  }

  /** How many channels getChannel queries: up to and including the first free one. */
  function FirstFitQueried(answers: seq<bool>): (n: nat)
    ensures n <= |answers|
  {
    match FirstFree(answers)
    case Some(k) => k + 1
    case None => |answers|
  }

  /** The OS answers of one setup call. */
  datatype SetupOs = SetupOs(
    added: seq<Option<NodeId>>,
    notifyOk: bool,
    openOk: bool,
    pitchUnits: seq<Option<UnitId>>,
    playerUnits: seq<Option<UnitId>>,
    formats: seq<Option<FormatId>>,
    mixer: MixerOs,
    remoteIo: Option<UnitId>,
    hostInfo: Option<HostCallbackInfo>,
    initOk: bool,
    startOk: bool)

  /** setup receives answers for every channel; a pitch unit obtained always has a format. */
  predicate SetupFits(n: nat, os: SetupOs)
  {
    && n < UInt32Limit
    && |os.added| == 2 + 2 * n
    && n <= |os.pitchUnits| && n <= |os.playerUnits| && n <= |os.formats|
    && (forall c :: 0 <= c < n && os.pitchUnits[c].Some? ==> os.formats[c].Some?)
    && n <= |os.mixer.formatOks|
  }

  /** The statuses of one channel's reset during _fadeOutComplete. */
  datatype ResetIo = ResetIo(resetOk: bool, closeOk: bool)

  class XvAudioSystem {
    var engine: Engine?
    var mixerUnit: Option<MixerUnit>
    var remoteIoUnit: Option<UnitId>
    var channels: seq<Channel>
    var channelTotal: int
    /** Blocks playback during an interruption. */
    var interruptionInProgress: bool
    /** The repeating fade-out timer is scheduled. */
    var fadeTimerActive: bool
    /** The mixer's input volume per bus, in hundredths. */
    var volumes: map<int, int>
    /** The mixer's input pan per bus, in hundredths. */
    var pans: map<int, int>

    /**
     * The channels are distinct objects on distinct buses that a UInt32 holds, no more
     * than channelTotal of them, and an engine, once there, has its graph.
     */
    predicate Valid()
      reads this, engine
    {
      && (forall i, j :: 0 <= i < j < |channels| ==> channels[i].busNum < channels[j].busNum)
      && DistinctChannels(channels)
      && (forall i :: 0 <= i < |channels| ==> 0 <= channels[i].busNum < UInt32Limit)
      && |channels| <= channelTotal
      && (engine != null ==> engine.hasGraph)
    }

    constructor ()
      ensures engine == null && mixerUnit == None && remoteIoUnit == None && channels == []
      ensures channelTotal == 1 && !interruptionInProgress && !fadeTimerActive
      ensures volumes == map[] && pans == map[]
      ensures Valid()
    {
      engine, mixerUnit, remoteIoUnit, channels := null, None, None, [];
      channelTotal, interruptionInProgress, fadeTimerActive := 1, false, false;
      volumes, pans := map[], map[];
    }

    /**
     * setup(withChannelTotal:): takes the shared engine, sets it up with that many
     * channels, takes its channels, mixer and remote I/O unit, wires and starts it,
     * and answers the remote I/O unit.
     */
    method Setup(withChannelTotal: nat, shared: Engine, os: SetupOs) returns (r: Option<UnitId>)
      requires SetupFits(withChannelTotal, os)
      modifies this`channelTotal, this`engine, this`channels, this`mixerUnit, this`remoteIoUnit, shared
      ensures Valid()
      ensures engine == shared && channelTotal == withChannelTotal
      ensures r == os.remoteIo && remoteIoUnit == os.remoteIo
      ensures BusNums(channels) == ChannelBuses(os.pitchUnits, os.playerUnits, withChannelTotal)
      ensures forall i :: 0 <= i < |channels| ==> channels[i].State() == Fresh
      ensures mixerUnit.Some? <==> os.mixer.unit.Some? && os.mixer.countOk && os.mixer.rateOk && os.mixer.volumeOk
      ensures shared.NodesCover() && shared.channelTotal == withChannelTotal
      ensures shared.connections == Wiring(shared.playerNodes, shared.pitchNodes, shared.mixerNode,
                                           shared.remoteIoNode, withChannelTotal)
      ensures shared.graphInitialized == os.initOk && shared.running == os.startOk
    {
      TakeChannels(withChannelTotal, shared, os);
      r := WireAndStart(shared, os);
    }

    /** The first half of setup: the engine set up with its graph, and its channels taken. */
    method TakeChannels(withChannelTotal: nat, shared: Engine, os: SetupOs)
      requires SetupFits(withChannelTotal, os)
      modifies this`channelTotal, this`engine, this`channels, shared
      ensures Valid()
      ensures engine == shared && channelTotal == withChannelTotal
      ensures BusNums(channels) == ChannelBuses(os.pitchUnits, os.playerUnits, withChannelTotal)
      ensures forall i :: 0 <= i < |channels| ==> channels[i].State() == Fresh
      ensures shared.NodesCover() && shared.channelTotal == withChannelTotal
      ensures !shared.running && shared.connections == []
    {
      channelTotal := withChannelTotal;
      engine := shared;
      shared.Setup(withChannelTotal, os.added, os.notifyOk, os.openOk);
      var cs := shared.GetChannels(os.pitchUnits, os.playerUnits, os.formats);
      ChannelsOnBuses(cs, os.pitchUnits, os.playerUnits, withChannelTotal);
      channels := cs;
    }

    /** The second half of setup: mixer and remote I/O unit taken, nodes wired, engine started. */
    method WireAndStart(shared: Engine, os: SetupOs) returns (r: Option<UnitId>)
      requires engine == shared && shared.NodesCover() && !shared.running && shared.connections == []
      requires channelTotal == shared.channelTotal && SetupFits(channelTotal, os)
      modifies this`mixerUnit, this`remoteIoUnit, shared
      ensures r == os.remoteIo && remoteIoUnit == os.remoteIo
      ensures mixerUnit.Some? <==> os.mixer.unit.Some? && os.mixer.countOk && os.mixer.rateOk && os.mixer.volumeOk
      ensures shared.NodesCover() && shared.channelTotal == old(shared.channelTotal)
      ensures shared.hasGraph
      ensures shared.playerNodes == old(shared.playerNodes) && shared.pitchNodes == old(shared.pitchNodes)
      ensures shared.mixerNode == old(shared.mixerNode) && shared.remoteIoNode == old(shared.remoteIoNode)
      ensures shared.connections == Wiring(shared.playerNodes, shared.pitchNodes, shared.mixerNode,
                                           shared.remoteIoNode, shared.channelTotal)
      ensures shared.graphInitialized == os.initOk && shared.running == os.startOk
    {
      mixerUnit := shared.GetMixerUnit(os.mixer);
      remoteIoUnit := shared.GetRemoteIoUnit(os.remoteIo, os.hostInfo);
      shared.ConnectNodes();
      shared.Start(os.initOk, os.startOk);
      return remoteIoUnit;
    }

    /**
     * getChannel: queries the channels in order and stops at the first free one, which
     * it answers; nil when none is free.
     */
    method GetChannel(probes: seq<Probe>) returns (ch: Option<Channel>)
      requires Valid() && |probes| == |channels| && ProbesFit(probes)
      modifies channels
      ensures var k := FirstFree(Answers(old(States(channels)), probes));
              ch == if k.Some? then Some(channels[k.value]) else None
      ensures StatesAre(channels, Queried(old(States(channels)), probes, FirstFitQueried(Answers(old(States(channels)), probes))))
    {
      ghost var before := States(channels);
      ghost var answers := Answers(before, probes);
      for i := 0 to |channels|
        invariant forall j :: 0 <= j < i ==> !answers[j]
        invariant StatesAre(channels, Queried(before, probes, i))
      {
        var available := QueryChannel(i, probes[i], Queried(before, probes, i));
        QueriedNext(before, probes, i);
        assert available == answers[i];
        if available {
          FirstOf(answers, i);
          assert FirstFitQueried(answers) == i + 1;
          return Some(channels[i]);
        }
      }
      NoneFree(answers);
      return None;
    }

    /** One channel's isAvailable, the i-th; the other channels keep their states. */
    method QueryChannel(i: nat, probe: Probe, ghost states: seq<ChannelState>) returns (available: bool)
      requires DistinctChannels(channels) && i < |channels| && StatesAre(channels, states) && FrameFits(probe.time)
      modifies channels[i]
      ensures var answer := Availability(states[i], probe);
              available == answer.0 && StatesAre(channels, states[i := answer.1])
    {
      available := channels[i].IsAvailable(probe);
    }

    /** isChannelAvailable: whether getChannel finds a channel. */
    method IsChannelAvailable(probes: seq<Probe>) returns (b: bool)
      requires Valid() && |probes| == |channels| && ProbesFit(probes)
      modifies channels
      ensures b <==> FirstFree(Answers(old(States(channels)), probes)).Some?
      ensures StatesAre(channels, Queried(old(States(channels)), probes, FirstFitQueried(Answers(old(States(channels)), probes))))
    {
      var ch := GetChannel(probes);
      b := ch.Some?;
    }

    /** getNumberOfAvailableChannels: queries every channel and counts those free. */
    method GetNumberOfAvailableChannels(probes: seq<Probe>) returns (n: int)
      requires Valid() && |probes| == |channels| && ProbesFit(probes)
      modifies channels
      ensures n == CountFree(Answers(old(States(channels)), probes))
      ensures 0 <= n <= |channels|
      ensures StatesAre(channels, Queried(old(States(channels)), probes, |channels|))
    {
      ghost var before := States(channels);
      ghost var answers := Answers(before, probes);
      n := 0;
      for i := 0 to |channels|
        invariant n == CountFree(answers[..i])
        invariant StatesAre(channels, Queried(before, probes, i))
      {
        var available := QueryChannel(i, probes[i], Queried(before, probes, i));
        QueriedNext(before, probes, i);
        CountFreeSnoc(answers, i);
        assert available == answers[i];
        if available {
          n := n + 1;
        }
      }
      assert answers[..|channels|] == answers;
      CountFreeBounds(answers);
    }

    /** getPercentageOfBusyChannels: the busy share of channelTotal, truncated. */
    method GetPercentageOfBusyChannels(probes: seq<Probe>) returns (p: int)
      requires Valid() && |probes| == |channels| && ProbesFit(probes) && channelTotal != 0
      modifies channels
      ensures p == BusyPercent(channelTotal, CountFree(Answers(old(States(channels)), probes)))
      ensures 0 <= p <= 100
      ensures StatesAre(channels, Queried(old(States(channels)), probes, |channels|))
    {
      var available := GetNumberOfAvailableChannels(probes);
      p := BusyPercent(channelTotal, available);
      BusyPercentBounds(channelTotal, available);
    }

    /** _set(volume:forBus:): writes the bus's volume on the mixer; answers the status. */
    method SetBusVolume(volume: int, bus: int, ok: bool) returns (success: bool)
      requires mixerUnit.Some? && 0 <= bus < UInt32Limit
      modifies this`volumes
      ensures success == ok
      ensures volumes == if ok then old(volumes)[bus := volume] else old(volumes)
    {
      if ok {
        volumes := volumes[bus := volume];
      }
      success := ok;
    }

    /** _set(pan:forBus:): writes the bus's pan on the mixer; answers the status. */
    method SetBusPan(pan: int, bus: int, ok: bool) returns (success: bool)
      requires mixerUnit.Some? && 0 <= bus < UInt32Limit
      modifies this`pans
      ensures success == ok
      ensures pans == if ok then old(pans)[bus := pan] else old(pans)
    {
      if ok {
        pans := pans[bus := pan];
      }
      success := ok;
    }

    /** _getVolume(forBus:): the bus's volume, or nil when the query fails. */
    method GetBusVolume(bus: int, ok: bool) returns (v: Option<int>)
      requires mixerUnit.Some? && 0 <= bus < UInt32Limit
      ensures v == if ok then Some(VolumeOf(volumes, bus)) else None
    {
      if ok {
        return Some(VolumeOf(volumes, bus));
      }
      return None;
    }

    /**
     * playSound(name:volume:pitch:pan:): false during an interruption, touching nothing;
     * otherwise on the first free channel sets the bus volume, then the pan, then plays
     * the ".wav" file.  It answers true when the channel plays and otherwise what the
     * pan setter answered; false when no channel is free.
     */
    method PlaySound(name: string, volume: int, pitch: real, pan: int,
                     probes: seq<Probe>, volumeOk: bool, panOk: bool, env: PlayEnv) returns (success: bool)
      requires Valid() && |probes| == |channels| && ProbesFit(probes) && EndFrameFits(env)
      requires mixerUnit.Some? || interruptionInProgress || FirstFree(Answers(States(channels), probes)).None?
      modifies this`volumes, this`pans, channels
      ensures interruptionInProgress ==>
                && !success && volumes == old(volumes) && pans == old(pans)
                && forall i :: 0 <= i < |channels| ==> channels[i].State() == old(channels[i].State())
      ensures !interruptionInProgress ==>
                var before := old(States(channels));
                var queried := Queried(before, probes, FirstFitQueried(Answers(before, probes)));
                match FirstFree(Answers(before, probes))
                case None =>
                  !success && volumes == old(volumes) && pans == old(pans) && StatesAre(channels, queried)
                case Some(k) =>
                  var bus := channels[k].busNum;
                  var played := PlayStep(queried[k], name, "wav", pitch, env);
                  && volumes == (if volumeOk then old(volumes)[bus := volume] else old(volumes))
                  && pans == (if panOk then old(pans)[bus := pan] else old(pans))
                  && success == (played.0 || panOk)
                  && StatesAre(channels, queried[k := played.1])
    {
      if interruptionInProgress {
        return false;
      }
      success := PlayOnFree(name, volume, pitch, pan, probes, volumeOk, panOk, env);
    }

    /** playSound once no interruption blocks it: the first free channel plays the sound. */
    method PlayOnFree(name: string, volume: int, pitch: real, pan: int,
                      probes: seq<Probe>, volumeOk: bool, panOk: bool, env: PlayEnv) returns (success: bool)
      requires Valid() && |probes| == |channels| && ProbesFit(probes) && EndFrameFits(env)
      requires mixerUnit.Some? || FirstFree(Answers(States(channels), probes)).None?
      modifies this`volumes, this`pans, channels
      ensures var before := old(States(channels));
              var queried := Queried(before, probes, FirstFitQueried(Answers(before, probes)));
              match FirstFree(Answers(before, probes))
              case None =>
                !success && volumes == old(volumes) && pans == old(pans) && StatesAre(channels, queried)
              case Some(k) =>
                var bus := channels[k].busNum;
                var played := PlayStep(queried[k], name, "wav", pitch, env);
                && volumes == (if volumeOk then old(volumes)[bus := volume] else old(volumes))
                && pans == (if panOk then old(pans)[bus := pan] else old(pans))
                && success == (played.0 || panOk)
                && StatesAre(channels, queried[k := played.1])
    {
      ghost var before := States(channels);
      var found := GetChannel(probes);
      if found.Some? {
        ghost var k := FirstFree(Answers(before, probes)).value;
        ghost var queried := Queried(before, probes, FirstFitQueried(Answers(before, probes)));
        success := PlayOn(found.value, k, queried, name, volume, pitch, pan, volumeOk, panOk, env);
      } else {
        success := false;
      }
    }

    /**
     * The channel found by playSound, the k-th: its bus's volume and pan set, then its
     * sound played; the other channels keep their states.
     */
    method PlayOn(channel: Channel, ghost k: nat, ghost states: seq<ChannelState>, name: string, volume: int, pitch: real, pan: int,
                  volumeOk: bool, panOk: bool, env: PlayEnv) returns (success: bool)
      requires DistinctChannels(channels) && k < |channels| && channel == channels[k] && StatesAre(channels, states)
      requires 0 <= channel.busNum < UInt32Limit
      requires mixerUnit.Some? && EndFrameFits(env)
      modifies this`volumes, this`pans, channel
      ensures var bus := channel.busNum;
              && volumes == (if volumeOk then old(volumes)[bus := volume] else old(volumes))
              && pans == (if panOk then old(pans)[bus := pan] else old(pans))
      ensures var played := PlayStep(states[k], name, "wav", pitch, env);
              success == (played.0 || panOk) && StatesAre(channels, states[k := played.1])
    {
      success := SetBusVolume(volume, channel.busNum, volumeOk);
      success := SetBusPan(pan, channel.busNum, panOk);
      var played := channel.Play(name, "wav", pitch, env);
      if played {
        success := true;
      }
    }

    /** shutdown: (re)schedules the repeating fade-out timer. */
    method Shutdown()
      modifies this`fadeTimerActive
      ensures fadeTimerActive
    {
      fadeTimerActive := true;
    }

    /** beginInterruption: blocks playback and starts the fade. */
    method BeginInterruption()
      modifies this`interruptionInProgress, this`fadeTimerActive
      ensures interruptionInProgress && fadeTimerActive
    {
      interruptionInProgress := true;
      Shutdown();
    }

    /** endInterruption: unblocks playback, cancels the fade and starts the engine if there is one. */
    method EndInterruption(startOk: bool)
      requires Valid()
      modifies this`interruptionInProgress, this`fadeTimerActive, engine
      ensures Valid()
      ensures !interruptionInProgress && !fadeTimerActive
      ensures engine != null ==> engine.running == (old(engine.running) || startOk)
      ensures engine != null ==> engine.Graph() == old(engine.Graph())
    {
      interruptionInProgress := false;
      fadeTimerActive := false;
      if engine != null {
        engine.StartEngine(startOk);
      }
    }

    /** _fadeOutComplete: resets every channel, then stops the engine if there is one. */
    method FadeOutComplete(resets: seq<ResetIo>, stopOk: bool)
      requires DistinctChannels(channels) && |resets| == |channels| && (engine != null ==> engine.hasGraph)
      modifies channels, engine
      ensures forall i :: 0 <= i < |channels| ==>
                channels[i].State() == ResetChannelStep(old(channels[i].State()), resets[i].resetOk, resets[i].closeOk)
      ensures engine != null ==> engine.running == (old(engine.running) && !stopOk)
      ensures engine != null ==> engine.Graph() == old(engine.Graph())
    {
      for i := 0 to |channels|
        modifies channels
        invariant forall j :: 0 <= j < |channels| ==>
                    channels[j].State() == if j < i then ResetChannelStep(old(channels[j].State()), resets[j].resetOk, resets[j].closeOk)
                                           else old(channels[j].State())
      {
        channels[i].Reset(resets[i].resetOk, resets[i].closeOk);
      }
      if engine != null {
        engine.StopEngine(stopOk);
      }
    }

    /**
     * _fadeOutChannels, one tick: lowers every readable bus one step, and when none was
     * still above zero stops the timer and completes the fade-out.
     */
    method FadeOutChannels(io: seq<BusIo>, resets: seq<ResetIo>, stopOk: bool)
      requires Valid() && |io| == |channels| && |resets| == |channels|
      requires |channels| > 0 ==> mixerUnit.Some?
      modifies this`volumes, this`fadeTimerActive, channels, engine
      ensures Valid()
      ensures volumes == FadeTick(old(volumes), BusNums(channels), io).0
      ensures FadeTick(old(volumes), BusNums(channels), io).1 ==>
                && fadeTimerActive == old(fadeTimerActive)
                && forall i :: 0 <= i < |channels| ==> channels[i].State() == old(channels[i].State())
      ensures !FadeTick(old(volumes), BusNums(channels), io).1 ==>
                && !fadeTimerActive
                && forall i :: 0 <= i < |channels| ==>
                     channels[i].State() == ResetChannelStep(old(channels[i].State()), resets[i].resetOk, resets[i].closeOk)
      ensures engine != null ==> engine.running == (old(engine.running) && (FadeTick(old(volumes), BusNums(channels), io).1 || !stopOk))
      ensures engine != null ==> engine.Graph() == old(engine.Graph())
    {
      ghost var tick := FadeTick(volumes, BusNums(channels), io);
      var isAnyChannelAboveZero := LowerVolumes(io);
      assert isAnyChannelAboveZero == tick.1;
      if !isAnyChannelAboveZero {
        fadeTimerActive := false;
        FadeOutComplete(resets, stopOk);
      }
    }

    /**
     * The loop of _fadeOutChannels: lowers every readable bus one step and answers
     * whether any was still above zero.
     */
    method LowerVolumes(io: seq<BusIo>) returns (isAnyChannelAboveZero: bool)
      requires Valid() && |io| == |channels|
      requires |channels| > 0 ==> mixerUnit.Some?
      modifies this`volumes
      ensures (volumes, isAnyChannelAboveZero) == FadeTick(old(volumes), BusNums(channels), io)
    {
      isAnyChannelAboveZero := false;
      var buses := BusNums(channels);
      for i := 0 to |channels|
        invariant (volumes, isAnyChannelAboveZero) == FadeTick(old(volumes), buses[..i], io[..i])
      {
        var bus := channels[i].busNum;
        var volume := GetBusVolume(bus, io[i].readOk);
        if volume.Some? {
          var loweredVolume := volume.value - FadeOutInc;
          if loweredVolume < 0 {
            loweredVolume := 0;
          } else {
            isAnyChannelAboveZero := true;
          }
          var _ := SetBusVolume(loweredVolume, bus, io[i].writeOk);
        }
        assert buses[..i + 1][..i] == buses[..i] && io[..i + 1][..i] == io[..i];
      }
      assert buses[..|channels|] == buses && io[..|channels|] == io;
    }
  }

  /** Channels on the buses getChannels picks are on increasing buses below n, hence distinct. */
  lemma ChannelsOnBuses(cs: seq<Channel>, pitchUnits: seq<Option<UnitId>>, playerUnits: seq<Option<UnitId>>, n: nat)
    requires n <= |pitchUnits| && n <= |playerUnits|
    requires BusNums(cs) == ChannelBuses(pitchUnits, playerUnits, n)
    ensures |cs| <= n
    ensures forall i, j :: 0 <= i < j < |cs| ==> cs[i].busNum < cs[j].busNum
    ensures forall i, j :: 0 <= i < |cs| && 0 <= j < |cs| && i != j ==> cs[i] != cs[j]
    ensures forall i :: 0 <= i < |cs| ==> 0 <= cs[i].busNum < n
  {
    ChannelBusesShape(pitchUnits, playerUnits, n);
    assert forall i :: 0 <= i < |cs| ==> cs[i].busNum == BusNums(cs)[i];
    forall i, j | 0 <= i < |cs| && 0 <= j < |cs| && i != j
      ensures cs[i] != cs[j]
    {
      if i < j {
        assert cs[i].busNum < cs[j].busNum;
      } else {
        assert cs[j].busNum < cs[i].busNum;
      }
    }
  }

  /** Querying channel i next changes only its own state. */
  lemma QueriedNext(states: seq<ChannelState>, probes: seq<Probe>, i: nat)
    requires |probes| == |states| && ProbesFit(probes) && i < |states|
    ensures Queried(states, probes, i + 1) == Queried(states, probes, i)[i := Availability(states[i], probes[i]).1]
  {
  }

  /** The first true answer at position i is what FirstFree finds. */
  lemma {:induction false} FirstOf(answers: seq<bool>, i: nat)
    requires i < |answers| && answers[i] && forall j :: 0 <= j < i ==> !answers[j]
    ensures FirstFree(answers) == Some(i)
  {
    if i > 0 {
      FirstOf(answers[1..], i - 1);
    }
  }

  lemma NoneFree(answers: seq<bool>)
    requires forall j :: 0 <= j < |answers| ==> !answers[j]
    ensures FirstFree(answers).None?
  {
  }

  /** Counting one more answer. */
  lemma CountFreeSnoc(answers: seq<bool>, i: nat)
    requires i < |answers|
    ensures CountFree(answers[..i + 1]) == CountFree(answers[..i]) + (if answers[i] then 1 else 0)
  {
    CountFreeAppend(answers[..i], answers[i]);
    assert answers[..i + 1] == answers[..i] + [answers[i]];
  }

  lemma {:induction false} CountFreeAppend(s: seq<bool>, b: bool)
    ensures CountFree(s + [b]) == CountFree(s) + (if b then 1 else 0)
  {
    if |s| > 0 {
      assert (s + [b])[1..] == s[1..] + [b];
      CountFreeAppend(s[1..], b);
    }
  }
}
