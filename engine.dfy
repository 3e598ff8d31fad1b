/**
 * The audio processing graph (XvAudioSystem/Private/Engine.swift): one player node and
 * one pitch node per channel, a multichannel mixer and a remote I/O node.  The graph is
 * abstract: node ids, the connections requested, and flags for whether the graph exists,
 * is open, initialised and running.  Statuses of Audio Unit and AUGraph calls are inputs.
 */
module Engines {
  import opened Wrappers
  import opened Channels

  /** An AUNode id; makeNode answers 0 when the node cannot be added. */
  type NodeId = nat

  /** An AudioStreamBasicDescription, by identity; 0 is the zero-initialised description. */
  type FormatId = nat

  /** One AUGraphConnectNodeInput request. */
  datatype Connection = Connection(source: NodeId, sourceBus: nat, dest: NodeId, destBus: nat)

  /** The notifications the render callback posts on a transport edge. */
  /** Everything of the engine's graph except whether it runs. */
  datatype GraphState = GraphState(hasGraph: bool, initialized: bool, players: seq<NodeId>, pitches: seq<NodeId>,
                                   mixer: NodeId, remoteIo: NodeId, connections: seq<Connection>, channelTotal: int)

  datatype HostNotice = PlayButtonPressed | PauseButtonPressed

  /** HostCallbackInfo: whether its hostUserData pointer is set. */
  datatype HostCallbackInfo = HostCallbackInfo(hasUserData: bool)

  /** The configured mixer: its unit, input element count, output rate and volume, and input formats. */
  datatype MixerUnit = MixerUnit(unit: UnitId, inputElementCount: nat, outputSampleRate: real,
                                 outputVolume: real, inputFormats: seq<Option<FormatId>>)

  /** The statuses _makeMixerUnit receives. */
  datatype MixerOs = MixerOs(unit: Option<UnitId>, countOk: bool, rateOk: bool, volumeOk: bool,
                             formatOks: seq<bool>)

  /** The statuses one render notification receives from the host's transport-state callback. */
  datatype TransportReport = TransportReport(ok: bool, isPlaying: bool)

  /** The hardware sample rate requested. */
  const DefaultSampleRate: real := 44100.0

  /** makeNode: the node added, or 0 when AUGraphAddNode fails. */
  function NodeOrZero(added: Option<NodeId>): NodeId {
    added.GetOr(0)
  }

  // ---------------------------------------------------------------------------
  // Wiring
  // ---------------------------------------------------------------------------

  /** The per-channel connections connectNodes requests for channels 0..n-1, in order. */
  function ChannelWiring(players: seq<NodeId>, pitches: seq<NodeId>, mixer: NodeId, n: nat)
    : (w: seq<Connection>)
    requires n <= |players| && n <= |pitches|
    ensures |w| == 2 * n
  {
    if n == 0 then []
    else ChannelWiring(players, pitches, mixer, n - 1)
         + [Connection(players[n - 1], 0, pitches[n - 1], 0), Connection(pitches[n - 1], 0, mixer, n - 1)]
  }

  /** Every connection connectNodes requests, with the mixer to remote I/O one last. */
  function Wiring(players: seq<NodeId>, pitches: seq<NodeId>, mixer: NodeId, io: NodeId, n: nat)
    : seq<Connection>
    requires n <= |players| && n <= |pitches|
  {
    ChannelWiring(players, pitches, mixer, n) + [Connection(mixer, 0, io, 0)]
  }

  /** Player c feeds pitch c on bus 0, and pitch c feeds mixer input bus c. */
  lemma {:induction false} ChannelWiringShape(players: seq<NodeId>, pitches: seq<NodeId>, mixer: NodeId, n: nat)
    requires n <= |players| && n <= |pitches|
    ensures forall c :: 0 <= c < n ==>
              ChannelWiring(players, pitches, mixer, n)[2 * c] == Connection(players[c], 0, pitches[c], 0)
              && ChannelWiring(players, pitches, mixer, n)[2 * c + 1] == Connection(pitches[c], 0, mixer, c)
  {
    if n > 0 {
      ChannelWiringShape(players, pitches, mixer, n - 1);
      var prev := ChannelWiring(players, pitches, mixer, n - 1);
      assert ChannelWiring(players, pitches, mixer, n)[..2 * (n - 1)] == prev;
    }
  }

  /**
   * connectNodes requests exactly 2n + 1 connections: player c to pitch c, pitch c to
   * mixer input c, and the mixer to remote I/O; each mixer input bus is fed once.
   */
  lemma WiringShape(players: seq<NodeId>, pitches: seq<NodeId>, mixer: NodeId, io: NodeId, n: nat)
    requires n <= |players| && n <= |pitches|
    ensures var w := Wiring(players, pitches, mixer, io, n);
            && |w| == 2 * n + 1
            && (forall c :: 0 <= c < n ==> w[2 * c] == Connection(players[c], 0, pitches[c], 0))
            && (forall c :: 0 <= c < n ==> w[2 * c + 1] == Connection(pitches[c], 0, mixer, c))
            && w[2 * n] == Connection(mixer, 0, io, 0)
            && (forall c, d :: 0 <= c < d < n ==> w[2 * c + 1].destBus != w[2 * d + 1].destBus)
  {
    ChannelWiringShape(players, pitches, mixer, n);
    var w := Wiring(players, pitches, mixer, io, n);
    assert w[..2 * n] == ChannelWiring(players, pitches, mixer, n);
    forall c | 0 <= c < n
      ensures w[2 * c + 1].destBus == c
    {
      assert w[2 * c + 1] == ChannelWiring(players, pitches, mixer, n)[2 * c + 1]
                          == Connection(pitches[c], 0, mixer, c);
    }
  }

  // ---------------------------------------------------------------------------
  // Channel creation
  // ---------------------------------------------------------------------------

  /** The buses getChannels creates a channel for, in order. */
  function ChannelBuses(pitchUnits: seq<Option<UnitId>>, playerUnits: seq<Option<UnitId>>, n: nat)
    : (buses: seq<nat>)
    requires n <= |pitchUnits| && n <= |playerUnits|
  {
    if n == 0 then []
    else ChannelBuses(pitchUnits, playerUnits, n - 1)
         + (if pitchUnits[n - 1].Some? && playerUnits[n - 1].Some? then [n - 1] else [])
  }

  /**
   * The channel buses are exactly the buses below n whose pitch and player units were
   * both obtained, each once, in increasing order.
   */
  lemma {:induction false} ChannelBusesShape(pitchUnits: seq<Option<UnitId>>, playerUnits: seq<Option<UnitId>>, n: nat)
    requires n <= |pitchUnits| && n <= |playerUnits|
    ensures var buses := ChannelBuses(pitchUnits, playerUnits, n);
            && |buses| <= n
            && (forall i :: 0 <= i < |buses| ==> buses[i] < n)
            && (forall i, j :: 0 <= i < j < |buses| ==> buses[i] < buses[j])
            && (forall c :: 0 <= c < n ==> (c in buses <==> pitchUnits[c].Some? && playerUnits[c].Some?))
  {
    if n > 0 {
      ChannelBusesShape(pitchUnits, playerUnits, n - 1);
      var prev := ChannelBuses(pitchUnits, playerUnits, n - 1);
      var buses := ChannelBuses(pitchUnits, playerUnits, n);
      assert forall c :: 0 <= c < n - 1 ==> (c in buses <==> c in prev);
    }
  }

  /** The format getChannels leaves in pitchFormat: that of the last channel whose pitch unit was obtained. */
  function LastPitchFormat(initial: FormatId, pitchUnits: seq<Option<UnitId>>,
                           formats: seq<Option<FormatId>>, n: nat): (f: FormatId)
    requires n <= |pitchUnits| && n <= |formats|
    requires forall c :: 0 <= c < n && pitchUnits[c].Some? ==> formats[c].Some?
  {
    if n == 0 then initial
    else if pitchUnits[n - 1].Some? then formats[n - 1].value
    else LastPitchFormat(initial, pitchUnits, formats, n - 1)
  }

  /**
   * LastPitchFormat is the initial format when no pitch unit was obtained, and otherwise
   * the format read from the last bus whose pitch unit was obtained.
   */
  lemma {:induction false} LastPitchFormatIsLast(initial: FormatId, pitchUnits: seq<Option<UnitId>>,
                                                 formats: seq<Option<FormatId>>, n: nat)
    requires n <= |pitchUnits| && n <= |formats|
    requires forall c :: 0 <= c < n && pitchUnits[c].Some? ==> formats[c].Some?
    ensures (forall c :: 0 <= c < n ==> pitchUnits[c].None?) ==> LastPitchFormat(initial, pitchUnits, formats, n) == initial
    ensures forall c :: 0 <= c < n && pitchUnits[c].Some? && (forall d :: c < d < n ==> pitchUnits[d].None?)
                        ==> LastPitchFormat(initial, pitchUnits, formats, n) == formats[c].value
  {
    if n > 0 && pitchUnits[n - 1].None? {
      LastPitchFormatIsLast(initial, pitchUnits, formats, n - 1);
    }
  }

  /** A channel on a bus c < n made from that bus's units. */
  predicate ChannelMatches(ch: Channel, pitchUnits: seq<Option<UnitId>>, playerUnits: seq<Option<UnitId>>, n: nat)
  {
    && 0 <= ch.busNum < n && ch.busNum < |pitchUnits| && ch.busNum < |playerUnits|
    && pitchUnits[ch.busNum] == Some(ch.pitchUnit)
    && playerUnits[ch.busNum] == Some(ch.playerUnit)
  }

  /** The bus numbers of the channels, in order. */
  function BusNums(cs: seq<Channel>): seq<int>
  {
    seq(|cs|, i requires 0 <= i < |cs| => cs[i].busNum)
  }

  lemma BusNumsAppend(cs: seq<Channel>, ch: Channel)
    ensures BusNums(cs + [ch]) == BusNums(cs) + [ch.busNum]
  {
  }

  // ---------------------------------------------------------------------------
  // The host transport edge detector of renderCallback
  // ---------------------------------------------------------------------------

  /**
   * The new hostIsPlaying and the notice posted: a stopped-to-playing edge posts
   * PlayButtonPressed, a playing-to-stopped edge posts PauseButtonPressed; nothing else
   * changes anything, nor does a render without host user data or with a failed status.
   */
  function HostTransport(wasPlaying: bool, hasUserData: bool, report: TransportReport)
    : (res: (bool, Option<HostNotice>))
    ensures res.1 == Some(PlayButtonPressed) <==> hasUserData && report.ok && !wasPlaying && report.isPlaying
    ensures res.1 == Some(PauseButtonPressed) <==> hasUserData && report.ok && wasPlaying && !report.isPlaying
    ensures res.0 == if hasUserData && report.ok then report.isPlaying else wasPlaying
  {
    if hasUserData && report.ok then
      if !wasPlaying && report.isPlaying then (true, Some(PlayButtonPressed))
      else if wasPlaying && !report.isPlaying then (false, Some(PauseButtonPressed))
      else (wasPlaying, None)
    else
      (wasPlaying, None)
  }

  /** The same transport state reported twice posts nothing the second time. */
  lemma TransportSettles(wasPlaying: bool, hasUserData: bool, report: TransportReport)
    ensures HostTransport(HostTransport(wasPlaying, hasUserData, report).0, hasUserData, report).1 == None
  {
  }

  /** Notices alternate: after a play notice the next one can only be a pause, and vice versa. */
  lemma NoticesAlternate(wasPlaying: bool, hasUserData: bool, r1: TransportReport, r2: TransportReport)
    requires HostTransport(wasPlaying, hasUserData, r1).1.Some?
    ensures var (now, first) := HostTransport(wasPlaying, hasUserData, r1);
            HostTransport(now, hasUserData, r2).1 != first
  {
  }

  // ---------------------------------------------------------------------------
  // The engine
  // ---------------------------------------------------------------------------

  class Engine {
    /** The AUGraph exists. */
    var hasGraph: bool
    var renderNotifyAdded: bool
    var graphOpen: bool
    var graphInitialized: bool
    /** What AUGraphIsRunning reports. */
    var running: bool

    var playerNodes: seq<NodeId>
    var pitchNodes: seq<NodeId>
    var mixerNode: NodeId
    var remoteIoNode: NodeId

    var hostCallbackInfo: HostCallbackInfo
    var hostIsPlaying: bool

    var pitchFormat: FormatId
    var channelTotal: int
    var sampleRate: real

    /** The connections requested on the current graph. */
    var connections: seq<Connection>

    /** The node arrays cover every channel, so connectNodes and getChannels index within them. */
    predicate NodesCover()
      reads this
    {
      hasGraph && 0 <= channelTotal <= |playerNodes| && channelTotal <= |pitchNodes|
    }

    /** The graph, its nodes and its connections. */
    function Graph(): GraphState
      reads this
    {
      GraphState(hasGraph, graphInitialized, playerNodes, pitchNodes, mixerNode, remoteIoNode, connections, channelTotal)
    }

    /** The shared instance as first created. */
    constructor ()
      ensures !hasGraph && !renderNotifyAdded && !graphOpen && !graphInitialized && !running
      ensures playerNodes == [] && pitchNodes == [] && mixerNode == 0 && remoteIoNode == 0
      ensures hostCallbackInfo == HostCallbackInfo(false) && !hostIsPlaying
      ensures pitchFormat == 0 && channelTotal == 1 && sampleRate == DefaultSampleRate
      ensures connections == []
    {
      hasGraph, renderNotifyAdded, graphOpen, graphInitialized, running := false, false, false, false, false;
      playerNodes, pitchNodes, mixerNode, remoteIoNode := [], [], 0, 0;
      hostCallbackInfo, hostIsPlaying := HostCallbackInfo(false), false;
      pitchFormat, channelTotal, sampleRate := 0, 1, DefaultSampleRate;
      connections := [];
    }

    /** startEngine: starts the graph only when it is not already running. */
    method StartEngine(startOk: bool)
      requires hasGraph
      modifies this`running
      ensures running == (old(running) || startOk)
    {
      if !running {
        if startOk {
          running := true;
        }
      }
    }

    /** stopEngine: stops the graph only when it is running. */
    method StopEngine(stopOk: bool)
      requires hasGraph
      modifies this`running
      ensures running == (old(running) && !stopOk)
    {
      if running {
        if stopOk {
          running := false;
        }
      }
    }

    /**
     * setup(withChannelTotal:): a new graph with the render notification, the remote I/O
     * and mixer nodes, then for each channel a pitch node and a player node, in that
     * order; `added` holds AUGraphAddNode's answers for those 2 + 2n calls.
     */
    method Setup(n: int, added: seq<Option<NodeId>>, notifyOk: bool, openOk: bool)
      requires n >= 0 && |added| == 2 + 2 * n
      modifies this`channelTotal, this`hasGraph, this`graphInitialized, this`running, this`connections,
               this`renderNotifyAdded, this`remoteIoNode, this`mixerNode, this`pitchNodes, this`playerNodes,
               this`graphOpen
      ensures channelTotal == n && hasGraph && NodesCover()
      ensures renderNotifyAdded == notifyOk && graphOpen == openOk
      ensures !graphInitialized && !running && connections == []
      ensures remoteIoNode == NodeOrZero(added[0]) && mixerNode == NodeOrZero(added[1])
      ensures |pitchNodes| == n && |playerNodes| == n
      ensures forall c :: 0 <= c < n ==>
                pitchNodes[c] == NodeOrZero(added[2 + 2 * c]) && playerNodes[c] == NodeOrZero(added[3 + 2 * c])
    {
      channelTotal := n;
      hasGraph, graphInitialized, running, connections := true, false, false, [];
      renderNotifyAdded := notifyOk;
      remoteIoNode := NodeOrZero(added[0]);
      mixerNode := NodeOrZero(added[1]);
      var pitches, players := MakeChannelNodes(n, added);
      pitchNodes, playerNodes := pitches, players;
      graphOpen := openOk;
    }

    /** The loop of setup: a pitch node, then a player node, for each channel in turn. */
    static method MakeChannelNodes(n: int, added: seq<Option<NodeId>>) returns (pitches: seq<NodeId>, players: seq<NodeId>)
      requires n >= 0 && |added| == 2 + 2 * n
      ensures |pitches| == n && |players| == n
      ensures forall c :: 0 <= c < n ==>
                pitches[c] == NodeOrZero(added[2 + 2 * c]) && players[c] == NodeOrZero(added[3 + 2 * c])
    {
      pitches, players := [], [];
      for c := 0 to n
        invariant |pitches| == c && |players| == c
        invariant forall k :: 0 <= k < c ==>
                    pitches[k] == NodeOrZero(added[2 + 2 * k]) && players[k] == NodeOrZero(added[3 + 2 * k])
      {
        pitches := pitches + [NodeOrZero(added[2 + 2 * c])];
        players := players + [NodeOrZero(added[3 + 2 * c])];
      }
    }

    /**
     * getChannels: for each channel obtains its pitch unit, reads that unit's format
     * into pitchFormat, obtains its player unit, and creates a channel on that bus when
     * both units were obtained.
     */
    method GetChannels(pitchUnits: seq<Option<UnitId>>, playerUnits: seq<Option<UnitId>>,
                       formats: seq<Option<FormatId>>) returns (channels: seq<Channel>)
      requires NodesCover()
      requires channelTotal <= |pitchUnits| && channelTotal <= |playerUnits| && channelTotal <= |formats|
      requires forall c :: 0 <= c < channelTotal && pitchUnits[c].Some? ==> formats[c].Some?
      modifies this`pitchFormat
      ensures BusNums(channels) == ChannelBuses(pitchUnits, playerUnits, channelTotal)
      ensures forall i :: 0 <= i < |channels| ==> ChannelMatches(channels[i], pitchUnits, playerUnits, channelTotal)
      ensures forall i :: 0 <= i < |channels| ==> fresh(channels[i]) && channels[i].State() == Fresh
      ensures forall i, j :: 0 <= i < j < |channels| ==> channels[i] != channels[j]
      ensures pitchFormat == LastPitchFormat(old(pitchFormat), pitchUnits, formats, channelTotal)
    {
      channels := [];
      var initial := pitchFormat;
      var format := initial;
      for c := 0 to channelTotal
        modifies {}
        invariant BusNums(channels) == ChannelBuses(pitchUnits, playerUnits, c)
        invariant forall i :: 0 <= i < |channels| ==> ChannelMatches(channels[i], pitchUnits, playerUnits, c)
        invariant forall i :: 0 <= i < |channels| ==> fresh(channels[i]) && channels[i].State() == Fresh
        invariant format == LastPitchFormat(initial, pitchUnits, formats, c)
      {
        if pitchUnits[c].Some? {
          format := formats[c].value;
          assert format == LastPitchFormat(initial, pitchUnits, formats, c + 1);
          if playerUnits[c].Some? {
            var channel := new Channel(c, playerUnits[c].value, pitchUnits[c].value);
            BusNumsAppend(channels, channel);
            assert ChannelBuses(pitchUnits, playerUnits, c + 1) == ChannelBuses(pitchUnits, playerUnits, c) + [c];
            channels := channels + [channel];
          } else {
            assert ChannelBuses(pitchUnits, playerUnits, c + 1) == ChannelBuses(pitchUnits, playerUnits, c);
          }
        } else {
          assert format == LastPitchFormat(initial, pitchUnits, formats, c + 1);
          assert ChannelBuses(pitchUnits, playerUnits, c + 1) == ChannelBuses(pitchUnits, playerUnits, c);
        }
      }
      pitchFormat := format;
      ChannelBusesShape(pitchUnits, playerUnits, channelTotal);
      forall i, j | 0 <= i < j < |channels|
        ensures channels[i] != channels[j]
      {
        assert BusNums(channels)[i] < BusNums(channels)[j];
      }
    }

    /**
     * _makeMixerUnit(withFormat:): sets the input element count to channelTotal, the
     * output sample rate and an output volume of 1, stopping with nil at the first
     * failure, then sets the stream format on every input element 0..channelTotal-1.
     */
    method MakeMixerUnit(format: FormatId, os: MixerOs) returns (mixer: Option<MixerUnit>)
      requires hasGraph && 0 <= channelTotal < UInt32Limit && |os.formatOks| >= channelTotal
      ensures mixer.Some? <==> os.unit.Some? && os.countOk && os.rateOk && os.volumeOk
      ensures mixer.Some? ==>
                && mixer.value.unit == os.unit.value
                && mixer.value.inputElementCount == channelTotal
                && mixer.value.outputSampleRate == sampleRate
                && mixer.value.outputVolume == 1.0
                && |mixer.value.inputFormats| == channelTotal
                && forall c :: 0 <= c < channelTotal ==>
                     mixer.value.inputFormats[c] == if os.formatOks[c] then Some(format) else None
    {
      if os.unit.None? || !os.countOk || !os.rateOk || !os.volumeOk {
        return None;
      }
      var inputFormats: seq<Option<FormatId>> := [];
      for c := 0 to channelTotal
        invariant |inputFormats| == c
        invariant forall k :: 0 <= k < c ==> inputFormats[k] == if os.formatOks[k] then Some(format) else None
      {
        inputFormats := inputFormats + [if os.formatOks[c] then Some(format) else None];
      }
      mixer := Some(MixerUnit(os.unit.value, channelTotal, sampleRate, 1.0, inputFormats));
    }

    /** getMixerUnit: the mixer configured with the pitch units' format. */
    method GetMixerUnit(os: MixerOs) returns (mixer: Option<MixerUnit>)
      requires hasGraph && 0 <= channelTotal < UInt32Limit && |os.formatOks| >= channelTotal
      ensures mixer.Some? <==> os.unit.Some? && os.countOk && os.rateOk && os.volumeOk
      ensures mixer.Some? ==>
                && mixer.value.inputElementCount == channelTotal
                && |mixer.value.inputFormats| == channelTotal
                && forall c :: 0 <= c < channelTotal && os.formatOks[c] ==>
                     mixer.value.inputFormats[c] == Some(pitchFormat)
    {
      mixer := MakeMixerUnit(pitchFormat, os);
    }

    /**
     * getRemoteIoUnit: the remote I/O unit, or nil; when the unit exists and its host
     * callback info can be read, that info is kept for the render callback.
     */
    method GetRemoteIoUnit(unit: Option<UnitId>, info: Option<HostCallbackInfo>) returns (r: Option<UnitId>)
      requires hasGraph
      modifies this`hostCallbackInfo
      ensures r == unit
      ensures hostCallbackInfo == if unit.Some? && info.Some? then info.value else old(hostCallbackInfo)
    {
      if unit.Some? {
        if info.Some? {
          hostCallbackInfo := info.value;
        }
        return unit;
      }
      return None;
    }

    /** connectNodes: requests the wiring player c -> pitch c -> mixer bus c, then mixer -> remote I/O. */
    method ConnectNodes()
      requires NodesCover()
      modifies this`connections
      ensures connections == old(connections)
                             + Wiring(playerNodes, pitchNodes, mixerNode, remoteIoNode, channelTotal)
    {
      for c := 0 to channelTotal
        invariant connections == old(connections) + ChannelWiring(playerNodes, pitchNodes, mixerNode, c)
      {
        connections := connections + [Connection(playerNodes[c], 0, pitchNodes[c], 0)];
        connections := connections + [Connection(pitchNodes[c], 0, mixerNode, c)];
      }
      connections := connections + [Connection(mixerNode, 0, remoteIoNode, 0)];
    }

    /** start: initialises the graph, then startEngine. */
    method Start(initOk: bool, startOk: bool)
      requires hasGraph
      modifies this`graphInitialized, this`running
      ensures graphInitialized == initOk
      ensures running == (old(running) || startOk)
    {
      graphInitialized := initOk;
      StartEngine(startOk);
    }

    /**
     * renderCallback: follows the host transport's play state, posting a notice on each
     * edge, and always answers 0.
     */
    method RenderCallback(report: TransportReport) returns (status: int, notice: Option<HostNotice>)
      modifies this`hostIsPlaying
      ensures status == 0
      ensures (hostIsPlaying, notice) == HostTransport(old(hostIsPlaying), hostCallbackInfo.hasUserData, report)
    {
      notice := None;
      if hostCallbackInfo.hasUserData {
        if report.ok {
          if !hostIsPlaying && report.isPlaying {
            hostIsPlaying := true;
            notice := Some(PlayButtonPressed);
          } else if hostIsPlaying && !report.isPlaying {
            hostIsPlaying := false;
            notice := Some(PauseButtonPressed);
          }
        }
      }
      status := 0;
    }
  }
}
