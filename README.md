# XvAudioSystem, modelled in Dafny

XvAudioSystem is an iOS sound-playback library built on an AUGraph. The graph has one
file-player unit and one time-pitch unit per channel, a multichannel mixer and a remote
I/O unit.

The library offers two facades:

- **XvAudioSystem** is the original one. It plays a `.wav` file on the first channel
  that reports itself free, after setting that mixer bus's volume and pan. It also
  - counts free channels and reports the busy share;
  - blocks playback during an audio-session interruption;
  - fades every bus out, one timer tick at a time. Once every bus is silent it resets
    the channels and stops the engine.
- **XvmAudioSystem** is the newer one, over a pool of voices. It
  - turns a note name such as "A#4" into the pitch argument of the current pitch mode
    (cents for the time-pitch unit, a rate for varispeed);
  - plays on the first free voice and answers that voice's id, or -1;
  - sets per-voice volumes by index;
  - reports a rounded busy percentage;
  - shuts every voice down.

The model has eight modules, one file each:

- `Utils` (utils.dfy): note-name parsing to MIDI-style numbers, cents, varispeed
  semitone deltas, and four-character codes.
- `Channels` (channel.dfy): one channel's state machine.
  - The state is its end frame, its open audio file, and a log of the calls it issues
    on its player unit, its pitch unit and its file.
  - `isAvailable`, `play` and `reset` are specified by step functions on that state
    (`Availability`, `PlayStep`, `ResetChannelStep`). The class's methods are proved
    against those functions.
- `Engines` (engine.dfy): the abstract graph.
  - The graph is node ids, the connections requested, and flags for "the graph exists,
    is open, is initialised, is running".
  - It covers the channel factory, the mixer configuration, and the host-transport
    edge detector of the render callback.
- `VoiceEngines` (voice_engine.dfy): the voice and voice-engine interface that
  XvmAudioSystem calls. Its implementation is not part of this model.
- `XvAudio` (xv_audio_system.dfy) and `XvmAudio` (xvm_audio_system.dfy): the two
  facades, modelled as classes over sequences of channel objects.
- `Pools` (pools.dfy) holds the first-free and counting queries both facades share.
- `Wrappers` (wrappers.dfy) holds `Option`.

Every operating-system answer is a parameter. That covers:

- AudioUnit, AUGraph and AudioFile call statuses and results;
- the player's current play time;
- whether a voice starts playing.

`Channels.Probe` holds what one `isAvailable` call meets, `Channels.PlayEnv` what one
`play` meets, and `XvAudio.SetupOs` what one `setup` meets.

Volumes and pans are integers in hundredths: unity gain is 100 and the fade-out step
0.05 is 5.

Some methods are one source function split in two, each half with its own contract:

- `XvAudio.XvAudioSystem.TakeChannels` and `WireAndStart` are the halves of `setup`.
- `PlayOnFree` and `PlayOn` are the halves of `playSound`.
- `QueryChannel` is one `isAvailable` call inside the channel scans.
- `LowerVolumes` is the loop of `_fadeOutChannels`.
- `Engines.Engine.MakeChannelNodes` is the loop of the engine's `setup`.

## Model

| member | source | states |
|---|---|---|
| Utils.LetterPart | XvAudioSystem/Private/Utils.swift:67-75 | the letter part holds only letters, '#' and 'b', and is no longer than the note |
| Utils.OctavePart | XvAudioSystem/Private/Utils.swift:67-75 | the octave part holds only decimal digits and is no longer than the note |
| Utils.NoteNumber | XvAudioSystem/Private/Utils.swift:77-81 | the number exists exactly when the letter part is a key of the note table and the octave digits are non-empty and within Int.max; then the number mod 12 is the table's semitone and the number div 12 is octave + 1 |
| Utils.MidiNoteNumber | XvAudioSystem/Private/Utils.swift:60-82 | the character loop that builds the two parts answers exactly the value midiNoteNumber specifies for the whole string |
| Utils.NoteMapRange | XvAudioSystem/Private/Utils.swift:61-65 | every entry of the 17-entry table is a semitone 0..11 |
| Utils.SharpNamesInTable | XvAudioSystem/Private/Utils.swift:61-65 | each of the twelve semitones has a sharp spelling among the table's keys |
| Utils.EnharmonicTable | XvAudioSystem/Private/Utils.swift:61-65 | C#/Db, D#/Eb, F#/Gb, G#/Ab and A#/Bb name the same semitone |
| Utils.LetterPartAppend | XvAudioSystem/Private/Utils.swift:67-75 | splitting distributes over concatenation, so characters are classified one at a time, independently of their neighbours |
| Utils.LettersOnly | XvAudioSystem/Private/Utils.swift:67-75 | a string of letters, '#' and 'b' is all letter part and no octave |
| Utils.DigitsOnly | XvAudioSystem/Private/Utils.swift:67-75 | a string of digits is all octave part and no letters |
| Utils.DroppedCharacter | XvAudioSystem/Private/Utils.swift:67-75 | a character that is neither a letter, '#', 'b' nor a digit is dropped: inserting it anywhere does not change the result |
| Utils.NoteWithOctave | XvAudioSystem/Private/Utils.swift:60-82 | a name of letters followed by digits is read as exactly that letter part and that octave |
| Utils.OneOctaveDigit | XvAudioSystem/Private/Utils.swift:60-82 | a name followed by one digit is read with that digit as its octave |
| Utils.MidiOfC3 | XvAudioSystem/Private/Utils.swift:60-82 | "C3" is 48 |
| Utils.MidiOfC4 | XvAudioSystem/Private/Utils.swift:60-82 | "C4" is 60 |
| Utils.MidiOfA4 | XvAudioSystem/Private/Utils.swift:60-82 | "A4" is 69 |
| Utils.MidiOfC2 | XvAudioSystem/Private/Utils.swift:60-82 | "C2" is 36 |
| Utils.MidiOfC1 | XvAudioSystem/Private/Utils.swift:60-82 | "C1" is 24 |
| Utils.UnlistedLetters | XvAudioSystem/Private/Utils.swift:77-79 | a letter part that is not a key of the table gives nil, whatever octave digits follow |
| Utils.MidiOfUnlisted | XvAudioSystem/Private/Utils.swift:77-79 | letter parts outside the table give nil: "H3", "E#3" (not listed although it is the pitch of F) and "Cx3" (the letter x joins the letter part) |
| Utils.MidiOfNoOctave | XvAudioSystem/Private/Utils.swift:77-79 | "C", with no octave digits, is nil |
| Utils.MinusSignDropped | XvAudioSystem/Private/Utils.swift:67-75 | "C-1" reads as "C1", number 24: the minus sign is dropped |
| Utils.SameSemitone | XvAudioSystem/Private/Utils.swift:61-81 | two spellings of the same semitone give the same number with any octave digits |
| Utils.DecimalString | XvAudioSystem/Private/Utils.swift:77 | the decimal spelling of n is a non-empty digit string that parses back to n |
| Utils.NoteNameRoundTrip | XvAudioSystem/Private/Utils.swift:60-82 | naming a MIDI number of octave 0 or above by its sharp spelling and octave, then parsing the name, gives the number back |
| Utils.ParsedNoteHasName | XvAudioSystem/Private/Utils.swift:60-82 | every note that parses has a canonical sharp name that parses to the same number |
| Utils.PitchShiftCents | XvAudioSystem/Private/Utils.swift:85-91 | the cents are nil exactly when target or base fails to parse, and otherwise a multiple of 100 |
| Utils.CentsAntisymmetric | XvAudioSystem/Private/Utils.swift:90 | swapping target and base negates the cents, nil staying nil |
| Utils.CentsOfSelf | XvAudioSystem/Private/Utils.swift:90 | a note that parses is 0 cents from itself |
| Utils.CentsChain | XvAudioSystem/Private/Utils.swift:90 | cents add up along a chain of notes a, b, c |
| Utils.CentsExamples | XvAudioSystem/Private/Utils.swift:85-91 | from the default base "C3", "C3" is 0 cents and "C4" is 1200 |
| Utils.VarispeedSemitones | XvAudioSystem/Private/Utils.swift:94-100 | the varispeed exponent is nil exactly when target or base fails to parse |
| Utils.VarispeedMatchesCents | XvAudioSystem/Private/Utils.swift:94-100 | varispeedRate is nil exactly when pitchShiftCents is, and its semitone delta is the cents divided by 100 |
| Utils.VarispeedExamples | XvAudioSystem/Private/Utils.swift:94-100 | from "C3", "C4" is +12 semitones (rate 2) and "C2" is -12 (rate 1/2) |
| Utils.FourCharCodeFrom | XvAudioSystem/Private/Utils.swift:32-39 | the loop that shifts in one code unit per character packs the four characters big-endian, c0·2^24 + c1·2^16 + c2·2^8 + c3, and the code fits in 32 bits |
| Utils.PackedFour | XvAudioSystem/Private/Utils.swift:32-39 | base-256 packing of four characters is the big-endian sum |
| Utils.UnpackFourCharCode | XvAudioSystem/Private/Utils.swift:32-39 | a 32-bit code unpacks into four characters below 256 |
| Utils.UnpackPacked | XvAudioSystem/Private/Utils.swift:32-39 | unpacking a packed four-character code gives the characters back |
| Utils.PackUnpacked | XvAudioSystem/Private/Utils.swift:32-39 | packing an unpacked code gives the code back, so packing is a bijection onto 32-bit codes |
| Pools.FirstFree | XvAudioSystem/Public/XvmAudioSystem.swift:126-128 | the answer is the first free position, with every earlier one busy; nil only when all are busy |
| Pools.CountFreeBounds | XvAudioSystem/Public/XvAudioSystem.swift:284-297 | the free count is at most the pool size; it is 0 exactly when none is free and the size exactly when all are |
| Pools.CountBusy | XvAudioSystem/Public/XvmAudioSystem.swift:183 | the busy count is at most the pool size; it is 0 exactly when all are free and the size exactly when none is |
| Pools.FreePlusBusy | XvAudioSystem/Public/XvmAudioSystem.swift:183 | free and busy counts add up to the pool size |
| Pools.FirstFreeIffCount | XvAudioSystem/Public/XvAudioSystem.swift:173-188 | a first free voice exists exactly when the free count is positive |
| Channels.CurrentFrame | XvAudioSystem/Private/Channel.swift:275-306 | the frame is 0 on a failed query or a sample time not above 0, and otherwise the sample time truncated |
| Channels.ResetStep | XvAudioSystem/Private/Channel.swift:260-272 | resetting the player issues one reset and answers its status |
| Channels.CloseStep | XvAudioSystem/Private/Channel.swift:342-365 | closing answers true exactly when a file was open and the close succeeded; with no file it changes nothing; a file is forgotten only on success; the end frame is untouched |
| Channels.PhaseOf | XvAudioSystem/Private/Channel.swift:69-90 | unused exactly when frame and end frame are both 0; finished exactly when the frame is past the end frame |
| Channels.Availability | XvAudioSystem/Private/Channel.swift:60-93 | an unused channel is free and unchanged; a sounding one is busy and unchanged; a finished one resets its player, closes its file, and is free exactly when the close succeeded, with the end frame zeroed only then |
| Channels.InitPlayerStep | XvAudioSystem/Private/Channel.swift:143-228 | with a file open it schedules the file, a region over the whole file and a prime of 0 frames, stopping at the first failure; it succeeds exactly when all three do; with no file it does nothing and fails |
| Channels.PlayStep | XvAudioSystem/Private/Channel.swift:95-141 | play opens the new file even when that fails; it sets the end frame to packets × frames per packet only when load, format and packet count all succeed; it answers the start result when initialisation succeeds and the pitch setter's status otherwise; its calls begin with reset, pitch, open |
| Channels.ResetChannelStep | XvAudioSystem/Private/Channel.swift:452-456 | reset always zeroes the end frame, resets the player, and closes an open file |
| Channels.ResetThenAvailable | XvAudioSystem/Private/Channel.swift:452-456 | after a reset, a player at frame 0 makes the channel free and unchanged |
| Channels.AvailabilityIgnoresResetStatus | XvAudioSystem/Private/Channel.swift:74-84 | the player-reset status never affects isAvailable, because the close result overwrites it |
| Channels.CloseIdempotent | XvAudioSystem/Private/Channel.swift:342-365 | after a successful close a second close fails and changes nothing |
| Channels.RecycledStaysFree | XvAudioSystem/Private/Channel.swift:60-93 | a channel recycled by isAvailable is free again at frame 0 |
| Channels.StartedIsBusy | XvAudioSystem/Private/Channel.swift:86-90 | after a measured play, the channel is busy and untouched while the frame is positive and within the new end frame |
| Channels.PlayWithoutFile | XvAudioSystem/Private/Channel.swift:97-134 | when the file cannot be loaded, play answers the pitch setter's status and keeps the end frame |
| Channels.PlayedRegion | XvAudioSystem/Private/Channel.swift:168-176 | every region play schedules starts at time 0 and frame 0, does not loop, plays exactly the new end frame's frames, and names the newly opened file |
| Channels.Channel.constructor | XvAudioSystem/Private/Channel.swift:48-55 | a new channel is on its bus with its units, has no file, end frame 0 and no calls |
| Channels.Channel.IsAvailable | XvAudioSystem/Private/Channel.swift:60-93 | the answer and the new state are those of Availability |
| Channels.Channel.Play | XvAudioSystem/Private/Channel.swift:95-141 | the answer and the new state are those of PlayStep |
| Channels.Channel.InitPlayer | XvAudioSystem/Private/Channel.swift:143-228 | the answer and the new state are those of InitPlayerStep |
| Channels.Channel.StartPlayer | XvAudioSystem/Private/Channel.swift:230-254 | schedules a start at sample time -1 (the next render cycle) and answers the status |
| Channels.Channel.ResetAudioPlayer | XvAudioSystem/Private/Channel.swift:260-272 | the answer and the new state are those of ResetStep |
| Channels.Channel.SetPitch | XvAudioSystem/Private/Channel.swift:428-446 | sets the pitch parameter once and answers the status |
| Channels.Channel.CloseFile | XvAudioSystem/Private/Channel.swift:342-365 | the answer and the new state are those of CloseStep |
| Channels.Channel.Reset | XvAudioSystem/Private/Channel.swift:452-456 | the new state is that of ResetChannelStep |
| Engines.ChannelWiring | XvAudioSystem/Private/Engine.swift:333-347 | n channels need exactly 2n connections |
| Engines.ChannelWiringShape | XvAudioSystem/Private/Engine.swift:333-347 | connection 2c is player c → pitch c on bus 0; connection 2c+1 is pitch c → mixer input c |
| Engines.WiringShape | XvAudioSystem/Private/Engine.swift:333-347 | connectNodes requests exactly 2n + 1 connections: player c → pitch c, pitch c → mixer input c, then mixer → remote I/O on bus 0; no two channels share a mixer input |
| Engines.ChannelBusesShape | XvAudioSystem/Private/Engine.swift:265-298 | the channels' buses are at most n, all below n, strictly increasing, and are exactly the buses whose pitch and player units were both obtained |
| Engines.LastPitchFormatIsLast | XvAudioSystem/Private/Engine.swift:265-298 | pitchFormat ends as the format of the last bus whose pitch unit was obtained, or unchanged when there was none |
| Engines.BusNumsAppend | XvAudioSystem/Private/Engine.swift:282-285 | appending a channel appends its bus number |
| Engines.HostTransport | XvAudioSystem/Private/Engine.swift:50-75 | a stopped-to-playing edge posts a play notice and a playing-to-stopped edge a pause notice; the flag follows the report; without host user data or on a failed query nothing changes |
| Engines.TransportSettles | XvAudioSystem/Private/Engine.swift:50-75 | the same transport state reported twice posts nothing the second time |
| Engines.NoticesAlternate | XvAudioSystem/Private/Engine.swift:50-75 | play and pause notices alternate: after one, the next notice cannot be the same kind |
| Engines.Engine.constructor | XvAudioSystem/Private/Engine.swift:118-121 | the shared engine starts with no graph, no nodes, no connections, not running, channel total 1 |
| Engines.Engine.StartEngine | XvAudioSystem/Private/Engine.swift:126-148 | the graph runs afterwards when it already ran or the start succeeded, so a second start changes nothing |
| Engines.Engine.StopEngine | XvAudioSystem/Private/Engine.swift:150-169 | the graph runs afterwards only when it ran and the stop failed, so a second stop changes nothing |
| Engines.Engine.Setup | XvAudioSystem/Private/Engine.swift:228-261 | a new graph, neither initialised nor running, with no connections; remote I/O, mixer, then one pitch node and one player node per channel; each node is the one added or 0 when adding failed; both node arrays have exactly channelTotal entries |
| Engines.Engine.MakeChannelNodes | XvAudioSystem/Private/Engine.swift:249-257 | the per-channel loop of setup: exactly n pitch nodes and n player nodes, each the node added or 0 |
| Engines.Engine.GetChannels | XvAudioSystem/Private/Engine.swift:265-298 | a fresh, unused channel for exactly the buses whose pitch and player units were both obtained, in bus order, on that bus's units, all distinct; pitchFormat is the last pitch unit's format |
| Engines.Engine.MakeMixerUnit | XvAudioSystem/Private/Engine.swift:552-628 | the mixer exists exactly when the unit, its element count, sample rate and volume calls succeed; its input element count is channelTotal; each input element 0..channelTotal-1 carries the format when that call succeeded |
| Engines.Engine.GetMixerUnit | XvAudioSystem/Private/Engine.swift:303-306 | the mixer is built with the pitch units' format on every input element whose format call succeeded |
| Engines.Engine.GetRemoteIoUnit | XvAudioSystem/Private/Engine.swift:310-328 | answers the remote I/O unit; it keeps the host callback info only when both the unit and the info were obtained |
| Engines.Engine.ConnectNodes | XvAudioSystem/Private/Engine.swift:333-347 | appends exactly the wiring of WiringShape to the connections |
| Engines.Engine.Start | XvAudioSystem/Private/Engine.swift:352-355 | initialises the graph, then starts it unless it is already running |
| Engines.Engine.RenderCallback | XvAudioSystem/Private/Engine.swift:12-80 | the transport flag and notice follow HostTransport, and the callback always answers 0 |
| VoiceEngines.Voice.constructor | XvAudioSystem/Public/XvmAudioSystem.swift:42 | a new voice has its id, unity volume, and is free |
| VoiceEngines.Voice.PlaySound | XvAudioSystem/Public/XvmAudioSystem.swift:116 | a voice that starts plays at the requested volume; one that does not is left as it was |
| VoiceEngines.Voice.SetVolume | XvAudioSystem/Public/XvmAudioSystem.swift:133 | the voice takes the volume |
| VoiceEngines.Voice.StopPlayback | XvAudioSystem/Public/XvmAudioSystem.swift:174 | the voice is no longer playing |
| VoiceEngines.VoiceEngine.constructor | XvAudioSystem/Public/XvmAudioSystem.swift:25 | the shared engine starts not running, with no voices |
| VoiceEngines.VoiceEngine.StartEngine | XvAudioSystem/Public/XvmAudioSystem.swift:113 | the engine runs |
| VoiceEngines.VoiceEngine.StopEngine | XvAudioSystem/Public/XvmAudioSystem.swift:158 | the engine is stopped |
| VoiceEngines.VoiceEngine.Setup | XvAudioSystem/Public/XvmAudioSystem.swift:42 | the engine takes the pitch mode and FFT switch and has exactly n fresh, free, distinct voices with ids 0..n-1; it answers the remote I/O unit |
| VoiceEngines.VoiceEngine.GetChannels | XvAudioSystem/Public/XvmAudioSystem.swift:47 | answers the engine's voices |
| XvmAudio.ConvertPitch | XvAudioSystem/Public/XvmAudioSystem.swift:71-90 | time-pitch mode passes the cents from C3, or 0 when the note fails; varispeed passes the rate for the semitone delta from C3, or rate 1 (delta 0) when it fails; any other mode passes 0 |
| XvmAudio.BaseNoteIsNeutral | XvAudioSystem/Public/XvmAudioSystem.swift:71-90 | C3 is pitched neutrally in every mode: 0 cents or rate 1 |
| XvmAudio.UnparsedNoteIsNeutral | XvAudioSystem/Public/XvmAudioSystem.swift:71-90 | a note that does not parse is pitched like C3, that is neutrally |
| XvmAudio.ConvertPitchExamples | XvAudioSystem/Public/XvmAudioSystem.swift:71-90 | "C4" is +1200 cents in time-pitch mode and "A4" is 21 semitones up in varispeed mode |
| XvmAudio.Free | XvAudioSystem/Public/XvmAudioSystem.swift:183 | one entry per voice, each whether that voice is free |
| XvmAudio.RoundedPercent | XvAudioSystem/Public/XvmAudioSystem.swift:184-185 | the result is within half a unit of 100·busy/total, halves rounding up |
| XvmAudio.RoundedPercentBounds | XvAudioSystem/Public/XvmAudioSystem.swift:181-185 | for busy ≤ total the rounded share is in 0..100, is 0 exactly when busy is under half a percent, and is 100 when all are busy |
| XvmAudio.ShutdownCalls | XvAudioSystem/Public/XvmAudioSystem.swift:172-175 | for each voice in order, volume 0 then stop playback: two calls per voice |
| XvmAudio.XvmAudioSystem.constructor | XvAudioSystem/Public/XvmAudioSystem.swift:17-29 | no voices, channel total 1, time-pitch mode |
| XvmAudio.XvmAudioSystem.Setup | XvAudioSystem/Public/XvmAudioSystem.swift:32-55 | records the total and the pitch mode; takes the engine's n fresh free voices only when the engine answers a remote I/O unit, which it answers |
| XvmAudio.XvmAudioSystem.GetAvailableChannel | XvAudioSystem/Public/XvmAudioSystem.swift:126-128 | the first free voice in array order, every earlier one busy; nil only when all are busy |
| XvmAudio.XvmAudioSystem.IsChannelAvailable | XvAudioSystem/Public/XvmAudioSystem.swift:57-59 | true exactly when some voice is free |
| XvmAudio.XvmAudioSystem.PlaySound | XvAudioSystem/Public/XvmAudioSystem.swift:97-122 | with every voice busy: -1 and no engine or voice call; otherwise the engine is started first when not running, the first free voice is asked to play, and the answer is its id when it starts and -1 when not; no other voice changes |
| XvmAudio.XvmAudioSystem.PlaySoundAtNote | XvAudioSystem/Public/XvmAudioSystem.swift:62-91 | plays with the pitch ConvertPitch gives for the current mode and note, with the same results as PlaySound: -1 with no voice touched when all are busy; otherwise the engine runs, the first free voice plays at the volume if it starts, and every other voice keeps its state |
| XvmAudio.XvmAudioSystem.SetVolume | XvAudioSystem/Public/XvmAudioSystem.swift:131-134 | only the voice at a valid index takes the volume; an index outside 0..count-1 changes nothing; no voice starts or stops |
| XvmAudio.XvmAudioSystem.BeginInterruption | XvAudioSystem/Public/XvmAudioSystem.swift:157-159 | stops the engine |
| XvmAudio.XvmAudioSystem.EndInterruption | XvAudioSystem/Public/XvmAudioSystem.swift:161-163 | starts the engine |
| XvmAudio.XvmAudioSystem.Shutdown | XvAudioSystem/Public/XvmAudioSystem.swift:170-177 | every voice ends at volume 0 and stopped, in array order, and then the engine is stopped |
| XvmAudio.XvmAudioSystem.GetPercentageOfBusyChannels | XvAudioSystem/Public/XvmAudioSystem.swift:180-186 | 0 for an empty pool; otherwise the busy share rounded to the nearest percent, in 0..100, 0 when all voices are free and 100 when none is |
| XvAudio.Lowered | XvAudioSystem/Public/XvAudioSystem.swift:370-374 | a volume lowered by one step, clamped at 0 and never negative |
| XvAudio.FadeTickElsewhere | XvAudioSystem/Public/XvAudioSystem.swift:364-390 | a fade tick leaves a bus that no channel is on as it was |
| XvAudio.FadeTickOnBuses | XvAudioSystem/Public/XvAudioSystem.swift:364-390 | on distinct buses, a tick lowers each bus whose volume was read and written by one step, clamped at 0, and leaves the others |
| XvAudio.FadeTickFlag | XvAudioSystem/Public/XvAudioSystem.swift:361-390 | the flag "some channel above zero" is set exactly when some readable bus had at least one step of volume |
| XvAudio.FadeTickEffect | XvAudioSystem/Public/XvAudioSystem.swift:361-390 | the three facts above together: the effect of a tick on every bus, and its flag |
| XvAudio.FadeNeverRaises | XvAudioSystem/Public/XvAudioSystem.swift:364-390 | whatever the buses and failures, a tick never raises a volume that was not negative and never makes it negative |
| XvAudio.FadeCompletes | XvAudioSystem/Public/XvAudioSystem.swift:364-400 | the fade completes on a tick exactly when every readable volume was already below one step |
| XvAudio.FadeProgresses | XvAudioSystem/Public/XvAudioSystem.swift:358-401 | a tick that does not complete the fade, with every write succeeding, strictly lowers some bus, so the fade ends |
| XvAudio.TruncDiv | XvAudioSystem/Public/XvAudioSystem.swift:166 | Swift's integer division, truncating toward zero: the remainder has the dividend's sign (or is 0) and is smaller than the divisor in magnitude; for a non-negative dividend and positive divisor it is Dafny's division |
| XvAudio.BusyPercentBounds | XvAudioSystem/Public/XvAudioSystem.swift:161-170 | when no more channels are free than channelTotal, the busy share is in 0..100; it is 0 when all are free and 100 when none is |
| XvAudio.BusyPercentTruncates | XvAudioSystem/Public/XvAudioSystem.swift:165-166 | the share is truncated, not rounded: 1 of 3 channels busy is 33, 2 are 66 |
| XvAudio.States | XvAudioSystem/Public/XvAudioSystem.swift:51 | one state per channel, in order |
| XvAudio.Answers | XvAudioSystem/Public/XvAudioSystem.swift:272-276 | each channel's isAvailable answer, given its state and what the OS reports |
| XvAudio.Queried | XvAudioSystem/Public/XvAudioSystem.swift:272-276 | the first n channels have taken their isAvailable step, and the others are untouched |
| XvAudio.FirstFitQueried | XvAudioSystem/Public/XvAudioSystem.swift:268-281 | getChannel queries up to and including the first free channel, never more than all of them |
| XvAudio.ChannelsOnBuses | XvAudioSystem/Private/Engine.swift:265-298 | the channels getChannels answers are at most n, on strictly increasing buses below n, and distinct objects |
| XvAudio.XvAudioSystem.constructor | XvAudioSystem/Public/XvAudioSystem.swift:44-68 | no engine and no channels, channel total 1, no interruption, no fade |
| XvAudio.XvAudioSystem.Setup | XvAudioSystem/Public/XvAudioSystem.swift:70-100 | takes the shared engine set up with channelTotal; takes a fresh channel for each bus with both units; the mixer is configured exactly when its calls succeed; the graph is wired as WiringShape states, initialised and started per the statuses; answers the remote I/O unit |
| XvAudio.XvAudioSystem.TakeChannels | XvAudioSystem/Public/XvAudioSystem.swift:74-84 | the engine is set up and its channels taken, not yet wired or running |
| XvAudio.XvAudioSystem.WireAndStart | XvAudioSystem/Public/XvAudioSystem.swift:86-98 | mixer and remote I/O unit taken, nodes wired, graph initialised and started |
| XvAudio.XvAudioSystem.GetChannel | XvAudioSystem/Public/XvAudioSystem.swift:268-281 | answers the first channel whose isAvailable is true, or nil; exactly the channels up to and including that one are queried, in order, and the rest are untouched |
| XvAudio.XvAudioSystem.QueryChannel | XvAudioSystem/Public/XvAudioSystem.swift:273 | one channel's isAvailable; no other channel changes |
| XvAudio.XvAudioSystem.IsChannelAvailable | XvAudioSystem/Public/XvAudioSystem.swift:173-188 | true exactly when getChannel finds a channel, with the same queries made |
| XvAudio.XvAudioSystem.GetNumberOfAvailableChannels | XvAudioSystem/Public/XvAudioSystem.swift:284-297 | queries every channel once, in order, and answers how many were free, at most the channel count |
| XvAudio.XvAudioSystem.GetPercentageOfBusyChannels | XvAudioSystem/Public/XvAudioSystem.swift:161-170 | (100·(channelTotal − free)) / channelTotal with truncating division, in 0..100, after querying every channel |
| XvAudio.XvAudioSystem.SetBusVolume | XvAudioSystem/Public/XvAudioSystem.swift:315-333 | the bus's mixer volume is written exactly when the call succeeds, and the status is answered |
| XvAudio.XvAudioSystem.SetBusPan | XvAudioSystem/Public/XvAudioSystem.swift:335-354 | the bus's mixer pan is written exactly when the call succeeds, and the status is answered |
| XvAudio.XvAudioSystem.GetBusVolume | XvAudioSystem/Public/XvAudioSystem.swift:301-313 | the bus's mixer volume, or nil when the query fails |
| XvAudio.XvAudioSystem.PlaySound | XvAudioSystem/Public/XvAudioSystem.swift:111-156 | during an interruption: false, nothing touched. With no free channel: false, after querying every channel. Otherwise, on the first free channel: its bus volume then pan are set, the ".wav" sound is played, and the answer is true when play succeeds and the pan status when it does not |
| XvAudio.XvAudioSystem.PlayOnFree | XvAudioSystem/Public/XvAudioSystem.swift:127-154 | the part of playSound after the interruption guard, with the same results |
| XvAudio.XvAudioSystem.PlayOn | XvAudioSystem/Public/XvAudioSystem.swift:129-147 | on the channel found: its bus volume and pan set, its play step taken; the answer is the play result or the pan status; no other channel changes |
| XvAudio.XvAudioSystem.Shutdown | XvAudioSystem/Public/XvAudioSystem.swift:218-231 | the repeating fade-out timer is scheduled |
| XvAudio.XvAudioSystem.BeginInterruption | XvAudioSystem/Public/XvAudioSystem.swift:250-259 | playback is blocked and the fade is started |
| XvAudio.XvAudioSystem.EndInterruption | XvAudioSystem/Public/XvAudioSystem.swift:195-213 | playback is unblocked, the fade timer cancelled, and the engine started unless it is running; the graph and the channels stay as they were, so playSound can follow |
| XvAudio.XvAudioSystem.FadeOutComplete | XvAudioSystem/Public/XvAudioSystem.swift:403-419 | every channel takes the reset step, then the engine is stopped if there is one; the rest of the graph stays as it was |
| XvAudio.XvAudioSystem.FadeOutChannels | XvAudioSystem/Public/XvAudioSystem.swift:358-401 | one tick: the volumes become FadeTick's. While some channel was above zero, the timer and channels are untouched. Otherwise the timer stops, every channel is reset and the engine is stopped. The graph stays as it was and the system stays valid, so the next tick can follow |
| XvAudio.XvAudioSystem.LowerVolumes | XvAudioSystem/Public/XvAudioSystem.swift:361-390 | the loop lowers every channel's bus and sets the flag exactly as FadeTick does |

## Left out

- Unicode: `Character.isLetter` and `isNumber` are modelled on ASCII letters and digits only.
  Other scripts' letters and numerals are not classified the way Swift does.
- Utils.NoteNumber: the 64-bit overflow trap of `(octave + 1) * 12` is not modelled.
  `Int(String)` returning nil above Int.max is modelled.
- Utils.FourCharCodeFrom: requires characters below 256. For wider UTF-16 code units the
  source's left shift drops bits and the addition can trap; that arithmetic is not modelled.
- Floating point. `pow(2, delta / 12)` in varispeedRate is left out: `PitchArg.Rate(k)`
  stands for 2^(k/12), and only whole octaves get an exact rate (`OctaveRate`). Volumes,
  pans and cents are integers in hundredths.
- XvmAudio.RoundedPercent: Double's rounding of `busy / total * 100` is replaced by the same
  division on exact rationals.
- XvAudio.BusyPercent: Swift traps when channelTotal is 0. That case is a precondition, not a
  modelled trap.
- The `_getFormat` force unwrap in getChannels appears as a precondition: every pitch unit
  obtained has a readable format.
- The `mixerUnit!` unwraps in the bus setters and getter appear as preconditions.
- Swift traps that appear as preconditions instead of modelled traps:
  `FrameFits` for `UInt32(currTimeStamp.mSampleTime)` (Channel.swift:297);
  `EndFrameFits` for `UInt32(packets) * mFramesPerPacket` (Channel.swift:119);
  `channelTotal < UInt32Limit` in `MakeMixerUnit` and `SetupFits` for `UInt32(channelTotal)`
  (Engine.swift:564); `bus < UInt32Limit` in `SetBusVolume`, `SetBusPan` and `GetBusVolume`
  for `UInt32(forBus)` (XvAudioSystem.swift:305, 321, 342); `n >= 0` in `Engine.Setup` for the
  `0 ..< channelTotal` range (Engine.swift:252).
- Engines.HostTransport: host user data is taken to come with a transport-state callback.
  The force unwrap of `transportStateProc2` (Engine.swift:39) is not modelled as a trap.
- XvAudio.XvAudioSystem.GetBusVolume: a bus never written reads as unity gain, which is the
  mixer's default input volume.
- Statuses the source prints and ignores do not change what happens next. The statuses of
  AUGraphConnectNodeInput and of the player unit's stream-format setter are not modelled; the
  connections list holds the requests. The statuses of AUGraphOpen and of the render-notify
  registration are kept only as the engine flags `graphOpen` and `renderNotifyAdded`, which
  nothing reads. The mixer's per-input format statuses are inputs of `MakeMixerUnit`.
  No pitch unit's stream format is set.
- `NewAUGraph` is assumed to succeed.
- The player units' stream format, the mixer's sample rate value and unit descriptions are
  abstract ids. The component descriptions and constants files are not part of this model.
- Timers: `shutdown` schedules a repeating timer, which is the flag `fadeTimerActive`.
  The timer firing is one call of `FadeOutChannels`; timer intervals are not modelled.
- Notifications posted (`Utils.postNotification`), `print`, `printErrorMessage`,
  `printASBD`, `outputStatus` and the `deinit` bodies are I/O or cleanup, and are left out.
  The render callback's notice is the answer `notice`.
- getRemoteIOAudioUnit (XvAudioSystem.swift:103-105) only answers a stored field, and is left out.
- The engine's sample-rate getter and setter, and the graph's open, start and running
  queries, are folded into flags of `Engines.Engine`.
- XvmAudioSystem's effect setters (reverb, delay, low-pass filter), `fftDidUpdate` and the
  delegate callbacks are left out. They only forward to effect units or the app.
- The voice engine and voice API that XvmAudioSystem calls is not part of this model. It is
  stated abstractly: a voice is free when it is not playing, and its answers are inputs.
- The singletons, the audio session (SessionManager), the FFT processor and the real-time
  render thread are left out. There is no concurrency to state.
- Audio files are handles; Bundle URL lookup and the contents of files are not modelled.
