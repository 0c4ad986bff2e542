# restreamd, modelled and proved in Dafny

restreamd carries one canonical FLV timeline per platform: it demultiplexes MPEG-TS or FLV, routes tracks, switches
between the live source and a backup without breaking timestamps, and multiplexes the result again to TS or RTMP.
This project models that machinery in Dafny 4.11 and proves what it promises, over every input, every run and every
interleaving.

`dafny verify dfyconfig.toml` checks the whole project.

## How it is modelled

Each component is given as functions on a state value, one function per step that the program takes in one critical
section or one call. Where the program is an object that changes its fields, a class with those fields has one method
per method (or per critical section) of the program, with the program's own loops, and every such method is proved to
take exactly the step its function describes; the theorems are lemmas about those functions. What a step is for is never
left to its function alone: for each component there is a theorem that tells its whole output, or every move it makes,
by what has come in before, in terms of its own (TsResult, TsReading, TsTiming, TsWriting, SwitcherExact,
SwitcherRequests, SinkExact, SinkQueue, MachineMoves, PlayerExact, RouterExact, CacheCalls, SupervisionCycles,
ResumeReturns). Threads are modelled as
steps: a run is any list of steps, and a thread that leaves a lock between two sections is a value that remembers
where it stands. So "for all runs" means under every interleaving.

Octets are integers below 256. A shift or mask of the program is a division or a remainder here, and the or of disjoint
bit fields a sum; only the checksum works on bit vectors. Names that are strings with a number inside (roles, header
keys) are datatypes. The clock, the random source, the answers of the operating system and of other components are
parameters of a step.

| files | what they hold |
|---|---|
| Bytes, Crc | octet strings, big-endian numbers, the section checksum |
| TsClock | 33-bit stamps, the program clock reference, unwrapping, half-even rounding |
| AnnexB, Rbsp | start codes and length prefixes; emulation prevention and Exp-Golomb codes |
| Flv | tag classification, multitrack wrappers, header keys and their canonical order |
| TsPackets, TsMux | PES, packets, tables, ADTS, codec configurations; the multiplexer object |
| TsDemux, TsDemuxer | the demultiplexer as functions, and as an object proved equal to them |
| TsWriting | what a connection is written for every tag, told by the tags before it |
| TsTables, TsAnnounce, TsReading, TsTiming | what any stream's tables mean, what comes out of its units, and at which times |
| TsTransport, TsStreams, TsRoundTrip, TsMedia, TsResult | muxing then demuxing: packets, elementary streams, whole runs, media, a caller's own terms |
| TsContinuity, TsCrash | continuity counters over whole connections; when the demultiplexer crashes |
| Switcher, SwitcherRuns, SwitcherSegments | the canonical timeline, its runs under concurrent readers, what its segments hold |
| SwitcherRequests, SwitcherExact | when a requested switch is made; the output as a function of what was sent |
| Sink, SinkRuns, SinkExact, SinkQueue | an output's queue and writer, their runs, and exactly what a connection is written |
| Player, PlayerExact | the backup player's splices; where every tag of an episode goes |
| Router, RouterExact | the track router's audio; what every slot gets |
| RtmpChunks, RtmpRoundTrip, Amf0 | RTMP chunking and AMF0 values |
| Machine, MachineMoves | the per-platform state machine and its command queue; the table of its moves |
| Cache, CacheCalls | the build-once cache; what a call comes to |
| Supervision, SupervisionCycles | supervised runs; what a wanted run does |
| Resume, ResumeReturns | resume phasing; what the current return comes to |
| ShuffleBag | the playlist |

## Findings

Some properties one might expect are false of the code. For each there is a lemma with an input that shows it, or the
exact condition under which it holds, or both.

- A ladder rung can begin a segment of the timeline with an inter frame: its keyframe can be dropped by the monotone
  guard after the rung was marked as begun (internal/timeline/switcher.go:426-446;
  `SwitcherSegments.RungMayBeginWithoutKeyframe`, exactly when in `SwitcherSegments.RungOpensWithKeyframeIff`). The sink
  does not have this fault.
- An RTMP message of several chunks with an extended timestamp is not read as it was sent: the writer repeats the
  timestamp and the reader takes it for payload (internal/wire/rtmp/conn.go:237-239 against 340-345;
  `RtmpRoundTrip.RepeatedTimeIsPayload`, `RtmpRoundTrip.CleanlyReadIff`). With three chunks and unlucky octets it can
  nevertheless come out right (`RtmpRoundTrip.LongMessageReadByChance`). A message without payload is never returned
  (internal/wire/rtmp/conn.go:356; `RtmpRoundTrip.EmptyMessageSkipped`).
- An AAC frame of more than 8184 octets gets a wrong length in its 13-bit ADTS field
  (internal/wire/ts/mux.go:267-283; `TsPackets.AdtsCountsFrameIff`).
- A sequence parameter set of fewer than four octets crashes the demultiplexer, which reads its profile octets
  unchecked (internal/wire/ts/demux.go:77-86; `TsCrash.TinyUnitCrashes`, exactly when in `TsCrash.CrashesIff`).
- LIVE does not imply a running relay (internal/platform/machine.go:439-456; `Machine.LiveMayLackRelay`, exactly when in
  `Machine.LiveLacksRelayIff`), nor, on the ladder arm, a running output: it was stopped for want of a ready segment and
  the switch back does not start it (internal/platform/machine.go:473-480; `Machine.LadderArmMayStaySilent`, exactly when
  in `Machine.LiveIsSilentIff`).
- Under the select policy the router can send a slot's media under another track's header after the map made a detour
  (internal/route/route.go:121-137; `Router.SelectMissesHeader`, with the condition in `Router.SelectHeaderDeclaresIff`).
- While the player does not know the audio step at a splice, it can align late: the second audio tag repeats the first
  one's time and the segment moves back (internal/fallback/player.go:551-561; exactly when in `Player.LateAlignmentIff`).
- An old run's hook can come after a newer run's start hook (internal/proc/supervisor.go:291-301;
  `Supervision.ExitHookMayComeLate`, exactly when in `Supervision.HookComesLateIff`).
- The outro of a cancelled return can ask for the switch of a later return (internal/fallback/resume.go:133-141;
  `Resume.OldOutroArmsNewReturn`, exactly when in `Resume.OutroServesAnotherIff`).
- An AMF0 field with an empty key ends its object (internal/wire/rtmp/amf.go:87-92; `Amf0.EmptyKeyEndsObject`, with the
  condition for reading a value back in `Amf0.ReadBackIff`). Where a key is given twice, even such an object can be read
  back (`Amf0.OverwrittenEmptyKeyIsReadBack`).

## Model

| member | source | states |
|---|---|---|
| TsClock.Ts90kRoundTrips | internal/wire/ts/mux.go:101-110 | reading a written 90 kHz stamp gives it back modulo 2^33, for every value and prefix (ISO/IEC 13818-1, section 2.4.3.7) |
| TsClock.PcrRoundTrips | internal/wire/ts/mux.go:90-99 | the program clock reference carries its base modulo 2^33 and an extension of 0 |
| TsClock.PtsUnwrapper.Step | internal/wire/ts/demux.go:62-75 | the unwrapper object takes the step of its function |
| TsClock.StepReproducedIff | internal/wire/ts/demux.go:62-75 | one unwrapping step reproduces the true difference if and only if it lies in (-2^32, 2^32] |
| TsClock.UnwrapReproducesClock | internal/wire/ts/demux.go:49-75 | for every clock whose steps are so bounded, the unwrapped values differ exactly as the true ones, through any number of wraps |
| TsClock.RoundMilliseconds | internal/wire/ts/sps.go:38-52 | rounding half to even is exact on whole milliseconds |
| Crc.ComputeCrc | internal/wire/ts/mux.go:29-42 | the bitwise loops compute the checksum function |
| Crc.ChecksumOfZero | internal/wire/ts/mux.go:29-42 | a known answer of CRC-32/MPEG-2 (ISO/IEC 13818-1, Annex A) |
| Crc.ChecksumClosesToZero | internal/wire/ts/mux.go:29-42 | any data followed by its own checksum has the checksum 0, as a receiver requires |
| TsPackets.SectionChecks | internal/wire/ts/mux.go:45-56 | every table section built passes the receiver's check |
| AnnexB.SplitNalUnits | internal/wire/ts/sps.go:12-35 | the scanning loop returns exactly the NAL units the specification function gives |
| AnnexB.NalUnitsInvertAnnexed | internal/wire/ts/mux.go:361-371 | splitting undoes writing with 4-octet start codes for every list of clean units |
| AnnexB.NalUnitsAreClean | internal/wire/ts/sps.go:12-35 | whatever the input, every unit found is non-empty, holds no start code and does not end in zero |
| AnnexB.AnnexBRoundTripsIff | internal/wire/ts/sps.go:12-35 | the round trip holds if and only if all units are clean |
| AnnexB.SplitPacked | internal/wire/ts/mux.go:244-257 | the loop over length prefixes returns exactly the units the specification function gives |
| AnnexB.UnpackedInvertsPacked | internal/wire/ts/demux.go:544-553 | length-prefixed packing is undone for every list of units under 2^32 octets |
| Rbsp.StripEmulation | internal/wire/ts/sps.go:111-123 | the loop removes exactly the emulation prevention octets the function removes |
| Rbsp.UnescapeInvertsEscape | internal/wire/ts/sps.go:111-123 | removal undoes the standard's escaping for every payload |
| Rbsp.EscapedIsClean | internal/wire/ts/sps.go:12-35 | a NAL unit escaped as the standard says is one the start codes carry without loss |
| Rbsp.BitReader.Bit | internal/wire/ts/sps.go:62-70 | the next bit, or 0 with a sticky error past the end |
| Rbsp.BitReader.Bits | internal/wire/ts/sps.go:72-78 | n bits read as one number, or the error if there are fewer |
| Rbsp.BitReader.Ue | internal/wire/ts/sps.go:80-100 | reads exactly one unsigned code, its value and its length, or reports the error |
| Rbsp.BitReader.Se | internal/wire/ts/sps.go:102-108 | the signed value of that code |
| Rbsp.UeRoundTripsIff | internal/wire/ts/sps.go:80-100 | a value's Exp-Golomb code is read back, and just its bits used, if and only if it has at most 32 leading zeros |
| Rbsp.SignedIsBijection | internal/wire/ts/sps.go:102-108 | every integer is the signed value of exactly one code |
| Flv.WrapAudioRoundTripsIff | internal/wire/flv/flv.go:67-87 | the audio wrapper loses nothing if and only if the payload is legacy AAC with a packet type under 16 |
| Flv.WrapVideoRoundTripsIff | internal/wire/flv/flv.go:102-145 | the video wrapper loses nothing if and only if the payload is legacy AVC of the described shape |
| Flv.OrderedHeaderKeysCanonical | internal/wire/flv/flv.go:217-243 | the announcement order lists exactly the cached keys that have a rank, each once, by strictly rising rank |
| Flv.HeaderBlockCanonical | internal/wire/flv/flv.go:217-243 | the header block holds each of them with its cached payload, all at one time |
| TsPackets.PesRoundTrips | internal/wire/ts/mux.go:112-136 | every PES parses back to its payload and stamps (ISO/IEC 13818-1, section 2.4.3.6) |
| TsPackets.AnyPesParses | internal/wire/ts/demux.go:450-477 | so does any other sender's PES, whatever length, flags, fields and stuffing its header has |
| TsPackets.TsPacketRoundTrips | internal/wire/ts/mux.go:138-171 | every packet is 188 octets and parses back to PID, flag, counter and chunk, with or without a clock reference |
| TsPackets.AnyPacketParses | internal/wire/ts/demux.go:297-331 | any other sender's adaptation field is passed over, and a packet of nothing else has no payload |
| TsPackets.PesToPackets | internal/wire/ts/mux.go:173-194 | the loop cuts a PES as its function says and returns the next counter |
| TsPackets.PacketsCarryPes | internal/wire/ts/mux.go:173-194 | the packets carry exactly the PES; only the first has the unit start, and counters run on modulo 16 |
| TsPackets.PsiPacketParses | internal/wire/ts/mux.go:79-88 | a table packet parses back to its section behind a zero pointer |
| TsPackets.AdtsRoundTrips | internal/wire/ts/mux.go:267-283 | what an ADTS header says when parsed, field by field, for all parameters (ISO/IEC 13818-7, section 6.2) |
| TsPackets.AdtsWithChecksumParses | internal/wire/ts/demux.go:111-129 | a header with a checksum is nine octets, and its frame stands behind it |
| TsPackets.AdtsCountsFrameIff | internal/wire/ts/mux.go:267-283 | the header counts its frame if and only if the frame has at most 8184 octets |
| TsPackets.AscRoundTrips | internal/wire/ts/mux.go:259-265 | AudioSpecificConfig fields survive building and parsing |
| TsPackets.AvcConfigRoundTrips | internal/wire/ts/mux.go:198-228 | parsing the AVC configuration the demultiplexer builds gives back both parameter sets (ISO/IEC 14496-15) |
| TsMux.MuxOutput.WriteHeader | internal/wire/ts/mux.go:318-327 | a new connection starts from the fresh state |
| TsMux.MuxOutput.WriteTag | internal/wire/ts/mux.go:335-343 | writes exactly the packets of the tag's step, keeps the object valid |
| TsMux.MuxOutput.WriteVideo | internal/wire/ts/mux.go:345-384 | takes exactly the video step; what that step writes, and when, is stated by TsWriting.PictureIsWritten, TsWriting.NothingElseIsWritten and TsResult.KeyframeIsLed, what it keeps by TsWriting.StateIsTold |
| TsMux.MuxOutput.WriteAudio | internal/wire/ts/mux.go:386-415 | takes exactly the audio step; what that step writes is stated by TsWriting.FrameIsWritten, what it keeps by TsWriting.StateIsTold |
| TsMux.MuxOutput.Register | internal/wire/ts/mux.go:417-425 | a new slot raises the table version and drops the cached table |
| TsMux.MuxOutput.EmitPatPmt | internal/wire/ts/mux.go:427-446 | both tables with their counters; the cached table is the right one |
| TsMux.MuxOutput.EmitPesPackets | internal/wire/ts/mux.go:454-467 | the packets of one PES, and the counter after them |
| TsMux.TagStepKeepsValid | internal/wire/ts/mux.go:335-467 | over any tag, counters stay under 16, slots in range, and the cached table matches the slots |
| TsWriting.StateIsTold | internal/wire/ts/mux.go:345-425 | after any tags the multiplexer's state is what the tags say: the last parameter sets declared, each slot's last AAC configuration, the slots of the program, the time of the last tables and whether they are out of date, and a version for every program |
| TsWriting.SetsStay | internal/wire/ts/mux.go:349-357 | the parameter sets of an AVC codec header are the last ones until another such header comes |
| TsWriting.PictureIsWritten | internal/wire/ts/mux.go:357-384 | a picture is written as one PES of exactly its NAL units, a keyframe's led by the last parameter sets declared, with a clock reference on the first packet alone; both tables, telling the program, stand before it if and only if they were never written, told another program, or are 100 ms old |
| TsWriting.PictureParses | internal/wire/ts/mux.go:361-383 | that PES parses back to those units and to the picture's two stamps |
| TsWriting.FrameIsWritten | internal/wire/ts/mux.go:386-415 | an AAC frame is written as one PES with its slot's last declared configuration, behind the tables if and only if they do not tell its slot; a frame of no declared configuration writes nothing |
| TsWriting.FrameParses | internal/wire/ts/mux.go:267-283 | that PES parses back to the frame at its time, and its ADTS header says that configuration |
| TsWriting.NothingElseIsWritten | internal/wire/ts/mux.go:335-415 | codec headers and tags too short to be media write no packet |
| TsResult.KeyframeIsLed | internal/wire/ts/mux.go:349-384 | after an AVC codec header with sets sps and pps, whatever was written before it and, short of another such header, since: a picture with an IDR slice is written as one PES whose NAL units are exactly sps, pps and its slices |
| TsDemux.FeedBytesSplits | internal/wire/ts/demux.go:276-286 | feeding data in two calls is feeding it in one |
| TsDemux.FeedIgnoresCuts | internal/wire/ts/demux.go:276-286 | however the octets are cut into calls, the demultiplexer ends in the same state |
| TsDemuxer.Demuxer.Feed | internal/wire/ts/demux.go:276-286 | the buffering loop takes whole packets and keeps the rest, as the function says |
| TsDemuxer.Demuxer.FeedPacket | internal/wire/ts/demux.go:297-331 | counting, gap detection and routing of one packet |
| TsDemuxer.Demuxer.FeedPat | internal/wire/ts/demux.go:348-366 | the program loop finds the first program that is not 0 |
| TsDemuxer.Demuxer.FeedPmt | internal/wire/ts/demux.go:368-413 | the stream loop, once, giving roles and tracks |
| TsDemuxer.Demuxer.FeedPes | internal/wire/ts/demux.go:437-448 | a unit start closes what was pending on its PID and starts anew |
| TsDemuxer.Demuxer.RemovePes | internal/wire/ts/demux.go:422-435 | one assembly leaves the table and the order |
| TsDemuxer.Demuxer.FinalizePes | internal/wire/ts/demux.go:450-477 | a complete PES is parsed and handled |
| TsDemuxer.Demuxer.HandleEs | internal/wire/ts/demux.go:496-507 | a unit goes to its video role or to the index of its audio track |
| TsDemuxer.Demuxer.HandleVideo | internal/wire/ts/demux.go:509-556 | takes exactly the step of one access unit; what that step emits is stated by TsAnnounce.VideoAnnounces, and at which time by TsTiming.PictureIsTimed |
| TsDemuxer.Demuxer.HandleAudio | internal/wire/ts/demux.go:611-647 | takes exactly the step of one unit of audio; what that step emits is stated by TsAnnounce.AudioAnnounces, and at which times by TsTiming.UnitIsTimed |
| TsDemuxer.Demuxer.Flush | internal/wire/ts/demux.go:290-295 | every pending unit is closed in the order they began |
| TsTables.ProgramTableIsRead | internal/wire/ts/demux.go:348-366 | of any program table the stream table of the first program whose number is not 0 is taken, once |
| TsTables.StreamTableIsRead | internal/wire/ts/demux.go:368-413 | any stream table, whatever its streams and descriptors, is understood once: with all video wanted every H.264 stream is a track, numbered among the streams of video, otherwise the first alone; every AAC stream is a track, numbered as it comes; what is neither video nor AAC is unsupported |
| TsAnnounce.VideoAnnounces | internal/wire/ts/demux.go:509-556 | an access unit brings out a codec header if and only if its pair of parameter sets is not the last one announced, and its slices as one picture, a keyframe if and only if there is an IDR slice; other streams are untouched |
| TsAnnounce.AudioAnnounces | internal/wire/ts/demux.go:611-647 | a unit of audio brings out every whole ADTS frame, with a codec header before each whose configuration is not that of the frame before it |
| TsAnnounce.PicturesAreAnnounced | internal/wire/ts/demux.go:532-539 | so at any point of a stream the last codec header is that of the last pair of parameter sets |
| TsAnnounce.FramesAreAnnounced | internal/wire/ts/demux.go:634-641 | and every AAC frame comes after the header of its own configuration |
| TsAnnounce.HeaderParses | internal/wire/ts/demux.go:77-90 | the announced video configuration parses to the two parameter sets |
| TsAnnounce.AscParses | internal/wire/ts/demux.go:131-138 | the announced audio configuration parses to its fields |
| TsReading.TracksAreRead | internal/wire/ts/demux.go:276-647 | over any stream at all, in any pieces, flushed: unless it has crashed, what came out for each track is exactly what the track's finished units say, headers, pictures, frames and nothing else |
| TsTiming.PictureIsTimed | internal/wire/ts/demux.go:479-556 | all an access unit brings out is timed by its decoding stamp from the origin, which the first stamp of all sets; its picture is shown as long after that as its stamps say, and not before |
| TsTiming.UnitIsTimed | internal/wire/ts/demux.go:611-647 | the frames of one unit follow each other 1024 samples apart from the unit's stamp on |
| TsTransport.FeedBytesIsFeedPackets | internal/wire/ts/demux.go:276-286 | feeding a stream of whole packets is feeding the packets |
| TsTransport.PesReassembled | internal/wire/ts/demux.go:297-448 | a multiplexed PES is reassembled whole, without a counter gap, whatever was pending on its PID |
| TsTransport.PatIsRead | internal/wire/ts/demux.go:348-366 | the multiplexer's program table is understood |
| TsTransport.PmtIsRead | internal/wire/ts/demux.go:368-413 | so is its stream table, for every set of slots and version |
| TsTransport.TablesAreRead | internal/wire/ts/mux.go:427-446 | both table packets are understood the first time and change nothing later |
| TsStreams.VideoHandled | internal/wire/ts/demux.go:509-556 | one more access unit comes out of its stream as it went in, shifted by the common origin; other streams are untouched |
| TsStreams.AudioHandled | internal/wire/ts/demux.go:611-647 | the same for one AAC frame |
| TsRoundTrip.FinalizeKeepsInv | internal/wire/ts/demux.go:450-477 | closing one stream's unit keeps every stream's account of what was delivered |
| TsRoundTrip.RunDelivered | internal/wire/ts/mux.go:335-415 | by induction over any run of tags whose slots are declared: every unit is delivered, and no counter skips (for any tags at all, see TsContinuity.CountersRunOn) |
| TsRoundTrip.MuxDemuxRoundTrip | internal/wire/ts/demux.go:246-647 | muxing any admissible run of tags (codec headers in between included), cutting the stream anywhere, demuxing and flushing returns each stream's frames in order, all shifted by one origin, and the codec headers its units call for, with nothing left over and no gap |
| TsContinuity.CountersRunOn | internal/wire/ts/mux.go:335-467 | whatever tags a connection carries, slots registered on the way included: all packets have full size and the counters of each PID run on one by one modulo 16 |
| TsContinuity.GapIff | internal/wire/ts/demux.go:297-331 | the demultiplexer counts a gap at a packet if and only if its counter does not follow the last one on its PID |
| TsContinuity.ConnectionHasNoGap | internal/wire/ts/demux.go:276-331 | so however such a connection's octets are cut, it counts none |
| TsCrash.CrashesIff | internal/wire/ts/demux.go:77-86 | over any stream in any pieces, and after a flush: it has crashed if and only if some finished video access unit has a last sequence parameter set of one to three octets and a picture parameter set |
| TsCrash.TinyUnitCrashes | internal/wire/ts/demux.go:77-86 | such an access unit |
| TsMedia.MediaRoundTrip | internal/wire/ts/mux.go:335-415 | the same for pictures and AAC frames, payload for payload, all times shifted by one constant |
| TsMedia.EveryMediumHasStream | internal/wire/ts/demux.go:368-413 | every picture and frame of the run belongs to a stream of the program, so none is left out of that statement |
| TsResult.StreamIsReturned | internal/wire/ts/mux.go:335-415 | the whole of it in a caller's terms: declare codecs, write AVC pictures and AAC frames, demultiplex the stream, cut anywhere; no gap is counted and nothing left over, and each PID's stream brings out its pictures and frames in order, payload for payload, times shifted by one constant, with the declared codec header before the first IDR picture or the first frame, and nothing else |
| TsResult.NoneIsLost | internal/wire/ts/demux.go:368-413 | every medium of the run has its stream in the program |
| Switcher.Switcher.StoreHeader | internal/timeline/switcher.go:316-325 | a codec header or metadata replaces the stored one of its key |
| Switcher.Switcher.Decide | internal/timeline/switcher.go:366-388 | takes exactly the decision step; that a requested switch is made at its source's first ready keyframe, and only then, is stated by SwitcherRequests.RequestIsAnswered |
| Switcher.Switcher.Timeline | internal/timeline/switcher.go:398-453 | the timeline section: entering a source, waiting for its keyframe, opening with headers, guarding each track |
| Switcher.Switcher.Open | internal/timeline/switcher.go:412-419 | the offset that puts the keyframe one step past the headers, and the headers right before it |
| Switcher.Switcher.PlaceTag | internal/timeline/switcher.go:422-452 | rung start, clamp at zero, per-track guard, last output time |
| Switcher.Switcher.SetActive | internal/timeline/switcher.go:145-153 | an immediate switch cancels any pending one and its callback |
| Switcher.Switcher.RequestSwitch | internal/timeline/switcher.go:195-208 | arms a switch and remembers the headers stored by then |
| Switcher.Switcher.Reset | internal/timeline/switcher.go:157-190 | the next broadcast starts from a fresh timeline |
| Switcher.Switcher.Process | internal/timeline/switcher.go:341-453 | one undisturbed call is its three sections in turn |
| SwitcherRuns.ResetIsFresh | internal/timeline/switcher.go:157-190 | a reset leaves the timeline as a new switcher has it, with no stored headers: the state the theorems on runs start from |
| SwitcherRuns.TimelineNeverGoesBack | internal/timeline/switcher.go:405-452 | until a reset, under every interleaving of readers and switches: media times never decrease on any track, and the last output time bounds everything offered |
| SwitcherRuns.LastOutputOnlyGrows | internal/timeline/switcher.go:449-452 | the last output time never decreases and output is only appended |
| SwitcherRuns.OutputIsSegments | internal/timeline/switcher.go:401-452 | the output is a row of segments: the latest headers that source has sent, in canonical order at one time strictly above everything before, then a track-0 keyframe exactly 33 ms later, then that source's tags under one offset |
| SwitcherRuns.AnchorIsPlaced | internal/timeline/switcher.go:412-448 | the guard can never drop a segment's keyframe |
| SwitcherSegments.SegmentsHoldSentTags | internal/timeline/switcher.go:341-452 | every segment's anchor and all that follows it are tags its own source sent, since the reset or in a call under way then |
| SwitcherSegments.SegmentsHeardAllSent | internal/timeline/switcher.go:412-420 | every segment was opened with the headers stored at that step of the run, when its source had sent exactly what those headers are the latest of |
| SwitcherSegments.RungOpensAt | internal/timeline/switcher.go:422-448 | over any run, in every segment: the first picture offered on a rung is the first that is not behind the rung's last time, at or after the first keyframe of the rung to come; without such a picture there is none |
| SwitcherSegments.RungOpensWithKeyframeIff | internal/timeline/switcher.go:422-448 | so a rung begins a segment with a keyframe if and only if that picture is one |
| SwitcherSegments.RungMayBeginWithoutKeyframe | internal/timeline/switcher.go:426-446 | a run of two sources after which a rung's first offered picture is an inter frame |
| SwitcherRuns.CallbackAtMostOnce | internal/timeline/switcher.go:366-392 | over every run a callback is called at most once for its request, and never once it was replaced, cancelled or served |
| SwitcherRequests.RequestIsAnswered | internal/timeline/switcher.go:366-392 | over any run after a request with no later request or immediate switch: the active source stays until the first decision for the requested source with a track-0 keyframe and not before its time; there it becomes that source if and only if codec headers are unchanged since the request or none were stored, the request is used up, and its callback is handed out, there and not before |
| SwitcherRequests.DecisionPassesActive | internal/timeline/switcher.go:366-392 | with no request for it pending, a tag is let through if and only if its source is the active one |
| SwitcherRequests.SetActiveIsImmediate | internal/timeline/switcher.go:145-153 | an immediate switch is made at once, and a pending request's callback is never called |
| SwitcherExact.SegmentsAreSpells | internal/timeline/switcher.go:401-420 | in any run each spell of one source that has a track-0 keyframe makes exactly one segment, anchored at the spell's first such keyframe |
| SwitcherExact.SegmentsBeginAt | internal/timeline/switcher.go:405-420 | a segment begins exactly 33 ms after the latest time handed on before it, and 33 ms more for each spell in between without a keyframe |
| SwitcherExact.SegmentHandsOn | internal/timeline/switcher.go:422-452 | of the tags that came after the anchor all are handed on, in order, but pictures of a rung before its first keyframe and media behind the last time of their track |
| Sink.OutputSink.Offer | internal/timeline/sink.go:119-135 | accepts a tag, or clears the full queue, counts it and asks for a resynchronisation |
| Sink.OutputSink.Attach | internal/timeline/sink.go:91-99 | a new connection, generation and header seed, an empty queue |
| Sink.OutputSink.Detach | internal/timeline/sink.go:102-109 | no connection, a new generation, an empty queue |
| Sink.OutputSink.Take | internal/timeline/sink.go:155-184 | the writer's locked turn: notices generation and overflow, takes the oldest tag |
| Sink.OutputSink.ForwardTag | internal/timeline/sink.go:194-238 | takes exactly the forwarding step; what a connection is written is stated by SinkExact.ConnectionsGetTurns |
| Sink.OutputSink.Forward | internal/timeline/sink.go:185-188 | those writes go to the writer's connection and to no other |
| SinkRuns.EveryTagAccounted | internal/timeline/sink.go:91-135 | under every interleaving the queue stays within its limit, and the accepted tags are, in order, those taken, counted as dropped or cleared, then those still queued |
| SinkRuns.ConnectionGetsRuns | internal/timeline/sink.go:144-238 | all a connection ever gets is runs of: file header, the latest codec headers in canonical order at the keyframe's time, a track-0 keyframe, then tags in which each other rung's first picture is its own keyframe |
| SinkExact.ConnectionsGetTurns | internal/timeline/sink.go:144-238 | exactly what a connection is written: for each turn between two notices of an attachment or overflow, from the turn's first track-0 keyframe on, the file header, the codec headers, the keyframe, and then every tag forwarded, in order, minus only pictures of another rung before that rung's first keyframe; and what is forwarded is what was taken |
| SinkExact.HeadersAreLatest | internal/timeline/sink.go:144-238 | the headers a turn announces are the latest of those its connection was attached with and forwarded |
| SinkQueue.SharedIsTold | internal/timeline/sink.go:91-117 | over any run the sink's connection and headers are those attached last, its generation the number of attachments and detachments |
| SinkQueue.QueueMoves | internal/timeline/sink.go:91-188 | every step's effect on queue and hand over any run: a tag is accepted if and only if something is attached, only a queue of 900 (300) tags is thrown away for it, the writer takes the oldest tag until the sink is closed, and forwarding empties its hand |
| Player.Player.StartEpisode | internal/fallback/player.go:513-527 | a fresh timeline; only the audio step is kept |
| Player.Player.Place | internal/fallback/player.go:544-561 | anchors a segment one step on, and aligns its first running audio track |
| Player.Player.Record | internal/fallback/player.go:577-600 | caches headers, learns the audio step, advances the track |
| Player.Player.OnTag | internal/fallback/player.go:531-619 | one tag: skipped or handed on, as its function says |
| Player.EpisodeIsContinuous | internal/fallback/player.go:531-600 | through any segments and interruptions of an episode, times never go back on a track and a header goes out only when it differs from the one before of its key |
| Player.SegmentBeginsOneStepOn | internal/fallback/player.go:544-550 | the first tag of a segment lands one step past everything before it, unless it is aligned audio |
| Player.SpliceIsOneAudioStep | internal/fallback/player.go:551-561 | with a known step, the first audio tag of a track that was running lands exactly one step after that track's last, whatever came before it in the segment |
| Player.AudioStepIsLatestGap | internal/fallback/player.go:590-600 | the known step is always the latest gap under 100 ms between successive audio tags of one track that went out |
| Player.SpliceAlignsIff | internal/fallback/player.go:544-561 | the first audio tag of a running track, itself the segment's first tag or after others, is aligned if and only if the step is known when it comes; otherwise the segment's offset places it |
| Player.LateAlignmentIff | internal/fallback/player.go:551-600 | with the step unknown: the second audio tag is pulled back onto the first one's time if and only if the first landed less than 100 ms past its track's last tag |
| Player.Player.StartSegment | internal/fallback/player.go:505-508 | a segment begins: its first tag will be anchored |
| Player.Player.Kill | internal/fallback/player.go:625-631 | an interrupted segment hands on nothing more |
| PlayerExact.TagsArePlaced | internal/fallback/player.go:531-619 | at any moment of an episode: a tag goes out if and only if its segment is not killed, it is not behind its track's last and repeats no header; at its time plus its segment's offset, which is one step past all before the segment's first tag, or as its first running audio was aligned |
| PlayerExact.OnlyTagsGoOut | internal/fallback/player.go:505-619 | nothing else goes out |
| Router.Router.Audio | internal/route/route.go:120-155 | one audio tag: header cache, remap, delivery |
| Router.Router.Redeclare | internal/route/route.go:159-177 | the loop re-sends the cached headers its policy says |
| Router.ChimeraHeaderPrecedesMedia | internal/route/route.go:120-177 | under the chimera policy, however the map changes between tags, the header last sent into a slot before a media tag is the latest of that tag's track, if one is cached |
| Router.SelectSlotsRise | internal/route/route.go:140-155 | under the select policy the media times of every slot strictly increase across all remaps |
| Router.SelectHeaderDeclaresIff | internal/route/route.go:121-131 | under the select policy a new header keeps every slot rightly declared if and only if its map puts the track where the last noted map does |
| Router.SelectRunDeclares | internal/route/route.go:120-177 | under the select policy, in every run whose headers came under such maps, each slot has seen the latest header of its track |
| Router.SelectMissesHeader | internal/route/route.go:121-137 | a run in which a slot carries a track under another track's header |
| RouterExact.SlotsAreServed | internal/route/route.go:120-177 | under every policy, after any tags under any maps: for a tag each slot gets just the header a new map calls for, the latest of its track, and the tag itself if the slot carries its track (media under the select policy only if newer than the slot's last) |
| RtmpChunks.Conn.SendMessage | internal/wire/rtmp/conn.go:214-245 | sends exactly the message's chunks |
| RtmpChunks.Conn.MaybeSendAck | internal/wire/rtmp/conn.go:184-190 | acknowledges once half the window has come in, and then never owes more |
| RtmpChunks.Conn.ReadMessageFrom | internal/wire/rtmp/conn.go:258-360 | the reading loop comes to what its function says; what that is, is stated by RtmpChunks.ReadingMeans |
| RtmpChunks.Conn.ReadChunkFrom | internal/wire/rtmp/conn.go:258-360 | one chunk of the loop, and the acknowledgement due after it |
| RtmpChunks.ReadingMeans | internal/wire/rtmp/conn.go:164-360 | whatever has come in: the loop returns the first message, counts the octets it took, and acknowledges totals half a window or more apart, so many that none is owed when a message is complete |
| RtmpChunks.Conn.ReadChunkHeader | internal/wire/rtmp/conn.go:285-346 | the four header types, with extended times |
| RtmpRoundTrip.SentMessagesRead | internal/wire/rtmp/conn.go:214-360 | any messages the two ends agree on are returned type for type and octet for octet, from any state of the reader |
| RtmpRoundTrip.MessageOpens | internal/wire/rtmp/conn.go:214-236 | every message opens with a type 0 header on its chunk stream that says its time, length and type and, least octet first, its message stream (Adobe RTMP 1.0, section 5.3.1.2.1) |
| RtmpRoundTrip.InterleavedMessagesRead | internal/wire/rtmp/conn.go:258-360 | for every interleaving of chunks on different chunk streams, with all header types and basic header forms, the reader returns exactly those messages in order of completion (Adobe RTMP 1.0, section 5.3.1) |
| RtmpRoundTrip.CleanlyReadIff | internal/wire/rtmp/conn.go:237-345 | up to two chunks long, a message is read back cleanly if and only if its time needs no extension or it is one chunk |
| RtmpRoundTrip.LongMessageReadByChance | internal/wire/rtmp/conn.go:237-345 | three-chunk messages that are read back cleanly although their time is repeated: the condition cannot be exact beyond two chunks |
| RtmpRoundTrip.RepeatedTimeIsPayload | internal/wire/rtmp/conn.go:237-345 | for any number of chunks: the first is read as sent, the second begins with the repeated time as payload, and its last four octets are left to be read as a header |
| RtmpRoundTrip.EmptyMessageSkipped | internal/wire/rtmp/conn.go:356-358 | a message without payload is passed over |
| Amf0.AmfReadValue | internal/wire/rtmp/amf.go:54-107 | one value by loop and recursion, as its function says; it ends on every input |
| Amf0.AmfReadAll | internal/wire/rtmp/amf.go:109-120 | all values of the data |
| Amf0.AmfRoundTrips | internal/wire/rtmp/amf.go:10-120 | reading returns exactly the values encoded, for every list of trees of numbers, booleans, strings, nulls, undefined values, objects and associative arrays |
| Amf0.DistinctFieldsKept | internal/wire/rtmp/amf.go:41-49 | with distinct keys the decoded object has every field with its value |
| Amf0.OnlyFields | internal/wire/rtmp/amf.go:82-102 | and nothing else |
| Amf0.TextRoundTripsIff | internal/wire/rtmp/amf.go:17-21 | a string is read back if and only if it is shorter than 65536 octets |
| Amf0.EmptyKeyEndsObject | internal/wire/rtmp/amf.go:87-92 | an empty key, wherever it stands, ends its object with the fields before it, and reading goes on inside its value |
| Amf0.ReadBackIff | internal/wire/rtmp/amf.go:10-120 | a tree with distinct keys in each object is read back, and just its octets used, if and only if no field at any depth has an empty key |
| Amf0.ReadIsNamed | internal/wire/rtmp/amf.go:82-102 | whatever the data, no value read has an empty key at any depth |
| Amf0.OverwrittenEmptyKeyIsReadBack | internal/wire/rtmp/amf.go:41-102 | with a key given twice, an object with an empty key that is read back all the same |
| Machine.Owner.SourceIsAvailable | internal/platform/machine.go:407-437 | the handler, from each of the three phases |
| Machine.Owner.SwitchedBack | internal/platform/machine.go:439-459 | the handler of the switch back to live |
| Machine.Owner.BeginFallbackPlayback | internal/platform/machine.go:464-486 | backup video, silence until a ladder segment is ready, or off the air |
| Machine.Owner.SourceIsUnavailable | internal/platform/machine.go:529-575 | takes exactly the handler's step; where it leads from each phase is stated by MachineMoves.EveryCommandMoves |
| Machine.Owner.RelayIsStalled | internal/platform/machine.go:577-598 | the handler of the stalled relay |
| Machine.Owner.LadderTicks | internal/platform/machine.go:504-527 | one look of the ladder watch |
| Machine.Owner.Run | internal/platform/machine.go:242-258 | one turn of the owner's loop executes its command's step |
| Machine.Owner.ShutDown | internal/platform/machine.go:640-651 | the last thing the owner does: everything off, no timer left |
| Machine.ExecuteKeeps | internal/platform/machine.go:407-736 | every command keeps what is wanted of the nodes in line with the phase, and ladder ticks with the watch |
| MachineMoves.EveryCommandMoves | internal/platform/machine.go:407-736 | a table of moves by fields alone: over any run, the shutdown's last commands included, every executed command led phase, nodes, reports and timers where the table says, so from live the lost source leads to the backup if and only if there is a session to lean on, the output is alive or not enabled, and there is no fallback problem, and off the air otherwise |
| MachineMoves.NoCommandIsLost | internal/platform/machine.go:230-258 | while the queue has not overflowed, the commands asked for are those executed and then those queued, in order |
| MachineMoves.PostQueues | internal/platform/machine.go:230-240 | a command from outside is queued unless the machine is shut, and lost only if 256 wait already |
| MachineMoves.TimersPost | internal/platform/machine.go:490-502 | a timer's tick comes once for each time it was armed |
| MachineMoves.TurnExecutes | internal/platform/machine.go:242-258 | a turn of the owner executes the command that has waited longest |
| Machine.WantedFits | internal/platform/machine.go:294-736 | at every command boundary of every run: output wanted only while enabled, gated open and on air (off the ladder arm exactly then), player only in fallback, offline all off, snapshot equal to the owner's state; after the shutdown all off |
| Machine.FallbackIsAttended | internal/platform/machine.go:490-527 | in fallback the player is wanted or exactly one ladder tick is on its way, while the queue has not overflowed |
| Machine.ReadyTickAttends | internal/platform/machine.go:518-526 | the tick that finds a segment puts the backup video on air |
| Machine.LiveMayLackRelay | internal/platform/machine.go:439-456 | a run that ends live without a relay |
| Machine.LiveLacksRelayIff | internal/platform/machine.go:407-598 | over every run: live has no relay if and only if a switch back was executed in fallback with the relay stopped, and since then the platform stayed live and no source became available |
| Machine.LadderArmMayStaySilent | internal/platform/machine.go:473-480 | a run that ends live on the ladder arm with the output off |
| Machine.LiveIsSilentIff | internal/platform/machine.go:407-686 | over every run: live is silent, though enabled and the gate open, if and only if a switch back was executed with the output stopped and did not reconnect it, and since then the platform stayed live, enabled and with the same credentials |
| Cache.Cache.Register | internal/fallback/cache.go:138-148 | under the lock: found, waiting for the builder, or the builder |
| Cache.Cache.Publish | internal/fallback/cache.go:225-236 | the sidecar before the artifact; success means a valid artifact |
| Cache.Cache.GetOrBuild | internal/fallback/cache.go:119-168 | alone in the cache, a call succeeds iff the artifact was valid or all build steps succeed, and leaves no trace of itself |
| Cache.OneBuilderPerKey | internal/fallback/cache.go:138-163 | over every interleaving no key has two builders |
| Cache.InflightHasOwner | internal/fallback/cache.go:138-163 | every key in flight has a live builder |
| Cache.TranscodesWithinLimit | internal/fallback/cache.go:186-188 | never more transcodes at once than slots |
| Cache.WaiterHasOwner | internal/fallback/cache.go:150-163 | whoever waits, waits for a closed channel or for one a live caller will close |
| Cache.BuildsOnce | internal/fallback/cache.go:119-236 | once a key's build has succeeded its artifact stays valid and no transcode for it is ever started again |
| CacheCalls.CallDoesAsAlone | internal/fallback/cache.go:119-236 | whatever else is in the cache: a call whose key nobody builds, with a slot free, succeeds if and only if the artifact was valid or the transcode starts and every step succeeds, transcodes only when it was not, and gives back key, slot and channel |
| CacheCalls.SecondCallWaits | internal/fallback/cache.go:138-152 | a call for a key that another builds waits for that caller's channel |
| CacheCalls.WaiterIsTold | internal/fallback/cache.go:150-152 | a waiter wakes only once its channel is closed, and is told whether the artifact is valid by then |
| CacheCalls.SuccessMeansValid | internal/fallback/cache.go:119-168 | over every interleaving, whoever was told of success has a valid artifact, then and ever after |
| Supervision.Supervisor.Start | internal/proc/supervisor.go:127-144 | a start while wanted does nothing; otherwise a new epoch with fresh counters |
| Supervision.Supervisor.Install | internal/proc/supervisor.go:260-283 | only a wanted run puts its process or connection up |
| Supervision.Supervisor.Clear | internal/proc/supervisor.go:180-187 | only what the caller knows itself is taken down |
| Supervision.Supervisor.JudgeRun | internal/proc/supervisor.go:307-322 | the flapping verdict on one run |
| Supervision.StoppedStaysStopped | internal/proc/supervisor.go:148-194 | a run once stopped never spawns a process or publishes a connection again, whatever is started later |
| Supervision.StopStopsAll | internal/egress/rtmp_push.go:143-164 | a stop stops every run there has been |
| SupervisionCycles.WantedIsLatestStart | internal/proc/supervisor.go:127-154 | in any run the wanted run is the latest started, and none is wanted once there was a stop since |
| SupervisionCycles.WantedRunComesUp | internal/proc/supervisor.go:258-283 | a wanted run's try, with other runs' steps and the ends of old stops anywhere in between, puts something new of its own up if it succeeds, and nothing otherwise |
| SupervisionCycles.DownRunTriesAgain | internal/proc/supervisor.go:288-340 | what has died is taken down, the exit hook is called once, and the run tries again, one restart on |
| SupervisionCycles.WantedRunGoesRound | internal/proc/supervisor.go:258-340 | one whole turn of a wanted run's loop, with the same in between: up, start hook, down, exit hook, and back to where it began |
| SupervisionCycles.UnwantedRunEnds | internal/proc/supervisor.go:258-262 | a run that is not wanted ends wherever it next looks, and puts up nothing |
| Supervision.NewestIsUp | internal/egress/rtmp_push.go:237-248 | installations go by rising epoch and what is up is the last installed: an older run never overwrites a newer one's |
| Supervision.RunsClearOnlyTheirOwn | internal/proc/supervisor.go:291-298 | in any run, no step of one supervised run takes down what another has up |
| Supervision.Supervisor.BeginStop | internal/proc/supervisor.go:148-154 | a stop begins: nothing is wanted any more, and what is up is noted |
| Supervision.StopsClearOnlyWhatTheyFound | internal/proc/supervisor.go:148-187 | in any run, whatever happens while a stop waits: it takes something down if and only if what it noted is still up, and then nothing has been installed since |
| Supervision.HookComesLateIff | internal/proc/supervisor.go:274-301 | in any run, a hook comes after a newer run's start hook if and only if some newer run has by then installed something and called its start hook; the newest run is never late |
| Supervision.ExitHookMayComeLate | internal/proc/supervisor.go:291-301 | a run in which an old exit hook follows a new start hook |
| Supervision.VerdictIff | internal/proc/supervisor.go:307-322 | since a start: never reached if and only if no run was long, flapping if and only if the run is the third early exit in a row |
| Resume.PyModIsModulo | internal/fallback/resume.go:306-315 | for a positive divisor the result lies in [0, y) and is congruent to x |
| Resume.PhasingStopsIff | internal/fallback/resume.go:199-215 | waiting stops if and only if the outro would end at most 0.03 s before or 0.1 s after the last keyframe plus whole intervals |
| Resume.Phasing | internal/fallback/resume.go:199-215 | the loop goes on at the first look for which that is so, and gives up when the return is cancelled |
| Resume.CutFallsInTail | internal/fallback/resume.go:192-270 | an outro begun when the wait is over has a keyframe that the armed switch accepts and that comes before the outro runs out |
| Resume.Resume.Begin | internal/fallback/resume.go:99-110 | a new generation; without an outro the switch is asked for at once |
| Resume.Resume.StartOutro | internal/fallback/resume.go:218-229 | only a valid run starts the outro; a refused outro is cut at once |
| Resume.Resume.Arm | internal/fallback/resume.go:262-271 | only a valid run arms the switch |
| Resume.StaleNeverArms | internal/fallback/resume.go:295-302 | a run whose generation is stale or cancelled never asks for a switch again, over every interleaving |
| Resume.RunArmsAtMostOnce | internal/fallback/resume.go:160-272 | a run asks for a switch at most once |
| ResumeReturns.ValidIsLatest | internal/fallback/resume.go:295-302 | in any run a return is valid if and only if it is the last begun, was not cancelled since, and the platform's state allows it |
| ResumeReturns.CurrentReturnArms | internal/fallback/resume.go:160-272 | a return that is not cancelled or succeeded, with anything else in between: it starts its outro at the first look that fits and arms the switch exactly once; refused its outro, it asks there and then |
| ResumeReturns.PlainReturnAsks | internal/fallback/resume.go:99-110 | without an outro the switch is asked for at once |
| Resume.Resume.FinishAfterEnd | internal/fallback/resume.go:133-141 | the end of an outro asks for the switch under any return |
| Resume.OutroServesAnotherIff | internal/fallback/resume.go:133-141 | whatever happened since an outro was accepted: its end asks if and only if some return is under way and the state valid, and then serves another return if and only if one has begun since |
| Resume.OutroServesNoEarlierReturn | internal/fallback/resume.go:99-141 | over any run, never an earlier one |
| Resume.OldOutroArmsNewReturn | internal/fallback/resume.go:133-141 | a run in which a cancelled return's outro asks for the next return's switch |
| ShuffleBag.Bag.Next | internal/fallback/playlist.go:28-56 | admits new files, refills an empty bag, draws the last |
| ShuffleBag.FolderPlaylist.Next | internal/fallback/playlist.go:71-85 | a separator, if there is one, after each file and nowhere else |
| ShuffleBag.NoRepeatWithinCycle | internal/fallback/playlist.go:28-56 | between two refills no file is drawn twice |
| ShuffleBag.AllDrawnBeforeRefill | internal/fallback/playlist.go:28-56 | a refill comes only when every file ready since the last one has been drawn |
| ShuffleBag.BagIsDrawnInOrder | internal/fallback/playlist.go:28-56 | within a cycle files are drawn from the bag's end in the order the shuffle gave |
| ShuffleBag.NewFileIsPlaced | internal/fallback/playlist.go:28-56 | a new file comes into the rest of a cycle at the place the random pick says, the others keep their order |
| ShuffleBag.CycleIsPermutation | internal/fallback/playlist.go:28-56 | with a fixed pool of n files, n draws from a cycle's start are a permutation of the pool |
| ShuffleBag.EveryCycleIsPermutation | internal/fallback/playlist.go:28-56 | and so is every later cycle |

## Left out

- Processes, sockets, TLS, deadlines, files and logs: a process, a connection or a transcode is an abstract step, and a
  write never fails.
- Integer width: clocks, counters and offsets are unbounded integers. The 33-bit and 32-bit fields on the wire are
  modelled with their wrap-around; overflow of the 64-bit clocks behind them is not.
- Floating point: clocks and intervals are exact, and rounding is exact half-even division. Pacing, bitrates, the
  measured keyframe interval and process statistics are not modelled.
- Demultiplexer statistics: bitrate, picture geometry, sample rates and the manifest, and with them the parsing of
  sequence parameter sets beyond their bit reader.
- Checksums on receive: the demultiplexer does not check them, so neither does the model.
- RtmpRoundTrip.SentMessagesRead: covers an extended timestamp only in a message of one chunk, because beyond that
  writer and reader disagree; how the reader goes on after the second chunk then depends on the payload's octets.
- RtmpRoundTrip.InterleavedMessagesRead: both ends keep one chunk size, and the sender does not repeat an extended
  timestamp, as the reader expects.
- RTMP handshake, commands, control messages and the wrapping of metadata are not modelled.
- TsRoundTrip.MuxDemuxRoundTrip, and with it TsResult.StreamIsReturned: the first stamps lie in the clock's first period,
  and codecs are declared before the first media tag, because the demultiplexer reads the stream table once. What is
  written when they are declared later is in TsWriting, what is read of any stream in TsReading.
- Sinks of the switcher: what every registered sink is offered is one list; registration in mid-run only decides which
  part of it a sink sees.
- Machine.FallbackIsAttended: assumes that no event was dropped by a full queue; a dropped tick ends the watch for good.
- Cache.Cache.GetOrBuild: describes a call with nobody else in the cache; concurrent callers are the steps of the runs in
  the lemmas beside it, and CacheCalls.CallDoesAsAlone connects the two.
- Supervision.HookComesLateIff: the exit hook that a stop calls in its own thread is not in the history of hooks.
- Supervision.StoppedStaysStopped: a stopped push run may still be connecting; its connection is torn down and never
  installed.
- ShuffleBag.NoRepeatWithinCycle: the files ready at one call are taken to be distinct, as a folder lists them.
- Cache keys are taken to be distinct for distinct sources and targets, and only this code changes the cache directory.
- The backup player's phase loop, that is, which segment is played when, and its pacing are not modelled.
- The router's video wrapping and the backup-timeline facades only compute payloads and are not modelled.
- Liveness: nothing says that something eventually happens.
- Configuration, HTTP, dashboard, settings, media listing, URL building and mode selection would add only easy members.
