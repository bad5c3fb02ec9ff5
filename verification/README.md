# Verified models of rustyrig-fw's protocol engines

rustyrig-fw is a radio remote-control suite written in C. This project models its dense state machines and stream
codecs and proves what they guarantee over whole runs. Each part has a specification on values (a step function over
all operations or events, and a run of steps), lemmas about that specification, and classes or methods in the form of
the C code (arrays, rings, linked chains, loops, fields updated in place) that are proved to compute exactly it.

| files | part of rustyrig-fw |
|---|---|
| `AudioGraph` | the client's audio routing graph: breadth-first cycle check, input arbitration |
| `AudioStream`, `AudioEngine`, `AudioMixer`, `MixerClock`, `Rings` | the client's audio engine: ring buffers, prime/starve state machine, mixing, absolute clock |
| `MediaFraming`, `ChildReader`, `ManagerReader`, `PcmBacklog` | framing between the manager and its media children, the latest-100-ms filter, header replay |
| `Recorder` | the recorder's producer/consumer ring |
| `SpawnGuard`, `ProcessSlots` | the spawn rate limiter, and the table of shared and warm codec processes and audio endpoints |
| `KiwiBridge` | the SDR bridge host and its Kiwi driver |
| `ChatPacing`, `ChatSplitter` | token bucket for outgoing chat, splitting chat into IRC lines |
| `SaslPayload`, `CapNegotiation` | SASL payload, capability negotiation |
| `DccText`, `DccOffer` | DCC offers |
| `ChannelUsers` | the hash table of channel users |
| `Arithmetic` | facts about products and quotients that several parts share |

`dafny verify dfyconfig.toml` checks everything.

## How to read the results

A property that the code does not have in full is proved with the exact condition under which it does:

- The spawn limiter's bound of five starts in any 30 seconds holds exactly if the clock has left zero
  (`SpawnGuard.BoundIffClockPositive`): a window that starts at time zero reads as no window.
- The mixer clock is in step with time after a pass exactly if the sleep before it did not return early
  (`MixerClock.InStepIffNotEarly`).
- The media child takes in every cutting of a stream exactly if no frame comes within three bytes of 64 MiB with
  enough behind it (`ChildReader.NeverRefusedIff`).
- A stopped recorder loses exactly the incomplete last sample frame, or everything if a sample frame is larger than the
  consumer's chunk (`Recorder.StopLosesOnlyTail`).
- The chat splitter sends every valid text exactly if a line has room for four bytes (`ChatSplitter.FourBytesNeeded`).
- A receiver reads back what a line was made of exactly if plain text is not itself wrapped in CTCP marks: such a text
  arrives as an action (`ChatSplitter.LineIsRead`).
- The bridge host faults its driver for a mismatched completion exactly if the server has sent a SET without an id
  (`KiwiBridge.MismatchIffZeroId`).
- The count of active process slots is right all through a run exactly if no codec process fails to get its pipes
  attached while another slot is in use (`ProcessSlots.EveryRunCounted`): otherwise the failed slot is given back
  twice, and a process can become invisible (`ProcessSlots.MiscountHides`).
- A stop gives back what the start of a decoder for a channel has taken exactly if the channel's name is shorter than
  the slot's 64 characters (`ProcessSlots.DecoderIsGivenBack`): a process for a longer name is never found again under
  it and stays with its reference, although every process in the table has a reference or a deadline.
- A client's own codec is held by its user exactly if its identity fits the slot's 63 characters
  (`ProcessSlots.LocalHeldIff`): a longer one starts a second process and orphans the first.
- A silent server is left behind by the registration timer exactly if SASL was found on offer or an authentication was
  begun (`CapNegotiation.TimeoutReleases`): before the server's capability list no timer runs.
- SASL on offer is asked for by name exactly if the capabilities asked for before it leave room in the request line of 63
  characters (`CapNegotiation.SaslIsNamed`): otherwise the request goes out without it.
- A resumed encoder repeats every header it has ever sent exactly if they fit the cache of 256 KiB together
  (`ManagerReader.ResumedSubscriber`, `ManagerReader.AllKeptIff`).

Time, the outcome of system calls (whether a line goes out, a process starts, a connection opens), the media channel
tables and what the network delivers are parameters of the steps. IPC and media sends of the bridge host that fail are
steps of their own that can come at any moment.

## Model

| member | source | states |
|---|---|---|
| `AudioGraph.LinkClosesCycle` | rrclient/audio.graph.c:92-123 | A link between two nodes keeps the graph acyclic exactly if no path leads from its destination back to its source, so a link refused for reachability really would close a cycle |
| `AudioGraph.PathBound` | rrclient/audio.graph.c:67-90 | In an acyclic graph a path visits every node at most once, so it is no longer than the number of nodes |
| `AudioGraph.StepKeepsWellFormed` | rrclient/audio.graph.c:53-137 | Adding nodes and links and setting health or route keep the graph acyclic over normal and bypass links, with unique ids and at most one input of each kind on every node that is no mixer |
| `AudioGraph.EveryRunWellFormed` | rrclient/audio.graph.c:53-137 | Every graph reached by any sequence of operations, accepted or refused, is well formed |
| `AudioGraph.NodeAdded` | rrclient/audio.graph.c:53-65 | Exactly a new id of 1 to 63 characters, below 256 nodes, is added, with the kind asked for, stopped and without a route; otherwise the graph stays as it is |
| `AudioGraph.LinkAddedIff` | rrclient/audio.graph.c:92-123 | In a well-formed graph a link is added exactly if it joins two nodes, not from a sink nor into a source, below 512 links with 1 to 3 channels, no path leads back from its destination, and it competes with no input: none of its kind into an ordinary node, none from the same source into a mixer |
| `AudioGraph.MarksSet` | rrclient/audio.graph.c:128-136 | The named node gets exactly the health or the known route letter that was given, and keeps everything else |
| `AudioGraph.OneSource` | rrclient/audio.graph.c:138-160 | The last link of a kind found by the scan is the only one of that kind into a node that is no mixer |
| `AudioGraph.InputMeaning` | rrclient/audio.graph.c:138-174 | A single-input node hears its normal source unless that has failed, and then its bypass only if that is healthy; nobody else is ever chosen |
| `AudioGraph.InputChainEnds` | rrclient/audio.graph.c:138-174 | Following selected inputs from any node ends within as many steps as there are nodes, for every assignment of health |
| `AudioGraph.EnqueueKeepsSearched` | rrclient/audio.graph.c:67-90 | An unvisited node always finds room in the 256-entry search queue, because queued nodes are all different |
| `AudioGraph.DryMeansUnreachable` | rrclient/audio.graph.c:67-90 | A search that runs dry proves that no path to the target exists |
| `AudioGraph.Graph.AddNode` | rrclient/audio.graph.c:53-65 | Accepts a node exactly for a new non-empty id below the limit, and otherwise changes nothing |
| `AudioGraph.Graph.Reaches` | rrclient/audio.graph.c:67-91 | The breadth-first search returns true exactly if a path of at least one link exists |
| `AudioGraph.Graph.VisitSuccessors` | rrclient/audio.graph.c:81-87 | One round of the search queues every unvisited successor of a node and stays within the queue |
| `AudioGraph.Graph.AddChannelLink` | rrclient/audio.graph.c:92-123 | Accepts a link exactly if it is plausible and the graph with it has no cycle |
| `AudioGraph.Graph.InputTaken` | rrclient/audio.graph.c:106-116 | Finds a competing link exactly if there is a duplicate or a second input of a kind into a node that is no mixer |
| `AudioGraph.Graph.SetHealth` | rrclient/audio.graph.c:128-136 | Marks the named node and no other |
| `AudioGraph.Graph.SetRoute` | rrclient/audio.graph.c:208-217 | Sets the route of the named node to a known letter and changes nothing else |
| `AudioGraph.Graph.SelectedInput` | rrclient/audio.graph.c:138-174 | Names the input that the arbitration rule selects |
| `AudioStream.StepKeepsStreamOk` | rrclient/audio.engine.c:58-127 | Every push, tick and route change keeps a stream's queue bounded and its starved flag equal to having played and not being primed |
| `AudioStream.StarvationIsRare` | rrclient/audio.engine.c:58-127 | Over every run of a stream five ticks and 1280 played samples go with each starvation event |
| `AudioStream.RunConserves` | rrclient/audio.engine.c:271-323 | Over every run of a stream what was pushed was played, overflowed, discarded or is still queued; without losses the played samples and the queue are the pushed samples in order |
| `AudioStream.FadingAttenuates` | rrclient/audio.engine.c:103-115 | Fading in and out never makes a sample louder and never flips its sign |
| `AudioStream.FadedSounds` | rrclient/audio.engine.c:94-115 | Every sample that a tick plays is the queued one times k/64 truncated toward zero at place k of a fade-in, and times the 64th that is left in the tail of a short block, the last one times zero; outside both it is unchanged |
| `AudioStream.TickLeaves` | rrclient/audio.engine.c:58-127 | A tick leaves the queue behind what was played, the stream primed by a whole block only, the fade-in as far on as was played, and nothing at all of a muted queue |
| `AudioStream.CountersMean` | rrclient/audio.engine.c:64-92 | A starvation event is a stream that falls silent in this tick, a rebuffering block one that stays silent, a startup block one that has never played and still waits |
| `AudioStream.PushesKeepNewest` | rrclient/audio.engine.c:280-306 | However many pushes come between two ticks, and however they overflow, the queue is the newest 3840 of all samples queued and pushed |
| `AudioStream.RerouteStartsOver` | rrclient/audio.engine.c:308-323 | A new route leaves the stream as if it had just been added under that route |
| `AudioEngine.StepOk` | rrclient/audio.engine.c:58-127 | Every engine operation keeps all streams sane, their names unique, and underrun blocks equal to rebuffer blocks plus starvation events |
| `AudioEngine.EveryRunOk` | rrclient/audio.engine.c:58-127 | The same in every reachable engine |
| `AudioEngine.AccumulatorFits` | rrclient/audio.engine.c:52-124 | For up to 65536 streams every sum of a tick, partial sums included, fits the 32-bit accumulator |
| `AudioEngine.AddedStreamRarelyStarves` | rrclient/audio.engine.c:58-127 | A stream added to a running engine starves, over every run of the engine, at most once for five of its ticks and once for 1280 of its samples played, and its samples are accounted for |
| `AudioEngine.TicksSpendAdvance` | rrclient/audio.engine.c:58-127 | In one tick of all streams each starvation event uses up five ticks that its stream had in advance |
| `AudioEngine.EngineRarelyStarves` | rrclient/audio.engine.c:58-127 | Over every run, with streams coming and going and counters reset, five times the engine's starvation counter is at most the number of times ticks have served a stream |
| `AudioEngine.StepProjects` | rrclient/audio.engine.c:51-136 | One engine operation changes a stream exactly as that operation would change it alone |
| `AudioEngine.RunProjects` | rrclient/audio.engine.c:51-136 | Over every run each stream behaves as if it were alone, so the bounds on one stream hold in the engine |
| `AudioEngine.HeldAfterTick` | rrclient/audio.engine.c:59-63 | A tick takes out of the queues exactly what it plays and what muted streams throw away |
| `AudioEngine.StepBalances` | rrclient/audio.engine.c:271-323 | Every operation keeps the ledger of samples balanced |
| `AudioEngine.NothingLost` | rrclient/audio.engine.c:271-323 | Over every run total pushed = mixed + overflowed + discarded by mute, route change or removal + still queued |
| `AudioEngine.PushCounts` | rrclient/audio.engine.c:271-306 | A push counts its samples, the greatest push and queue so far, and as overflow exactly the samples that are gone |
| `AudioEngine.TickCounts` | rrclient/audio.engine.c:64-128 | A tick counts one block, and the streams that are silent behind it by whether they have just fallen silent, stay silent, or wait for their first sound |
| `AudioEngine.MixedAdds` | rrclient/audio.engine.c:52-124 | Two lists of streams sound together as the sum of what each of them sounds alone |
| `AudioEngine.GainMeans` | rrclient/audio.engine.c:130-136 | Gain is a percentage truncated toward zero; 100 leaves a sample alone, 0 silences everything, and what overflows saturates with its sign |
| `AudioEngine.SidesApart` | rrclient/audio.engine.c:130-136 | Each side follows its own gain only |
| `AudioEngine.HeardAlone` | rrclient/audio.engine.c:51-136 | A stream alone at full gain is heard sample by sample as faded, on the left unless it is routed right and on the right unless it is routed left, and silence follows its last sample |
| `AudioEngine.SteadyIsExact` | rrclient/audio.engine.c:51-136 | Outside its fades such a stream is heard exactly as it was pushed: on both sides, or on the one it is routed to with silence on the other |
| `AudioEngine.FadeInRises` | rrclient/audio.engine.c:103-115 | Sample k of a fresh fade-in is k/64 of what was pushed, truncated, on both sides |
| `AudioEngine.FadeOutEnds` | rrclient/audio.engine.c:103-115 | The last sample of a short block is silent |
| `AudioMixer.StreamBuffer.Push` | rrclient/audio.engine.c:271-306 | The ring holds the newest 3840 samples of queue and input, and the number dropped is returned |
| `AudioMixer.StreamBuffer.Append` | rrclient/audio.engine.c:294-301 | The wrapped copy appends to the queue that the ring stands for |
| `AudioMixer.StreamBuffer.Discard` | rrclient/audio.engine.c:125-126 | Moving the head removes a prefix of the queue |
| `AudioMixer.StreamBuffer.Reroute` | rrclient/audio.engine.c:308-323 | Every route change empties the ring and starts the stream over |
| `AudioMixer.Mixer.FindStream` | rrclient/audio.engine.c:40-49 | Finds the stream of a name, or none exactly if there is none |
| `AudioMixer.Mixer.AddStream` | rrclient/audio.engine.c:235-251 | A new name gets a fresh stream, a known one is left alone |
| `AudioMixer.Mixer.RemoveStream` | rrclient/audio.engine.c:253-269 | Only the named stream goes |
| `AudioMixer.Mixer.Push` | rrclient/audio.engine.c:271-306 | Queues samples on the named stream and counts what overflows |
| `AudioMixer.Mixer.Route` | rrclient/audio.engine.c:308-323 | Accepts a known letter for a known stream and otherwise changes nothing |
| `AudioMixer.Mixer.Snapshot` | rrclient/audio.engine.c:325-336 | Returns all counters and clears them only on request |
| `AudioMixer.Mixer.Gain` | rrclient/audio.engine.c:338-345 | Sets one channel's gain, clamped to 0..100 |
| `AudioMixer.Mixer.Tick` | rrclient/audio.engine.c:51-136 | The in-place loops compute one tick: the state and counters of every stream, and each output sample as the clamped, scaled sum over all streams |
| `AudioMixer.Mixer.LockedTick` | rrclient/audio.engine.c:51-127 | Under the lock every stream is ticked once and the accumulator is the sum of what they play |
| `AudioMixer.Mixer.TickStream` | rrclient/audio.engine.c:58-127 | One stream's part of a tick: prime, starve, fade, count and consume |
| `AudioMixer.Mixer.MixSamples` | rrclient/audio.engine.c:103-123 | Adds the faded samples of a block to the channels that the route selects |
| `AudioMixer.Mixer.Scale` | rrclient/audio.engine.c:130-136 | Applies each channel's gain and clamps to a sample |
| `Rings.AppendNewest` | rrclient/audio.engine.c:294-301 | A wrapped append to a ring stands for appending to the queue |
| `Rings.Append` | rrclient/audio.engine.c:294-301 | The copy in two parts stores the data around the end of the ring |
| `MixerClock.RunStaysOnGrid` | rrclient/audio.engine.c:138-174 | Whatever the wake-ups, the deadline stays a whole number of 20 ms periods from the start and counts every block emitted or skipped |
| `MixerClock.InStepIffNotEarly` | rrclient/audio.engine.c:138-174 | After a pass emitted plus skipped blocks are the elapsed periods, and the next deadline is within one period, exactly if the thread did not wake early |
| `MixerClock.NeverDrifts` | rrclient/audio.engine.c:138-174 | For every pattern of lateness the clock is in step with time after every pass that was not early |
| `MixerClock.EveryPassEmits` | rrclient/audio.engine.c:138-174 | Every wake-up emits one block, and blocks are only ever skipped in addition |
| `MixerClock.LatenessCounted` | rrclient/audio.engine.c:143-174 | A pass is late from 5 ms on; the greatest lateness is kept, and a stopping thread emits nothing |
| `MixerClock.MixerThread.Wake` | rrclient/audio.engine.c:143-174 | One pass of the thread updates deadline, skipped and late counters as the clock says |
| `MediaFraming.WireFormat` | libfwdspmgr/fwdsp-mgr.c:240-304 | On the wire a frame is its payload behind four bytes: the length in big-endian order with the header, tap and discontinuity flags in the top three bits |
| `MediaFraming.FrontOfEncoded` | libfwdspmgr/fwdsp-mgr.c:240-304 | What a writer puts on the wire is read back as the same frame with the same flags, whatever follows it |
| `MediaFraming.ParseInParts` | libfwdspmgr/fwdsp-mgr.c:400-600 | Parsing in two reads finds what parsing the joined bytes finds |
| `MediaFraming.FrameIsReadIff` | fwdsp/fwdsp.c:711-724 | A frame is read exactly if its payload is not empty and whole samples; any other makes the stream bad where it begins |
| `MediaFraming.CuttingIrrelevant` | fwdsp/fwdsp.c:688-785 | How the bytes were cut into reads makes no difference to the frames found |
| `MediaFraming.RoundTrip` | fwdsp/fwdsp.c:595-785 | For all frames and all cuttings of their bytes a reader delivers exactly those frames in order and keeps nothing |
| `MediaFraming.MidStream` | fwdsp/fwdsp.c:688-785 | At every moment a reader has delivered all complete frames and keeps a proper part of the next one |
| `MediaFraming.ParsePart` | fwdsp/fwdsp.c:688-785 | Any first part of a stream parses to the frames complete in it |
| `ChildReader.NeverRefusedIff` | fwdsp/fwdsp.c:651-686 | Every cutting into reads of at most 4096 bytes is taken in exactly if the stream fits the ceiling of 64 MiB + 4096 |
| `ChildReader.SurvivesWithin` | fwdsp/fwdsp.c:651-686 | With frames short of the ceiling no append is ever refused |
| `ChildReader.RefusedCutting` | fwdsp/fwdsp.c:651-686 | For a frame within three bytes of the limit with enough behind it there is a cutting that is refused |
| `ChildReader.FrameReader.Append` | fwdsp/fwdsp.c:651-686 | Appends a read exactly if it fits the ceiling, and otherwise leaves the buffer alone |
| `ChildReader.FrameReader.Reserve` | fwdsp/fwdsp.c:660-680 | Doubling finds a sufficient capacity within the ceiling and keeps the content |
| `ChildReader.FrameReader.Drain` | fwdsp/fwdsp.c:688-785 | Hands on every complete frame in order and moves exactly the incomplete rest to the front |
| `PcmBacklog.BacklogIsSuffix` | libfwdspmgr/pcm-backlog.h:19-39 | After any writes the backlog is the last 3200 bytes of everything appended in whole samples |
| `PcmBacklog.Backlog.Append` | libfwdspmgr/pcm-backlog.h:19-39 | One append keeps the last 3200 bytes of old and new data, and refuses odd lengths |
| `ManagerReader.NewerCounts` | libfwdspmgr/fwdsp-mgr.c:311-331 | The look-ahead over frame lengths counts exactly the tap bytes that the parse will find, up to the backlog |
| `ManagerReader.LatestSoundOnly` | libfwdspmgr/fwdsp-mgr.c:489-512 | Although every frame is trimmed on its own, the listener of a decoder gets exactly the last min(3200, total) bytes of all well-formed tap payloads in one buffer, in order and in whole samples |
| `ManagerReader.PassKeepsIncomplete` | libfwdspmgr/fwdsp-mgr.c:470-600 | What a pass keeps is an incomplete frame that the next pass starts from |
| `ManagerReader.EncodedStreamUntouched` | libfwdspmgr/fwdsp-mgr.c:552-586 | In one pass subscribers of an encoder get every packet unchanged and in order, and if a replay is pending the cached headers before the first of them |
| `ManagerReader.PassCaches` | libfwdspmgr/fwdsp-mgr.c:552-577 | One pass caches exactly the stream headers it parses, in order and as far as there is room, and a pending replay is done with the first packet that has a subscriber |
| `ManagerReader.RunCaches` | libfwdspmgr/fwdsp-mgr.c:552-577 | The same over any run of reads, for the frames that all its passes find |
| `ManagerReader.RunDelivers` | libfwdspmgr/fwdsp-mgr.c:552-700 | Over any run of reads subscribers of an encoder get all packets of all frames in order, behind the headers if a replay was pending |
| `ManagerReader.CutStreamDelivered` | libfwdspmgr/fwdsp-mgr.c:492-700 | However the bytes of some frames are cut into reads, subscribers get the packets of exactly those frames |
| `ManagerReader.ResumedSubscriber` | libfwdspmgr/fwdsp-mgr.c:373-384 | An encoder that has run, listened to or not, and is then resumed sends with its next packet all stream headers it has ever sent for which there was room, and from there on every packet |
| `ManagerReader.AllKeptIff` | libfwdspmgr/fwdsp-mgr.c:552-568 | All headers are kept exactly if all of them fit the cache together |
| `ManagerReader.JoinerHearsHeaders` | libfwdspmgr/fwdsp-mgr.c:386-398 | A listener who joins a running encoder gets every cached header before its first packet, whether or not a replay was pending |
| `ManagerReader.ReplayIsFaithful` | libfwdspmgr/fwdsp-mgr.c:373-384 | Replaying the cache sends exactly the cached header packets in the order they came |
| `ManagerReader.EndpointHeard` | libfwdspmgr/fwdsp-mgr.c:514-551 | The listener of a capture or processing endpoint gets, in order and whole, every frame of a pass that is neither a tap nor a header and has an even length; a playback endpoint hands on nothing, and no endpoint caches anything |
| `ManagerReader.PassBroadcasts` | libfwdspmgr/fwdsp-mgr.c:552-600 | What a pass of a codec sends to the media channel is exactly what its frames deliver, and nothing without a subscriber |
| `ManagerReader.Reader.Greet` | libfwdspmgr/fwdsp-mgr.c:386-398 | A listener who joins is sent the cached headers unless a replay is pending |
| `ManagerReader.Reader.Resume` | libfwdspmgr/fwdsp-mgr.c:1744-1747 | Asks for a replay and changes nothing else |
| `ManagerReader.Reader.Ready` | libfwdspmgr/fwdsp-mgr.c:653-700 | One read and one pass cause what the specification says of kept and new bytes, and keep the header cache made of whole packets |
| `ManagerReader.Reader.ParseRead` | libfwdspmgr/fwdsp-mgr.c:469-600 | The parse loop hands on every complete frame of the receive buffer and keeps the rest |
| `ManagerReader.Reader.HandleFrame` | libfwdspmgr/fwdsp-mgr.c:489-600 | One frame is trimmed, cached, replayed and forwarded as its flags and source demand |
| `ManagerReader.Reader.CountNewer` | libfwdspmgr/fwdsp-mgr.c:311-331 | The scan counts newer sound and stops at the backlog |
| `ManagerReader.Reader.Replay` | libfwdspmgr/fwdsp-mgr.c:373-384 | The loop over the cache returns its packets |
| `SpawnGuard.AttemptExplained` | libfwdspmgr/fwdsp-mgr.c:104-157 | Every attempt keeps what a guard knows of its past starts: at most three in its window, the first at its very start, no six within 30 seconds |
| `SpawnGuard.SlidingBound` | libfwdspmgr/fwdsp-mgr.c:104-157 | Over any attempts with a monotone clock no six permitted starts lie within 30 seconds |
| `SpawnGuard.IntervalHoldsFive` | libfwdspmgr/fwdsp-mgr.c:97-157 | Read as an interval: any half-open 30 seconds hold at most five permitted starts |
| `SpawnGuard.BlockEnds` | libfwdspmgr/fwdsp-mgr.c:139-154 | Refused attempts never extend a block, and the first attempt after it is permitted |
| `SpawnGuard.RefusalHasCause` | libfwdspmgr/fwdsp-mgr.c:139-156 | A guard that is not blocked refuses only when its last three permitted starts lie within 30 seconds of now, and then blocks for 60 seconds |
| `SpawnGuard.WindowAdmitsThree` | libfwdspmgr/fwdsp-mgr.c:139-156 | The first three attempts of a new window are permitted, the fourth is refused, and nothing is permitted again before the 60 seconds that it starts are over |
| `SpawnGuard.BoundIffClockPositive` | libfwdspmgr/fwdsp-mgr.c:139-156 | From a fresh guard the bound holds for all later attempts exactly if the first one comes after clock zero |
| `SpawnGuard.RequestEvictsNothing` | libfwdspmgr/fwdsp-mgr.c:116-137 | While the key has a guard or a slot is free, a request touches no other key's guard |
| `SpawnGuard.TableIsFaithful` | libfwdspmgr/fwdsp-mgr.c:104-157 | With at most 128 keys every key's guard is as if it had the table to itself, and keys stay unique |
| `SpawnGuard.LimiterBound` | libfwdspmgr/fwdsp-mgr.c:97-157 | With at most 128 keys and a clock past zero each key gets at most five starts in any 30 seconds |
| `SpawnGuard.Limiter.Permitted` | libfwdspmgr/fwdsp-mgr.c:104-157 | The scan over the guard array picks the key's guard, a free one or the oldest, and decides as the specification says |
| `SpawnGuard.Limiter.Decide` | libfwdspmgr/fwdsp-mgr.c:139-156 | Rolls the window, counts the start or starts a block |
| `Recorder.RecordingIsPrefix` | fwdsp/fwdsp.c:302-368 | Under every interleaving of writer and consumer sections the recording is a prefix, in whole sample frames, of the accepted writes |
| `Recorder.StopLosesOnlyTail` | fwdsp/fwdsp.c:488-506 | After a normal stop exactly (accepted length mod frame size) bytes are missing, if a frame fits the chunk, and otherwise everything is |
| `Recorder.StopFinishes` | fwdsp/fwdsp.c:302-368 | Once stopped, the consumer ends within as many turns as bytes are queued and one more |
| `Recorder.WriteFits` | fwdsp/fwdsp.c:508-541 | A write is accepted whole exactly if it fits behind what is queued |
| `Recorder.ConsumeTakes` | fwdsp/fwdsp.c:302-368 | A turn of the consumer with a whole frame queued records the most whole frames that the queue and 8192 bytes hold, from the front |
| `Recorder.RecordsEverything` | fwdsp/fwdsp.c:302-541 | Writes that fit the ring together, a stop and enough turns record all of it but the incomplete last frame |
| `Recorder.Ring.Write` | fwdsp/fwdsp.c:508-541 | Accepts data whole if it fits behind what is queued, and otherwise drops it whole |
| `Recorder.Ring.Take` | fwdsp/fwdsp.c:302-368 | Takes the next whole frames from the wrapped ring, or reports the end |
| `Recorder.Ring.CopyOut` | fwdsp/fwdsp.c:331-342 | Copies the oldest bytes in two parts around the end of the ring |
| `Recorder.Ring.Stop` | fwdsp/fwdsp.c:488-506 | Marks the end and leaves the queue to the consumer |
| `ProcessSlots.First` | libfwdspmgr/fwdsp-mgr.c:860-893 | A search finds the first matching slot, or none exactly if there is none |
| `ProcessSlots.CreateCounts` | libfwdspmgr/fwdsp-mgr.c:901-981 | The count of active slots stays equal to the occupied slots exactly unless a tried spawn fails to attach its pipes while other slots are counted |
| `ProcessSlots.MiscountHides` | libfwdspmgr/fwdsp-mgr.c:860-876 | With one process in use such a failure makes that process invisible to a search by codec |
| `ProcessSlots.EveryRunCounted` | libfwdspmgr/fwdsp-mgr.c:901-981 | All through a run, audio endpoints included, the count equals the occupied slots exactly if no tried codec creation of the run fails at its pipes while other slots are counted |
| `ProcessSlots.ProcessorCounts` | libfwdspmgr/fwdsp-mgr.c:1115-1148 | Starting or stopping an audio endpoint keeps the count right however its start fails: unlike a codec it is given back once |
| `ProcessSlots.EndpointIsGivenBack` | libfwdspmgr/fwdsp-mgr.c:1073-1256 | A stop by the full name of a new audio endpoint finds it and gives the table back as it was |
| `ProcessSlots.EndpointStartsIff` | libfwdspmgr/fwdsp-mgr.c:1092-1152 | An endpoint with a plain name starts exactly if its name space has none of that name, there is a free slot and room by the counter, and the process spawns; it then has one free slot, and otherwise no slot changes |
| `ProcessSlots.EndpointNamed` | libfwdspmgr/fwdsp-mgr.c:1036-1072 | A name may begin with the endpoint's own name space and a dot, which makes no difference, and with no other name space |
| `ProcessSlots.StartShape` | libfwdspmgr/fwdsp-mgr.c:1787-1824 | A start that succeeds leaves one slot running the codec, unpaused, with one reference more, and returns its channel; a failed one changes no slot |
| `ProcessSlots.EveryRunDiffers` | libfwdspmgr/fwdsp-mgr.c:949-949 | In every run the codecs in the table have channel numbers that were given out, and no two of them share one |
| `ProcessSlots.StartGives` | libfwdspmgr/fwdsp-mgr.c:1787-1824 | A start that fills a free slot returns the next channel number, which no instance before it had, and the slot holds the codec under that channel name with one user; a known instance keeps its number, has one user more, and is resumed with its headers replayed if it was warm |
| `ProcessSlots.StartFinds` | libfwdspmgr/fwdsp-mgr.c:983-1000 | A new instance is started for a channel only if it has none, and without a channel only if none of the codec is found |
| `ProcessSlots.StartSucceedsIff` | libfwdspmgr/fwdsp-mgr.c:901-981 | A start for a channel gives an instance exactly if there is one already, or there is a free slot, room by the counter, and the process spawns |
| `ProcessSlots.LocalGives` | libfwdspmgr/fwdsp-mgr.c:1767-1784 | A client's own codec is marked as such, bears its identity and has one user more |
| `ProcessSlots.ReleaseShape` | libfwdspmgr/fwdsp-mgr.c:1667-1693 | The last reference leaves an encoder paused and warm for the hang time and ends a decoder; other references only count down |
| `ProcessSlots.StopShape` | libfwdspmgr/fwdsp-mgr.c:1829-1870 | A stop drops one reference of the channel's instance, or of an unbound one, and changes nothing else |
| `ProcessSlots.StopsServing` | libfwdspmgr/fwdsp-mgr.c:1829-1856 | A stop releases the channel's own instance, or else an unbound one, and without a channel the first of the codec, while the counter is right or not zero |
| `ProcessSlots.StopGives` | libfwdspmgr/fwdsp-mgr.c:1829-1870 | A stop leaves one reference less; the last one leaves an encoder paused until the hang time is over, if there is one, and otherwise frees the slot |
| `ProcessSlots.StopFinds` | libfwdspmgr/fwdsp-mgr.c:1829-1856 | A stop for a channel finds the channel's own instance, an unbound one only if it has none, and nothing only if there is neither |
| `ProcessSlots.KillGives` | libfwdspmgr/fwdsp-mgr.c:1917-1939 | An immediate stop frees the first instance with the channel's name, whoever uses it, and touches no other |
| `ProcessSlots.MakeBeforeBreak` | libfwdspmgr/fwdsp-mgr.c:1876-1915 | Between different codecs the new instance has its reference and runs unpaused before the old one is touched, then the instance that served the user before the switch loses exactly one reference, and a failed switch changes no slot |
| `ProcessSlots.HeadersRepeated` | libfwdspmgr/fwdsp-mgr.c:1899-1906 | A switch back to a codec that still runs makes it repeat its cached stream headers |
| `ProcessSlots.SwitchToSame` | libfwdspmgr/fwdsp-mgr.c:1876-1897 | A switch to the codec that the channel has already changes nothing while it is in use, and starts it if it is warm |
| `ProcessSlots.EveryRunWarm` | libfwdspmgr/fwdsp-mgr.c:1667-1870 | In every run a slot has a deadline exactly while the last command sent to it is a pause, and then it is an encoder with no references |
| `ProcessSlots.EveryRunHeld` | libfwdspmgr/fwdsp-mgr.c:1667-1870 | In every run with local identities that fit, every codec process has a reference or a deadline |
| `ProcessSlots.DecodersAreUsed` | libfwdspmgr/fwdsp-mgr.c:1667-1693 | In every such run a decoder in the table has a reference |
| `ProcessSlots.DecoderIsGivenBack` | libfwdspmgr/fwdsp-mgr.c:1787-1870 | Starting and stopping a decoder for a channel restores every slot exactly if the channel's name fits the slot |
| `ProcessSlots.LongNameStays` | libfwdspmgr/fwdsp-mgr.c:878-893 | For a name of 64 characters the only user's stop changes nothing and the decoder runs on |
| `ProcessSlots.LocalHeldIff` | libfwdspmgr/fwdsp-mgr.c:1767-1784 | A new client-owned codec leaves no orphan exactly if its identity is shorter than the slot's field |
| `ProcessSlots.LongIdentityOrphans` | libfwdspmgr/fwdsp-mgr.c:1767-1784 | For an identity of 64 characters the start succeeds and leaves an orphan |
| `ProcessSlots.SweepShape` | libfwdspmgr/fwdsp-mgr.c:1695-1763 | A sweep treats every slot on its own, in spite of destroying slots on the way |
| `ProcessSlots.SweepRetires` | libfwdspmgr/fwdsp-mgr.c:1708-1762 | A sweep at or after its deadline ends a warm encoder that nobody wants, an earlier one leaves it alone, and one that is wanted is resumed for exactly its users |
| `ProcessSlots.SweepFollowsDemand` | libfwdspmgr/fwdsp-mgr.c:1695-1763 | A sweep gives an instance of a channel exactly as many references as the channel has users, awake; without users its last one leaves; what nobody wants goes at its deadline; everything else stays |
| `ProcessSlots.Manager.Search` | libfwdspmgr/fwdsp-mgr.c:860-893 | The loop over the slot array finds the first match |
| `ProcessSlots.Manager.Allocate` | libfwdspmgr/fwdsp-mgr.c:901-981 | Takes the first free slot if the counter leaves room |
| `ProcessSlots.Manager.Launch` | libfwdspmgr/fwdsp-mgr.c:924-974 | Fills a slot, and clears it and the count when the process does not come up, twice when its pipes fail |
| `ProcessSlots.Manager.Remove` | libfwdspmgr/fwdsp-mgr.c:1257-1311 | Frees an occupied slot once and takes it off the count |
| `ProcessSlots.Manager.StartEndpoint` | libfwdspmgr/fwdsp-mgr.c:1092-1152 | Takes a slot for an acceptable name that is not in use, and gives it back once if the process does not come up |
| `ProcessSlots.Manager.StopEndpoint` | libfwdspmgr/fwdsp-mgr.c:1239-1255 | Stops the endpoint that a name means, trying the four name spaces in order |
| `ProcessSlots.Manager.StartCodec` | libfwdspmgr/fwdsp-mgr.c:1787-1824 | References a known, shared or new instance and resumes a warm one |
| `ProcessSlots.Manager.StartLocalCodec` | libfwdspmgr/fwdsp-mgr.c:1767-1784 | Marks the instance as client-owned before it is started |
| `ProcessSlots.Manager.IdlePipeline` | libfwdspmgr/fwdsp-mgr.c:1667-1693 | Pauses and dates an encoder, or destroys the instance |
| `ProcessSlots.Manager.StopCodec` | libfwdspmgr/fwdsp-mgr.c:1829-1870 | Finds the instance to stop, with the legacy fallback, and drops one reference |
| `ProcessSlots.Manager.KillCodec` | libfwdspmgr/fwdsp-mgr.c:1917-1939 | Destroys the instance whoever uses it |
| `ProcessSlots.Manager.SwitchCodec` | libfwdspmgr/fwdsp-mgr.c:1876-1915 | Reuses the same codec or starts the new one before it releases the old one |
| `ProcessSlots.Manager.SweepExpired` | libfwdspmgr/fwdsp-mgr.c:1695-1763 | The loop over all slots does one sweep |
| `KiwiBridge.EveryOrderAnsweredOnce` | rrbridge/main.c:202-216 | In every run each accepted SET with an id gets exactly one RESULT with that id, in order, but for the one pending; a success reports the tune that was ordered |
| `KiwiBridge.AnsweredInTime` | rrbridge/module.kiwi.c:1067-1081 | After the first poll that ends at least four seconds after an order was taken, the order has its answer |
| `KiwiBridge.OrderGets` | rrbridge/module.kiwi.c:1090-1123 | What every order gets in every state that takes one: success at once if the receiver is there already, the receiver told and four seconds to wait if it is online, in range, a known mode and the command goes out on an open websocket, and failure at once in every other case |
| `KiwiBridge.RadioIsTold` | rrbridge/module.kiwi.c:166-226 | In every run the last tune command sent over a live session is the one for the pending order, or else for the tune that the host was last told |
| `KiwiBridge.PacketAnswers` | rrbridge/module.kiwi.c:398-480 | In every run the next valid, plain, whole and fresh packet with the new frequency answers the pending order with success and the tune that was ordered, a bad packet answers it with failure and ends the session, and any other leaves it pending |
| `KiwiBridge.ComesOnline` | rrbridge/module.kiwi.c:205-480 | A connection that opens, a receiver that lets the driver in and tells its bandwidth and rate, and one sound packet bring the radio online at the tune that was wanted |
| `KiwiBridge.CommandsPerMode` | rrbridge/module.kiwi.c:166-203 | The tune command for each mode, in any case of its letters, with its passband |
| `KiwiBridge.KilohertzReads` | rrbridge/module.kiwi.c:200-200 | The frequency in the command has three decimals and without its point reads as the frequency in Hz |
| `KiwiBridge.ServerFaults` | rrbridge/main.c:344-388 | A second order before the first is answered, or anything that is no order, is a fault of the server |
| `KiwiBridge.MismatchIffZeroId` | rrbridge/main.c:202-209 | The host sees a mismatched completion exactly if it has taken a SET with id zero |
| `KiwiBridge.PendingMeansOnline` | rrbridge/module.kiwi.c:1090-1123 | In every run the host's pending request is the driver's, and while there is one the receiver is online, has not failed and its websocket is open |
| `KiwiBridge.OpensBounded` | rrbridge/module.kiwi.c:858-993 | Every run opens at most 3 + 8 = 11 receiver sockets |
| `KiwiBridge.FailInv` | rrbridge/module.kiwi.c:83-116 | A failure answers the pending request once and leaves no request behind |
| `KiwiBridge.NetworkInv` | rrbridge/module.kiwi.c:801-896 | Every network event keeps books, session and budget, in whatever order events come |
| `KiwiBridge.ReceiveInv` | rrbridge/module.kiwi.c:363-480 | Every receiver message keeps them too, also when a parameter ends the session in the middle of a message |
| `KiwiBridge.ObeyInv` | rrbridge/main.c:344-388 | Every command keeps them: an order is answered at once or passed on, and a second one before the answer is a fault |
| `KiwiBridge.FailEnds` | rrbridge/module.kiwi.c:83-116 | A failure answers the pending order with failure, takes the radio offline and closes the connection |
| `KiwiBridge.RefusalsEnd` | rrbridge/module.kiwi.c:277-362 | A receiver that is disabled, full, rejects the password or converts frequencies ends the session, and so do a bandwidth and a rate out of range |
| `KiwiBridge.PollEnds` | rrbridge/module.kiwi.c:1063-1089 | A poll ends exactly a session that is late with its first packet or its answer, silent for more than ten seconds, or whose keepalive does not go out |
| `KiwiBridge.DialsWhenDue` | rrbridge/module.kiwi.c:957-993 | A connection is tried when it is due and fewer than three were, has ten seconds to come up, and is tried again after a second if it cannot even begin |
| `KiwiBridge.LossWaits` | rrbridge/module.kiwi.c:858-895 | A lost connection answers the pending order with failure and is tried again after 1, 2, 4, up to 64 seconds, after three attempts never |
| `KiwiBridge.RedirectFollowed` | rrbridge/module.kiwi.c:801-895 | A usable redirect before the websocket is followed as soon as the connection is gone, costs no attempt, and tells the host nothing |
| `KiwiBridge.BridgeHost.Completed` | rrbridge/main.c:202-216 | Answers the pending request or fails the host |
| `KiwiBridge.Receiver.GoOffline` | rrbridge/module.kiwi.c:83-104 | Answers the request first and then reports the radio offline |
| `KiwiBridge.Receiver.End` | rrbridge/module.kiwi.c:105-116 | Ends a session once |
| `KiwiBridge.Receiver.SetUp` | rrbridge/module.kiwi.c:205-226 | Configures the receiver once it is authenticated and its rate is known |
| `KiwiBridge.Receiver.Learn` | rrbridge/module.kiwi.c:277-362 | What each parameter changes, refuses or ends |
| `KiwiBridge.Receiver.ReadSetup` | rrbridge/module.kiwi.c:371-397 | The loop over parameters stops at the first that is not accepted |
| `KiwiBridge.Receiver.Confirmed` | rrbridge/module.kiwi.c:427-451 | A new-frequency packet settles the tune and answers the request |
| `KiwiBridge.Receiver.ReceiveFrame` | rrbridge/module.kiwi.c:363-480 | Which frames are refused, ignored, stale or confirm a tune |
| `KiwiBridge.Receiver.OnEvent` | rrbridge/module.kiwi.c:801-896 | The reaction to every connection event, redirects and failures included |
| `KiwiBridge.Receiver.ConnectionClosed` | rrbridge/module.kiwi.c:858-895 | A hop gives its attempt back; a lost connection answers, and waits or gives up after three |
| `KiwiBridge.Receiver.PollConnect` | rrbridge/module.kiwi.c:957-993 | Connects when it is time and attempts are left, with a clean session |
| `KiwiBridge.Receiver.PollWatch` | rrbridge/module.kiwi.c:1063-1089 | Fails a session that is late, silent or cannot be kept alive |
| `KiwiBridge.Receiver.Retune` | rrbridge/module.kiwi.c:1090-1123 | Rejects, completes at once or starts a tune with its deadline |
| `KiwiBridge.Serve` | rrbridge/main.c:344-388 | One command of the host loop |
| `ChatPacing.FirstInFirstOut` | rrclient/cmd.c:369-432 | In every run messages leave the queue once and in the order they were accepted, and the queue never outgrows its limit |
| `ChatPacing.SpendingBound` | rrclient/cmd.c:369-403 | From a flush on no more is popped than the bucket held and has earned |
| `ChatPacing.RunRateBound` | rrclient/cmd.c:369-403 | In every run flushes at times in [s, t] pop at most B + (t - s)/I messages |
| `ChatPacing.FlushTakes` | rrclient/cmd.c:369-403 | A flush pops the whole queue or as many messages as whole tokens are there, from the front, and keeps the rest of the credit |
| `ChatPacing.StartsWithFour` | rrclient/cmd.c:350-385 | The first flush pops four messages, or the burst or the whole queue if that is less |
| `ChatPacing.WaitingIsServed` | rrclient/cmd.c:369-403 | A flush at least one interval after the last one pops the message that has waited longest |
| `ChatPacing.SendQueues` | rrclient/cmd.c:405-432 | A message is refused exactly if the queue is full, and otherwise is queued last and the queue is flushed |
| `ChatPacing.Pacer.Flush` | rrclient/cmd.c:369-403 | Credits the elapsed time, caps at the burst and pops while a whole token is left |
| `ChatPacing.Pacer.Send` | rrclient/cmd.c:405-432 | Refuses a full queue, and otherwise queues and flushes |
| `ChatSplitter.CutAtBoundary` | rrclient/cli.irc.c:203-216 | Cutting UTF-8 text (section 4 of RFC 3629) in front of a byte that continues no character leaves two valid texts |
| `ChatSplitter.CharIsRead` | rrclient/cli.irc.c:203-216 | The bytes of every character number but zero and surrogates (section 3 of RFC 3629) are one well-formed character |
| `ChatSplitter.CharIsScalar` | rrclient/cli.irc.c:203-216 | Every well-formed character is the bytes of such a number |
| `ChatSplitter.ChunkIsWhole` | rrclient/cli.irc.c:199-224 | With room for four bytes the chosen cut is never empty, lies between characters, and is behind a space or as far as whole characters reach |
| `ChatSplitter.SplitIsLossless` | rrclient/cli.irc.c:199-243 | Every valid text is sent completely; the chunks join to it, none splits a character or exceeds the budget, and all but the last end in a space or are maximal |
| `ChatSplitter.FourBytesNeeded` | rrclient/cli.irc.c:207-215 | All valid texts can be sent exactly if the budget is at least four bytes |
| `ChatSplitter.LimitIsCappedNumber` | librustyirc/irc.capab.c:196-220 | The line limit is the advertised decimal number, capped at the buffer, without overflow however long the number is |
| `ChatSplitter.LimitOtherwise` | librustyirc/irc.capab.c:196-220 | No number, or one too small for a line ending, means 512 |
| `ChatSplitter.LineFits` | rrclient/cli.irc.c:180-199 | A line with its CRLF fits the limit exactly if its chunk fits the budget |
| `ChatSplitter.LineIsRead` | rrclient/cli.irc.c:225-231 | A receiver reads from a line the command (NOTICE exactly for a notice), the target, the text, and an action for what was one, exactly if plain text is not itself wrapped as an action |
| `ChatSplitter.ChatArrivesWhole` | rrclient/cli.irc.c:176-246 | For every valid text without CTCP marks, every target without a space and a budget of at least four, the lines that go out fit the limit, and the texts that a receiver reads from them, all under that command and target, join to the original text |
| `ChatSplitter.FindEnd` | rrclient/cli.irc.c:203-224 | The two backward loops find the cut |
| `ChatSplitter.SendChunks` | rrclient/cli.irc.c:199-243 | The loop sends the chunks in order until one fails, and reports success exactly if all went out |
| `ChatSplitter.SendChat` | rrclient/cli.irc.c:176-246 | CTCP requests keep their one line, forbidden texts are refused, other text is split |
| `SaslPayload.Base64RoundTrip` | librustyirc/irc.capab.c:307-327 | Decoding by section 4 of RFC 4648 gives every encoded input back |
| `SaslPayload.Encode` | librustyirc/irc.capab.c:307-327 | The loop over three bytes at a time fills the buffer with the encoding |
| `SaslPayload.PiecesAreFull` | librustyirc/irc.capab.c:331-333 | Every chunk but the last is exactly 400 characters long |
| `SaslPayload.ChunksReassemble` | librustyirc/irc.capab.c:329-337 | A server that joins chunks until a short one or a plus gets the encoded text and nothing is left over; an exact multiple of 400 is closed by a plus |
| `SaslPayload.PlainReadsBack` | librustyirc/irc.capab.c:301-306 | The PLAIN message (section 2 of RFC 4616) reads back as no authorization identity, the user and the password |
| `SaslPayload.PayloadReadsBack` | librustyirc/irc.capab.c:295-341 | From the AUTHENTICATE lines a server recovers exactly the configured user and password |
| `CapNegotiation.ApplyTokens` | librustyirc/irc.capab.c:459-513 | Reading a capability list never changes who may speak next, and starts the timer whenever SASL is first found |
| `CapNegotiation.ListsApply` | librustyirc/irc.capab.c:459-513 | After a list the last word on a capability decides whether it is known as offered, enabled or neither, and capabilities the list does not name stay as they were |
| `CapNegotiation.ListStartsOver` | librustyirc/irc.capab.c:423-456 | A capability list or a list of enabled ones replaces the last one unless it continues it over several messages |
| `CapNegotiation.SaslIsNamed` | librustyirc/irc.capab.c:493-508 | An offer of SASL is requested by name exactly if the 63 characters of the request line have room for it |
| `CapNegotiation.StepSpeaks` | librustyirc/irc.capab.c:343-376 | Every message and timer tick continues the conversation from the one attempt that the state allows |
| `CapNegotiation.RunSpeaks` | librustyirc/irc.capab.c:272-375 | Between two resets there is one authentication attempt at most, its lines are the mechanism, a beginning of the payload and at most one abort, and CAP END is sent at most once, and exactly once when negotiation has ended with a server that knows the command |
| `CapNegotiation.Registers` | librustyirc/irc.capab.c:343-549 | For all credentials a whole login says the request, the mechanism, exactly the payload and CAP END, and nothing else: the list offers SASL, the server acknowledges it, prompts and confirms |
| `CapNegotiation.OfferAsked` | librustyirc/irc.capab.c:517-523 | A complete list with SASL on offer is answered with one request and a deadline of 30 seconds |
| `CapNegotiation.NothingOffered` | librustyirc/irc.capab.c:517-527 | A new list with nothing of use ends the negotiation with CAP END, whatever an older list has offered |
| `CapNegotiation.NakAnswered` | librustyirc/irc.capab.c:528-549 | A refusal ends the negotiation with CAP END, unless an authentication is under way |
| `CapNegotiation.AckAnswered` | librustyirc/irc.capab.c:528-549 | An acknowledgement is answered with the mechanism and 30 seconds of waiting exactly if credentials are configured, it leaves SASL enabled and the line goes out; with CAP END if SASL is not in question any more; and with nothing while SASL is asked for and not enabled yet |
| `CapNegotiation.PromptAnswered` | librustyirc/irc.capab.c:354-363 | The first prompt is answered with all of the payload when the connection takes it, and with nothing else |
| `CapNegotiation.VerdictEnds` | librustyirc/irc.capab.c:365-375 | Success and failure alike end the attempt with CAP END |
| `CapNegotiation.AbortEnds` | librustyirc/irc.capab.c:285-363 | A second prompt, one that is no plus, and the deadline abort the attempt and send CAP END |
| `CapNegotiation.PayloadAtMostOnce` | librustyirc/irc.capab.c:354-363 | The credential lines of a whole run are a beginning of one payload, and all of it once it has been answered |
| `CapNegotiation.TimeoutReleases` | librustyirc/irc.capab.c:285-294 | Thirty seconds after the last message a poll lets registration go on exactly if an authentication was begun, SASL was found on offer, or the negotiation was over anyway |
| `CapNegotiation.SilenceHolds` | librustyirc/irc.capab.c:285-294 | Against a server that never answers no poll, however late, ends the negotiation |
| `CapNegotiation.SendChunks` | librustyirc/irc.capab.c:329-337 | The loop sends the chunks and the closing plus until a line fails |
| `CapNegotiation.Respond` | librustyirc/irc.capab.c:295-341 | Sends the payload for the mechanism, as far as the connection takes it |
| `CapNegotiation.Connection.End` | librustyirc/irc.capab.c:272-284 | Ends the attempt and releases the registration once |
| `CapNegotiation.Connection.Prompted` | librustyirc/irc.capab.c:354-363 | The prompt is answered once, anything else is aborted |
| `CapNegotiation.Connection.Verdict` | librustyirc/irc.capab.c:365-375 | A result ends the attempt only while one is under way |
| `CapNegotiation.Connection.Tick` | librustyirc/irc.capab.c:285-294 | The timer aborts and ends the attempt when it is due |
| `CapNegotiation.Connection.Capabilities` | librustyirc/irc.capab.c:423-549 | One CAP message: list handling, tokens, and the next move |
| `CapNegotiation.Connection.Next` | librustyirc/irc.capab.c:517-549 | Requests, ends, starts authentication or waits, as the lists demand |
| `DccText.ReadDecimal` | librustyirc/irc.dcc.c:19-35 | Accepts exactly the non-empty digit strings whose value is at most the maximum and returns that value; the accumulator never exceeds the maximum |
| `DccText.ShowReads` | librustyirc/irc.dcc.c:142-148 | A printed number reads back as itself |
| `DccText.NumberShows` | librustyirc/irc.dcc.c:19-35 | A digit string without a leading zero is the printed form of its value |
| `DccText.ReadAddressShows` | librustyirc/irc.dcc.c:113-130 | A dotted address has one spelling: printing what was read gives the text back |
| `DccText.ShowAddressReads` | librustyirc/irc.dcc.c:113-130 | Every 32-bit address prints to a text that reads back as it |
| `DccText.AddressIsDotted` | librustyirc/irc.dcc.c:123-130 | A 32-bit address is written as its four bytes, the highest first, with dots between them |
| `DccOffer.WrittenIsRead` | librustyirc/irc.dcc.c:61-100 | Fields written bare or quoted with one space between them are read back exactly, spaces in quoted ones included |
| `DccOffer.ReadIsWritten` | librustyirc/irc.dcc.c:61-100 | Every request that the tokenizer accepts is such a writing: double, leading and trailing spaces and open quotes are all refused |
| `DccOffer.EncodeRoundTrip` | librustyirc/irc.dcc.c:132-156 | An offer is encoded exactly if its filename, address, port and size are valid, and decoding the result gives it back, a chat without name and size |
| `DccOffer.DecodedIsValid` | librustyirc/irc.dcc.c:49-131 | Whatever is decoded is a valid offer that is encoded again and decoded to itself |
| `DccOffer.DecodedIsSafe` | librustyirc/irc.dcc.c:36-131 | Whatever is decoded has a filename of 1 to 255 printable bytes that are no separators or quotes and that name no directory, a port and a size in range, and an address that is neither zero nor broadcast |
| `DccOffer.SafeNamesAreOffered` | librustyirc/irc.dcc.c:132-156 | Every offer like that is encoded and read back |
| `DccOffer.OfferIsSpelled` | librustyirc/irc.dcc.c:142-156 | An encoded offer is the request with its name, the address as one decimal number, the port, and the size if it is known, between two CTCP marks |
| `DccOffer.TextIsShort` | librustyirc/irc.dcc.c:142-153 | The length check on an encoded offer never fails |
| `DccOffer.CheckFilename` | librustyirc/irc.dcc.c:36-48 | Accepts exactly 1 to 255 printable bytes without path separators or quotes that name no directory |
| `DccOffer.NextField` | librustyirc/irc.dcc.c:63-100 | Cuts off one bare or quoted field |
| `DccOffer.Tokenize` | librustyirc/irc.dcc.c:61-104 | The loop finds all fields, at most six, or refuses the request |
| `DccOffer.CheckNumbers` | librustyirc/irc.dcc.c:110-122 | Address, port and size are in range |
| `DccOffer.DecodePayload` | librustyirc/irc.dcc.c:49-131 | Decodes a payload or refuses it |
| `DccOffer.EncodeOffer` | librustyirc/irc.dcc.c:132-156 | Writes an offer and sends it only if it can be read back |
| `ChannelUsers.FoldMeans` | librustyirc/irc.channel.c:12-32 | Two nicks have one entry exactly if they are equal up to the case of ASCII letters |
| `ChannelUsers.MarksRead` | librustyirc/irc.channel.c:34-59 | The marks @, + and % in front of a nick set exactly the operator, voice and half-operator flags, and the nick is what follows them |
| `ChannelUsers.NickEnds` | librustyirc/irc.channel.c:51-56 | A nick ends at any blank, and after 40 bytes in any case |
| `ChannelUsers.ListIsRead` | librustyirc/irc.channel.c:128-158 | After a name list everybody on it is in the table with the marks of the last mention and the spelling of the first, and nobody else has changed |
| `ChannelUsers.SourceIsNick` | librustyirc/irc.channel.c:173-194 | The nick of a message is what stands in front of the exclamation mark |
| `ChannelUsers.RenameCarriesFlags` | librustyirc/irc.channel.c:219-254 | A rename carries the flags over, leaves everybody else alone, and loses a user exactly if the new nick is empty after stripping or belongs to somebody else |
| `ChannelUsers.EntriesKeyed` | librustyirc/irc.channel.c:12-32 | In a filed table every entry has a node, and its spelling folds to its key |
| `ChannelUsers.PushFiled` | librustyirc/irc.channel.c:60-73 | A new node at the head of its bucket keeps every node in the bucket of its folded hash, no two fold-equal, and as many nodes as entries |
| `ChannelUsers.UnlinkFiled` | librustyirc/irc.channel.c:82-96 | Taking the node of a nick out keeps that too |
| `ChannelUsers.FlagFiled` | librustyirc/irc.channel.c:74-77 | So do new flags |
| `ChannelUsers.Hash` | librustyirc/irc.channel.c:12-20 | The hash loop on 32-bit words depends on the folded nick only |
| `ChannelUsers.FindIn` | librustyirc/irc.channel.c:25-31 | Walking a chain finds the node of a nick |
| `ChannelUsers.Unlink` | librustyirc/irc.channel.c:82-96 | Redirecting one pointer leaves exactly the chain without that node |
| `ChannelUsers.PushInto` | librustyirc/irc.channel.c:63-73 | A new node becomes the head of its chain, and the other chains stay as they are |
| `ChannelUsers.SetFlags` | librustyirc/irc.channel.c:74-77 | Overwriting the flags of one node changes one entry |
| `ChannelUsers.Channel.Find` | librustyirc/irc.channel.c:22-32 | Finds a node exactly if the map has the folded nick, with its spelling and flags |
| `ChannelUsers.Channel.Add` | librustyirc/irc.channel.c:34-80 | Adds the stripped nick, or overwrites the flags of a known one and keeps its spelling; an empty one adds nothing |
| `ChannelUsers.Channel.Remove` | librustyirc/irc.channel.c:82-96 | Removes one entry of the map and counts it off exactly if it was there |
| `ChannelUsers.Channel.Clear` | librustyirc/irc.channel.c:98-111 | Leaves the empty map |
| `ChannelUsers.Channel.Names` | librustyirc/irc.channel.c:128-158 | A name list adds its nicks in order, to an empty table if it begins a new list |
| `ChannelUsers.Channel.Join` | librustyirc/irc.channel.c:173-194 | Adds the nick in front of user and host |
| `ChannelUsers.Channel.Leave` | librustyirc/irc.channel.c:196-217 | Removes the nick in front of user and host |
| `ChannelUsers.Channel.Rename` | librustyirc/irc.channel.c:219-254 | Removes the old node, adds the new nick and restores the flags |
| `ChannelUsers.ParseNick` | librustyirc/irc.channel.c:34-59 | Collects the prefix flags and cuts the nick at a space or 40 bytes |

## Left out

- Transport, threads and GStreamer, GLib, Mongoose, DNS and TLS: reads are arbitrary bytes, sends and connections succeed or fail, locks make the critical sections atomic.
- Allocation failure, logging, statistics printing, and the settings layers beyond the clamped values they give.
- Video pipelines and camera capture in the slot table and the reader.
- ProcessSlots.Manager.StartEndpoint: the pipeline text, the callbacks and the tests on them are not modelled.
- ProcessSlots.Manager.StartCodec: codec ids are compared whole, while the source compares four bytes; an exited process is destroyed in one step, so that no slot whose process has died is started again.
- ManagerReader.Reader.ParseRead: the branch for video slots is not modelled.
- ManagerReader.Reader.HandleFrame: whether a codec has a subscribed channel of its own codec can change between reads, while the source looks it up at every frame; whether a codec has a listener for its sound is fixed when the reader is made.
- ChildReader.FrameReader.Drain: a push that the pipeline refuses, which ends the child, is not modelled.
- `fwdsp_spawn` before the guard and after it (pipes, fork, arguments): only its three outcomes are modelled.
- The media channel tables behind a sweep: the number of users of each slot's channel is an input.
- The child's stderr, its GStreamer elements, and the recorder's encoder and files.
- AudioMixer.Mixer.Tick: sums are unbounded; `AudioEngine.AccumulatorFits` shows that 65536 streams fit the 32-bit accumulator, a larger number is not modelled.
- AudioMixer.Mixer.LockedTick: the same.
- AudioGraph.Graph.AddChannelLink: arguments outside the enumerations are not modelled.
- ChatPacing.Pacer.Flush: pops messages without telling delivered ones from those discarded because the server is gone, and counts the bucket in reals instead of doubles.
- ChatSplitter.SendChat: the events that echo a sent chunk to the user interface are not modelled.
- CapNegotiation.Connection.Capabilities: capability lists come as words already taken apart, and the RUSTYRIG display extensions, ISUPPORT and CAPAB properties are not modelled.
- DccOffer.DecodePayload: the C library's inet_pton is modelled as glibc has it, refusing leading zeros.
- KiwiBridge.Receiver.OnEvent: whether a response carries a usable redirect address is an input, the address and the password rules for it are not modelled; a connection that is being closed is taken to open no websocket any more, as Mongoose has it.
- KiwiBridge.Receiver.SetUp: of the setup commands only the text of the tune command is modelled, of the others whether they go out.
- KiwiBridge.Receiver.ReceiveFrame: the audio samples themselves, the waterfall and receiver controls are not modelled; a new-frequency flag is taken as the receiver sends it, without telling which tune it confirms.
- ChannelUsers.Channel.Clear: nodes become garbage instead of being freed.
- ChannelUsers.Channel.Names: the leading colon that the caller strips is not modelled.
- The IPC message layout, command types other than SET, controls, waterfall and shutdown, and the host's heartbeat.
- GTK and terminal front ends, CAT emulation, the matrix bridge, the database and configuration code: plumbing, or properties that one branch settles.
- `rrclient/audio.c`'s second ring: it repeats the engine's with easier invariants.
