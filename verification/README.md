# Verified model of a MediaPipe-based game

The repository is a small Space Invaders game that carries a copy of the MediaPipe framework. This
project models, in Dafny, the parts whose correctness is hard to see, and proves what they are for.

- **Timestamped streams.** `Timestamps`, `Packets`, `PacketTypes`; `InputStreams` (one stream as a
  value, with the history of accepted packets) and `InputStreamManagers` (the object);
  `SyncSets` (when a timestamp is settled); `InputProtocol` (all interleavings of producers with one
  consumer), `InputDraining` (a consumer left alone hands over all that was accepted), `InputBounds`
  (the bound a waiting node reports is true of everything it does later) and `InputEvents` (what the
  inputs tell the outputs of a node, and that the outputs may rely on it).
- **Sending.** `OutputStreams` (what a calculator writes and which bound is promised), `FanOut` (one
  output, many mirrors, any interleaving) and `OutputStreamObjects` (the objects).
- **Scheduling.** `NodeScheduling` and `CalculatorNodes` (the scheduling loop of a node entered by
  many threads), `NodeProgress` (a node whose inputs have ended comes to its end, in any order of
  steps), `NodeEvents` (the order in which the outputs of a sequential node hear of calls and bounds),
  `SourceScheduling` and `SourceProgress` (sources and back-pressure), `SchedulerQueues` and
  `SchedulerQueueObjects` (tasks, priorities, idleness).
- **Back-pressure.** `Throttling` and `ThrottleTables`.
- **Graph analysis.** `GraphConfig` and `ValidatedGraphs` (stream tables and source dependence);
  `GeneratorGraph`, `GeneratorTasks`, `GeneratorTypes` and `GeneratorSchedulers` (concurrent
  generators, and what the types of side packets have to do with success).
- **The game.** `MonsterFormation`, `Collisions`, `CollisionObjects`.

A concurrent component is a state machine whose steps are the regions its lock protects; a theorem
about it is about `Run` of an arbitrary sequence of steps. Besides what no run breaks there is what
every run reaches: `EndedNodeFinishes`, `EndedStreamsDrain`, `FreeSourceCanRun`, `NoWorkIsStranded`.
The object form of a component is a class whose methods are proved against the same functions. Where
two components meet, the meeting is a theorem too: scheduling refines the input protocol, the bound
reported by a waiting node is the input limit that the offset promise relies on, legal outputs are
what mirrors accept, and the ancestors computed by the graph analysis are the nodes that
back-pressure may hold.

Where the code does not meet a plausible claim, the model keeps the code and says exactly when it
does: notification and fullness after a failed batch (`FailedAddIsObservable`,
`FailedAddFillsQueue`), readiness next to the special timestamps (`TimestampModeIsComplete`), the
stamp of an empty packet (`EmptyStampReaches`), overlapping OneOf types (`ValidatedEdgesAreSound`),
a queue restarted or cleaned up before a push is reported (`DisciplineIsExact`) or restarted without
a submit (`RestartAloneStrands`), the done flag of a stream at its end (`DoneMeansNothingToCome`), a
OneOf port shared by two exact types (`OneOfCannotServeTwo`), a source with several invocations in
flight that is started after it has closed itself (`ClosedCheckIsExact`).

Assumptions, all visible in the statements: claims about notifications are about calls that return
OK; a stopped queue is restarted, and any queue cleaned up, only after the pushes before it have
been reported; restarts are followed by a submit, as they are in scheduler.cc:192-209 and 409-512;
the graph is free of errors; `PopPacketAtTimestamp` is called with timestamps allowed in a stream
and not before the last one; a calculator sends only what it may (`OutputStreams.Legal`); generators
are deterministic; which boxes overlap, how fast the formation moves and when shots are fired are
parameters. The player's state is not initialised by its constructor, so the game starts from either
value.

Documentation and code disagree in two places, and the model follows the code: `NextAllowedInStream`
is documented to check that its argument is allowed in a stream and does not (timestamp.h:184-187,
timestamp.cc:124-132); closing a node's inputs is said to clear the queues and does not
(calculator_node.cc:555-557, input_stream_manager.cc:221-229).

Verify everything with `dafny verify dfyconfig.toml`.

## Model

| member | source | states |
|---|---|---|
| `Timestamps.Add` | mediapipe/mediapipe/framework/timestamp.cc:45-61 | For every range timestamp and every 64-bit offset the result is the mathematical sum clamped to [Min, Max]; every intermediate value is of a bounded 64-bit type, so no step overflows |
| `Timestamps.Subtract` | mediapipe/mediapipe/framework/timestamp.cc:62-64 | Subtraction is the clamped difference; it negates the offset first, so the smallest 64-bit offset is excluded |
| `Timestamps.OnlyUnsetHasNoNegation` | mediapipe/mediapipe/framework/timestamp.cc:62-64 | That offset is the only 64-bit value without a 64-bit negation |
| `Timestamps.NextAllowedInStream` | mediapipe/mediapipe/framework/timestamp.cc:124-132 | The result lies above every timestamp up to PostStream and is never PostStream itself |
| `Timestamps.PreviousAllowedInStream` | mediapipe/mediapipe/framework/timestamp.cc:134-142 | The result is Unstarted or lies strictly below the argument, and never exceeds Max |
| `Timestamps.NextSeparatesFollowers` | mediapipe/mediapipe/framework/timestamp.h:114-139 | The bound left by a packet separates the timestamps that may follow it from those that may not, PostStream being the one exception |
| `Timestamps.NextAndPreviousAreInverse` | mediapipe/mediapipe/framework/timestamp.cc:124-142 | On the whole range, both ends included, Next and Previous undo one another |
| `Timestamps.AddIsMonotone` | mediapipe/mediapipe/framework/timestamp.cc:45-61 | Adding a fixed offset keeps the order of timestamps, clamping included |
| `PacketTypes.GetSameAs` | mediapipe/mediapipe/framework/packet_type.cc:83-111 | Following type pointers ends at a type that is not a pointer, and at the port itself if it is none |
| `PacketTypes.SetSameAs` | mediapipe/mediapipe/framework/packet_type.cc:62-72 | Linking a port keeps the pointers a forest, a would-be cycle included |
| `PacketTypes.EveryChainEnds` | mediapipe/mediapipe/framework/packet_type.cc:52-72 | After any sequence of Set and SetSameAs calls on fresh ports every chain of pointers ends |
| `PacketTypes.RootsAfterLink` | mediapipe/mediapipe/framework/packet_type.cc:62-111 | Linking one representative under another changes the representative of exactly its own class |
| `PacketTypes.ConsistencyIsSymmetric` | mediapipe/mediapipe/framework/packet_type.cc:241-265 | Type consistency does not depend on which side asks, although the code treats the two sides differently |
| `PacketTypes.ConsistentMeansCommonPacket` | mediapipe/mediapipe/framework/packet_type.cc:241-265 | For every pair of types: they are consistent if and only if some packet suits both, or one of them is Any, or both are None |
| `PacketTypes.UsableTypesAgree` | mediapipe/mediapipe/framework/packet_type.cc:241-265 | For exact, non-empty OneOf and Any types: consistent if and only if some packet suits both |
| `PacketTypes.AnyTypesAreResolved` | mediapipe/mediapipe/framework/validated_graph_config.cc:913-929 | After the pass over the edges, the two ends of every connected edge share a representative or neither representative is Any |
| `PacketTypes.OneOfTypesStayResolved` | mediapipe/mediapipe/framework/validated_graph_config.cc:931-952 | Narrowing OneOf types afterwards keeps every edge resolved |
| `PacketTypes.OneOfEndsAreNarrowed` | mediapipe/mediapipe/framework/validated_graph_config.cc:931-952 | A OneOf end that meets, when its edge comes up, an exact type it lists has that exact type ever after, as has the other end |
| `PacketTypes.ValidatedEdgesAreSound` | mediapipe/mediapipe/framework/validated_graph_config.cc:913-970 | A validated edge never rejects at its input what its output accepted, if and only if the output is not a OneOf type that offers more than the input takes |
| `PacketTypes.ExactOutputsAreSound` | mediapipe/mediapipe/framework/validated_graph_config.cc:913-970 | So every packet accepted by an exactly typed output is accepted by its inputs |
| `PacketTypes.OverlappingOneOfIsUnsound` | mediapipe/mediapipe/framework/validated_graph_config.cc:931-970 | Two overlapping OneOf types pass validation although a packet may be refused |
| `PacketTypes.TypableGraphsAreValidated` | mediapipe/mediapipe/framework/validated_graph_config.cc:913-970 | Whenever every class of ports can be given one type that its ports allow and that is equal at both ends of every edge, validation after the two passes succeeds |
| `PacketTypes.ExactGraphsAreValidated` | mediapipe/mediapipe/framework/validated_graph_config.cc:913-970 | A graph whose edges all join equal exact types is validated |
| `PacketTypes.OneOfCannotServeTwo` | mediapipe/mediapipe/framework/validated_graph_config.cc:931-970 | A OneOf port joined to two different exact types is refused although each edge by itself is consistent |
| `PacketTypes.PacketTypeTable.SetSpec` | mediapipe/mediapipe/framework/packet_type.cc:52-60 | The in-place update gives the table that overwriting gives |
| `PacketTypes.PacketTypeTable.SetSame` | mediapipe/mediapipe/framework/packet_type.cc:62-72 | The in-place update gives the table that linking gives |
| `PacketTypes.PacketTypeTable.ResolveAny` | mediapipe/mediapipe/framework/validated_graph_config.cc:913-929 | The loop over the edges gives the resolved table |
| `PacketTypes.PacketTypeTable.ResolveOneOf` | mediapipe/mediapipe/framework/validated_graph_config.cc:931-952 | The loop over the edges gives the narrowed table |
| `PacketTypes.PacketTypeTable.ValidateTypes` | mediapipe/mediapipe/framework/validated_graph_config.cc:954-970 | Validation succeeds exactly if every edge is connected (where that is required) and consistent; consistency is having a packet in common, see `ConsistentMeansCommonPacket` |
| `InputStreams.QueueFacts` | mediapipe/mediapipe/framework/input_stream_manager.cc:94-181 | Queued packets strictly increase, lie below the bound and above the last selected timestamp |
| `InputStreams.AddPacketsKeepsValid` | mediapipe/mediapipe/framework/input_stream_manager.cc:94-181 | Adding packets, successful or not, keeps the invariant and only extends queue, history and bound; on success the history grows by exactly the batch |
| `InputStreams.SetBoundKeepsValid` | mediapipe/mediapipe/framework/input_stream_manager.cc:183-217 | Setting a bound keeps the invariant and never lowers the bound |
| `InputStreams.CloseKeepsValid` | mediapipe/mediapipe/framework/input_stream_manager.cc:221-229 | Closing keeps the invariant; the stream then stands at its first waiting packet or at Done, and a selection at any allowed timestamp would fail its check |
| `InputStreams.BatchIsAcceptedIffOrderly` | mediapipe/mediapipe/framework/input_stream_manager.cc:110-164 | A batch is accepted if and only if its packets are of the right type, in order, not below the bound, and may follow everything accepted before |
| `InputStreams.BoundIsRefusedIffLower` | mediapipe/mediapipe/framework/input_stream_manager.cc:183-217 | A bound is refused, changing nothing, if and only if it lies below the one before |
| `InputStreams.SpecialPacketIsAlone` | mediapipe/mediapipe/framework/input_stream_manager.cc:120-151 | A PreStream or PostStream packet is the only packet its stream ever accepts |
| `InputStreams.PopIsExact` | mediapipe/mediapipe/framework/input_stream_manager.cc:244-299 | Popping at T leaves exactly the later packets, reports exactly the number of earlier ones, and never lowers the bound |
| `InputStreams.PopReturnsThePacket` | mediapipe/mediapipe/framework/input_stream_manager.cc:244-299 | Popping at T returns the packet at T if and only if it is queued |
| `InputStreams.DoneMeansFinished` | mediapipe/mediapipe/framework/input_stream_manager.cc:289-293 | The done flag of a pop is raised if and only if nothing later was queued and the bound was Done before the call |
| `InputStreams.DoneMeansNothingToCome` | mediapipe/mediapipe/framework/input_stream_manager.cc:289-293 | Once it is raised no continuation hands out another packet; exactly which streams are at their end, with or without the flag |
| `InputStreams.EndWithoutDone` | mediapipe/mediapipe/framework/input_stream_manager.cc:289-293 | A stream popped at PostStream is at its end and does not say so |
| `InputStreams.EmptyStampIsKept` | mediapipe/mediapipe/framework/input_stream_manager.cc:281-287 | Whatever producers add later, every packet the stream hands out afterwards is later than the stamp of an empty packet |
| `InputStreams.EmptyStampReaches` | mediapipe/mediapipe/framework/input_stream_manager.cc:281-287 | For every stream and timestamp with no such packet queued: the stamp reaches the timestamp asked for if and only if that is not PostStream and the next timestamp, read off the stream before the call, is neither Min nor PostStream |
| `InputStreams.EmptyStampFallsBack` | mediapipe/mediapipe/framework/input_stream_manager.cc:281-287 | One stream for each of the three exceptions, with the earlier stamp it gives |
| `InputStreams.PopKeepsValid` | mediapipe/mediapipe/framework/input_stream_manager.cc:244-299 | Popping keeps the invariant |
| `InputStreams.NotifiesIffObservable` | mediapipe/mediapipe/framework/input_stream_manager.cc:94-217 | A call that returns OK notifies exactly when emptiness or the smallest timestamp has changed |
| `InputStreams.FailedAddIsObservable` | mediapipe/mediapipe/framework/input_stream_manager.cc:110-164 | A failed call never notifies; it has nevertheless changed what a consumer sees if and only if the queue was empty and the first packet of the batch was good |
| `InputStreams.FailedAddFillsQueue` | mediapipe/mediapipe/framework/input_stream_manager.cc:110-181 | A failed call never reports a full queue; it has nevertheless filled the queue if and only if the limit lies above the old length and within reach of the packets before the bad one |
| `InputStreams.FailedAddExample` | mediapipe/mediapipe/framework/input_stream_manager.cc:110-164 | A concrete batch, one good packet and one late one, that meets both conditions: the stream and its fullness change unannounced |
| `InputStreams.AddReportsFullness` | mediapipe/mediapipe/framework/input_stream_manager.cc:94-181 | A batch that is accepted reports a full queue exactly when fullness has changed, which for an open stream is when the limit lies within reach of the batch |
| `InputStreams.PopReportsFullness` | mediapipe/mediapipe/framework/input_stream_manager.cc:271-299 | A pop reports that the queue is no longer full exactly when fullness has changed |
| `InputStreams.LimitComparesUnsigned` | mediapipe/mediapipe/framework/input_stream_manager.cc:104-108 | Fullness is the unsigned comparison of length and limit, -1 meaning no limit and every other negative limit a huge one |
| `InputStreamManagers.InputStreamManager.constructor` | mediapipe/mediapipe/framework/input_stream_manager.cc:30-38 | A new stream is empty, prepared and unlimited |
| `InputStreamManagers.InputStreamManager.PrepareForRun` | mediapipe/mediapipe/framework/input_stream_manager.cc:49-58 | A run starts from the prepared state, keeping the queue limit |
| `InputStreamManagers.InputStreamManager.AddPackets` | mediapipe/mediapipe/framework/input_stream_manager.cc:94-181 | The loop over the batch, its four error exits and its two reports give what the specification gives |
| `InputStreamManagers.InputStreamManager.SetNextTimestampBound` | mediapipe/mediapipe/framework/input_stream_manager.cc:183-217 | The new state, the status and the notification are the specified ones |
| `InputStreamManagers.InputStreamManager.Close` | mediapipe/mediapipe/framework/input_stream_manager.cc:221-229 | The new state is the specified one; queued packets stay |
| `InputStreamManagers.InputStreamManager.MinTimestampOrBound` | mediapipe/mediapipe/framework/input_stream_manager.cc:231-242 | Emptiness and timestamp are what the specification observes |
| `InputStreamManagers.InputStreamManager.AdvanceTo` | mediapipe/mediapipe/framework/input_stream_manager.cc:268-280 | The loop takes exactly the packets up to the timestamp and keeps the last |
| `InputStreamManagers.InputStreamManager.SelectPacket` | mediapipe/mediapipe/framework/input_stream_manager.cc:281-287 | The packet at the timestamp with the count of the others, or an empty packet with the count of all |
| `InputStreamManagers.InputStreamManager.PopPacketAtTimestamp` | mediapipe/mediapipe/framework/input_stream_manager.cc:244-299 | Packet, drop count (counted from -1), done flag, fullness report and new state are the specified ones; what they mean is in `PopIsExact`, `PopReturnsThePacket`, `DoneMeansFinished` and `PopReportsFullness` |
| `InputStreamManagers.InputStreamManager.SetMaxQueueSize` | mediapipe/mediapipe/framework/input_stream_manager.cc:349-367 | The two reports are exactly the changes of fullness that the new limit causes |
| `InputStreamManagers.InputStreamManager.ErasePacketsEarlierThan` | mediapipe/mediapipe/framework/input_stream_manager.cc:382-402 | The loop drops exactly the leading packets that are earlier, and reports the change of fullness |
| `SyncSets.ReadyTimestampIsSettled` | mediapipe/mediapipe/framework/input_stream_handler.cc:343-388 | A timestamp declared ready lies below every empty stream's bound and no later than any head, and after the last one |
| `SyncSets.CloseMeansNothingLeft` | mediapipe/mediapipe/framework/input_stream_handler.cc:356-362 | Ready for close if and only if both minima are past PostStream; then Done is returned, which is later than any timestamp in a stream |
| `SyncSets.WaitingReportsSmallest` | mediapipe/mediapipe/framework/input_stream_handler.cc:343-388 | A node that is not ready reports the smallest timestamp to be seen on its streams, and the last processed timestamp stays |
| `SyncSets.ReadyTakesLatest` | mediapipe/mediapipe/framework/input_stream_handler.cc:363-385 | A ready node takes, in timestamp mode, the latest settled timestamp and otherwise the only settled one a packet waits at |
| `SyncSets.ScanSummarises` | mediapipe/mediapipe/framework/input_stream_handler.cc:343-356 | The two minima decide, for every timestamp, whether all streams have settled it |
| `SyncSets.PacketModeIsComplete` | mediapipe/mediapipe/framework/input_stream_handler.cc:363-369 | Outside timestamp mode a node is ready if and only if the timestamp of some waiting packet is settled on all streams |
| `SyncSets.TimestampModeIsComplete` | mediapipe/mediapipe/framework/input_stream_handler.cc:370-385 | In timestamp mode a node that is not closing is ready if and only if some timestamp after the last one is settled and the smallest bound is neither Min nor PostStream |
| `SyncSets.StuckBeforePostStream` | mediapipe/mediapipe/framework/input_stream_handler.cc:370-385 | A concrete pair of streams with a settled packet for which timestamp mode is not ready, because the other stream's bound is PostStream |
| `SyncSets.StuckBeforeMin` | mediapipe/mediapipe/framework/input_stream_handler.cc:370-385 | The same for a PreStream packet and a bound of Min |
| `InputProtocol.StuckStateIsReached` | mediapipe/mediapipe/framework/input_stream_handler.cc:343-388 | Two successful producer calls lead to the first of these situations |
| `SyncSets.SettledPop` | mediapipe/mediapipe/framework/input_stream_handler.cc:405-421 | At a settled timestamp a pop takes the head if it carries the timestamp and nothing otherwise, and drops nothing |
| `SyncSets.SyncSet.GetReadiness` | mediapipe/mediapipe/framework/input_stream_handler.cc:343-388 | The loop over the streams and the branches after it give the specified decision and last timestamp |
| `SyncSets.SyncSet.FillAll` | mediapipe/mediapipe/framework/input_stream_handler.cc:405-421 | The loop pops each stream once and places its packet; the check that nothing was dropped holds |
| `SyncSets.SyncSet.FillInputSet` | mediapipe/mediapipe/framework/input_stream_handler.cc:405-421 | Every stream is popped at the timestamp and its packet placed, none dropping a packet |
| `InputProtocol.EveryRunHolds` | mediapipe/mediapipe/framework/input_stream_handler.cc:343-421 | From the prepared state every interleaving of producer calls with the consumer's reads, decisions and pops satisfies the invariant |
| `InputProtocol.FillingNeverFails` | mediapipe/mediapipe/framework/input_stream_handler.cc:405-421 | In every run the runtime checks made while filling hold and no packet is ever dropped |
| `InputProtocol.StreamsAreConserved` | mediapipe/mediapipe/framework/input_stream_handler.cc:343-421 | What was handed over followed by what waits is exactly what the stream accepted: nothing lost, repeated or reordered |
| `InputProtocol.InputSetsAreExact` | mediapipe/mediapipe/framework/input_stream_handler.cc:343-421 | In any state that satisfies the invariant, an input set at T holds for every stream exactly the packet with timestamp T the stream has accepted |
| `InputProtocol.SettledSetsAreExact` | mediapipe/mediapipe/framework/input_stream_handler.cc:343-421 | Over runs: a completed input set at T never changes, and after any continuation it still holds exactly every packet with timestamp T the streams ever accepted |
| `InputProtocol.RunHolds` | mediapipe/mediapipe/framework/input_stream_handler.cc:343-421 | From any state that satisfies the invariant, every interleaving keeps it, and completed input sets and a seen close stay |
| `InputProtocol.ProcessedInOrder` | mediapipe/mediapipe/framework/input_stream_handler.cc:343-388 | In every run processed timestamps strictly increase in both modes and are all allowed in a stream; outside timestamp mode every input set has a packet |
| `InputProtocol.CloseIsFinal` | mediapipe/mediapipe/framework/input_stream_handler.cc:356-362 | Once ready for close was returned in a run, then after any continuation queues are empty, no packet can be accepted and every answer is ready for close |
| `InputDraining.UndisturbedCall` | mediapipe/mediapipe/framework/input_stream_handler.cc:343-421 | The interleaved steps of one call, with nobody in between, do what `SyncSet.GetReadiness` and then `SyncSet.FillInputSet` do: same decision, same pops, one input set of what they gave, or nothing changed |
| `InputDraining.CallComesToRest` | mediapipe/mediapipe/framework/input_stream_handler.cc:343-421 | Wherever the consumer stands in any state of a run, the steps of one whole call bring it to rest |
| `InputDraining.EndedVerdict` | mediapipe/mediapipe/framework/input_stream_handler.cc:343-388 | With every stream ended, the node takes the earliest packet that waits, and is ready for close if and only if none does |
| `InputDraining.EndedStreamsDrain` | mediapipe/mediapipe/framework/input_stream_handler.cc:343-421 | From any state of any run in which every stream has ended, finitely many calls empty the queues and see the close, and the input sets then hold of each stream exactly the packets it had accepted, in order |
| `InputEvents.SignalsAreInTime` | mediapipe/mediapipe/framework/input_stream_handler.cc:147-225 | Along every run of the input protocol the completed input sets and reported bounds, in order, satisfy what a sender expects of its next input |
| `InputEvents.TimelySignalsKeepPromises` | mediapipe/mediapipe/framework/output_stream_handler.cc:72-114 | A calculator that keeps its own promises and hears of its inputs in time gives an admissible run of every output, and no bound that is promised there is broken |
| `NodeEvents.CallsDoNotOverlapReports` | mediapipe/mediapipe/framework/calculator_node.cc:653-686 | In every run of a node with one invocation in flight at most, the loop reads and reports only while no invocation is outstanding |
| `NodeEvents.NodeRunIsInTime` | mediapipe/mediapipe/framework/calculator_node.cc:653-786 | However threads interleave, such a node's outputs hear of ended calls and reported bounds in the order of the input protocol, and in time |
| `NodeEvents.NodeKeepsItsPromise` | mediapipe/mediapipe/framework/output_stream_handler.cc:72-114 | A whole sequential node, over every interleaving of its scheduling: a calculator that keeps its own promises gives an admissible run of every output, and no bound that is promised there is broken |
| `InputBounds.ReportedBoundIsTrue` | mediapipe/mediapipe/framework/input_stream_handler.cc:147-196 | Whatever happens after the node has reported a smallest timestamp as not ready, no later input set has an earlier timestamp |
| `NodeScheduling.EveryNodeRunHolds` | mediapipe/mediapipe/framework/calculator_node.cc:653-786 | Every interleaving of notifications, loop iterations, invocations and producers keeps the node invariant |
| `NodeScheduling.NoLostWakeup` | mediapipe/mediapipe/framework/calculator_node.cc:653-777 | An opened node that is idle, has room and owes no notification is not ready to process, nor is a close left unscheduled |
| `NodeScheduling.SchedulingIsExclusive` | mediapipe/mediapipe/framework/calculator_node.cc:653-786 | At most one thread is in the loop, 0 <= in flight <= limit, and while an input set is being filled or a close is due there is room for its invocation, so none is ever refused |
| `NodeScheduling.ScheduledInputSetsAreExact` | mediapipe/mediapipe/framework/calculator_node.cc:653-686 | The exactness of input sets survives scheduling by many threads |
| `NodeScheduling.SchedulingRefinesProtocol` | mediapipe/mediapipe/framework/calculator_node.cc:653-686 | Every scheduling step is a step of the input protocol or leaves it alone |
| `NodeScheduling.SilentIsUnobservable` | mediapipe/mediapipe/framework/input_stream_manager.cc:94-217 | A producer call without a notification leaves what the node sees unchanged |
| `NodeScheduling.NotifiedIffSeen` | mediapipe/mediapipe/framework/input_stream_manager.cc:94-217 | A producer call that succeeds notifies the node if and only if it changes what the node sees |
| `NodeScheduling.CompleteSetBeginsOrWaits` | mediapipe/mediapipe/framework/input_stream_handler.cc:160-226 | A complete input set either begins one invocation or, held back for a batch, none |
| `NodeScheduling.SucceedsExactly` | mediapipe/mediapipe/framework/input_stream_manager.cc:94-181 | Which producer calls succeed, by their arguments: on an open stream an orderly batch, a bound that is not lower, and any limit; on a closed one all |
| `NodeProgress.EndedNodeFinishes` | mediapipe/mediapipe/framework/calculator_node.cc:653-786 | From any state of any run in which every input stream has ended: the node's own steps that change anything are bounded in number, whatever their order, and when none is left all accepted packets have been handed over in input sets and the close is scheduled. No deadlock, no livelock |
| `NodeProgress.StepSinks` | mediapipe/mediapipe/framework/calculator_node.cc:653-786 | Once the streams have ended every step of a thread, a notification or an ending invocation either changes nothing or uses up part of a finite stock of work |
| `NodeProgress.EndedNodeCanClose` | mediapipe/mediapipe/framework/calculator_node.cc:653-786 | As long as no close is scheduled, a node whose streams have ended has a way to be closed with everything handed over |
| `NodeProgress.ClosedByAnInvocation` | mediapipe/mediapipe/framework/calculator_node.cc:756-777 | In every run a closed node was closed by an invocation, which it counts for ever, after all it had accepted was handed over |
| `CalculatorNodes.CalculatorNode.constructor` | mediapipe/mediapipe/framework/calculator_node.cc:148-149 | A configured limit of 0 means one invocation in flight |
| `CalculatorNodes.CalculatorNode.CheckIfBecameReady` | mediapipe/mediapipe/framework/calculator_node.cc:723-743 | The lock-protected region changes the state as specified |
| `CalculatorNodes.CalculatorNode.EndScheduling` | mediapipe/mediapipe/framework/calculator_node.cc:756-777 | The lock-protected region changes the state as specified, for nodes with inputs and for active sources, and the count stays non-negative |
| `CalculatorNodes.CalculatorNode.EnterSchedulingLoop` | mediapipe/mediapipe/framework/calculator_node.cc:653-662 | A closed node leaves the loop at once and becomes idle |
| `CalculatorNodes.CalculatorNode.EndSchedulingIteration` | mediapipe/mediapipe/framework/calculator_node.cc:674-685 | The loop goes round again exactly if a wake-up came in and there is room |
| `CalculatorNodes.CalculatorNode.TryToBeginScheduling` | mediapipe/mediapipe/framework/calculator_node.cc:779-786 | An invocation begins exactly if there is room |
| `SchedulerQueues.RunsAfterIsStrictWeakOrder` | mediapipe/mediapipe/framework/scheduler_queue.cc:61-87 | The comparator is irreflexive, transitive and its incomparability is transitive |
| `SchedulerQueues.RunsAfterComparesKeys` | mediapipe/mediapipe/framework/scheduler_queue.cc:61-87 | The nested comparisons amount to a lexicographic comparison of keys: opening nodes by number, non-sources by falling number, sources by layer, process order and number; items are unordered exactly if their keys are equal |
| `SchedulerQueues.EveryRunIsAccounted` | mediapipe/mediapipe/framework/scheduler_queue.cc:133-232 | In every interleaving queued plus running items equal waiting plus pending tasks, and reports made or owed match idleness |
| `SchedulerQueues.RunningCountsStarts` | mediapipe/mediapipe/framework/scheduler_queue.cc:104-108 | In every run the run count is the number of starts less the number of stops |
| `SchedulerQueues.TasksFindItems` | mediapipe/mediapipe/framework/scheduler_queue.cc:188-205 | A task never finds the queue empty, and what it takes is outranked by nothing queued |
| `SchedulerQueues.CleanupCheckHolds` | mediapipe/mediapipe/framework/scheduler_queue.cc:297-313 | The size check made at clean-up holds whenever no task is pending |
| `SchedulerQueues.PushedItemsGetTasks` | mediapipe/mediapipe/framework/scheduler_queue.cc:133-186 | In every run, once a running queue has been pushed to or asked to submit, no task waits and every queued item is matched by a task that is on its way |
| `SchedulerQueues.NoWorkIsStranded` | mediapipe/mediapipe/framework/scheduler_queue.cc:133-186 | In every run in which restarts are followed by a submit, each item of a running queue has a task on the way to it; with no task left anywhere the queue is empty |
| `SchedulerQueues.QueueCanBeEmptied` | mediapipe/mediapipe/framework/scheduler_queue.cc:133-232 | From every such state with its pushes reported some continuation runs every item and leaves the queue idle |
| `SchedulerQueues.RestartAloneStrands` | mediapipe/mediapipe/framework/scheduler.cc:409-426 | Without the submit an item pushed before the restart is stranded |
| `SchedulerQueues.IdleCountIsSound` | mediapipe/mediapipe/framework/scheduler_queue.cc:133-232 | If a push made while the queue is stopped is reported before the restart, and every push before a clean-up, then idle reports never outnumber active ones, and the counts agree only if the queue is idle or a pushing thread still owes its report |
| `SchedulerQueues.EarlyRestartCanGoNegative` | mediapipe/mediapipe/framework/scheduler_queue.cc:133-232 | If a queue is restarted before such a report, some continuation delivers more idle reports than active ones, so the first condition is necessary |
| `SchedulerQueues.EarlyCleanupCanGoNegative` | mediapipe/mediapipe/framework/scheduler_queue.cc:297-313 | If a queue is cleaned up while a push is unreported, some continuation delivers more idle reports than active ones, so the second condition is necessary |
| `SchedulerQueues.DisciplineIsExact` | mediapipe/mediapipe/framework/scheduler_queue.cc:133-313 | After any run that met the two conditions, a step keeps the counts sound in every such continuation if and only if it meets them too |
| `SchedulerQueues.EarlyStepExists` | mediapipe/mediapipe/framework/scheduler_queue.cc:133-162 | A fresh queue reaches a state in which both conditions can be broken |
| `SchedulerQueues.SchedulerIdleIsSound` | mediapipe/mediapipe/framework/scheduler.cc:456-471 | If every queue meets the two conditions (report before restart, report before clean-up), the scheduler's count of queues is never negative, and zero only if every queue is idle or about to report |
| `SchedulerQueueObjects.SchedulerQueue.SetRunning` | mediapipe/mediapipe/framework/scheduler_queue.cc:104-108 | The run count moves by one |
| `SchedulerQueueObjects.SchedulerQueue.GetTasksToSubmitToExecutor` | mediapipe/mediapipe/framework/scheduler_queue.cc:164-169 | All waiting tasks move to pending |
| `SchedulerQueueObjects.SchedulerQueue.AddItemToQueue` | mediapipe/mediapipe/framework/scheduler_queue.cc:133-162 | One more item; whether the queue was idle; the tasks to hand over, which for a running queue are all that wait (`PushedItemsGetTasks`) |
| `SchedulerQueueObjects.SchedulerQueue.SubmitWaitingTasksToExecutor` | mediapipe/mediapipe/framework/scheduler_queue.cc:171-186 | Waiting tasks are taken only while the queue runs |
| `SchedulerQueueObjects.SchedulerQueue.TopIndex` | mediapipe/mediapipe/framework/scheduler_queue.cc:61-87 | The scan finds an item that no queued item outranks |
| `SchedulerQueueObjects.SchedulerQueue.StartTask` | mediapipe/mediapipe/framework/scheduler_queue.cc:188-205 | A top item is removed and returned |
| `SchedulerQueueObjects.SchedulerQueue.EndTask` | mediapipe/mediapipe/framework/scheduler_queue.cc:221-232 | A task ends and idleness is what the two conditions say |
| `SchedulerQueueObjects.SchedulerQueue.CleanupAfterRun` | mediapipe/mediapipe/framework/scheduler_queue.cc:297-313 | The queue is emptied, and the caller learns whether an idle report is due |
| `SourceScheduling.RunKeepsInv` | mediapipe/mediapipe/framework/scheduler.cc:334-358 | Every interleaving of activation, throttle checks, callbacks, invocations and loop rounds of a source keeps its invariant |
| `SourceScheduling.NoLostSourceWakeup` | mediapipe/mediapipe/framework/scheduler.cc:334-358 | In every run an active source that is not throttled and not in flight has a scheduling call still to come |
| `SourceScheduling.FreeSourcesRun` | mediapipe/mediapipe/framework/scheduler.cc:334-358 | When no call is owed and no callback outstanding, an active source whose streams downstream have room is queued or running |
| `SourceScheduling.SourceSchedulingIsExclusive` | mediapipe/mediapipe/framework/calculator_node.cc:756-786 | At most one thread is in the loop of a source, and its invocations never exceed the limit |
| `SourceProgress.FreeSourceCanRun` | mediapipe/mediapipe/framework/calculator_node.cc:653-786 | From any state of any run a source that is opened or active and not throttled is at most four steps of its own threads away from an invocation |
| `SourceProgress.ThrottledSourceRunsDry` | mediapipe/mediapipe/framework/scheduler.cc:334-358 | From any state of any run, as long as a source stays throttled no invocation runs but those begun or decided upon before |
| `SourceScheduling.ClosedSourceIsNotStarted` | mediapipe/mediapipe/framework/scheduler_queue.cc:188-205 | With one invocation in flight at most, no task ever meets a closed source |
| `SourceScheduling.HigherLimitStartsClosed` | mediapipe/mediapipe/framework/scheduler_queue.cc:188-205 | With a higher limit, for any source that feeds a stream, a run in which a task does |
| `SourceScheduling.ClosedCheckIsExact` | mediapipe/mediapipe/framework/scheduler_queue.cc:188-205 | So the runtime's check that no closed node is started holds in all runs if and only if the limit is one |
| `Throttling.UpdateNodesIsExact` | mediapipe/mediapipe/framework/calculator_graph.cc:1114-1187 | Serving one callback toggles the stream at exactly the upstream nodes and keeps the count of throttled inputs exact, in any order of visits |
| `Throttling.EveryRunHolds` | mediapipe/mediapipe/framework/calculator_graph.cc:1114-1187 | Any order of fullness changes and callbacks keeps the invariant |
| `Throttling.ThrottleIsExact` | mediapipe/mediapipe/framework/calculator_graph.cc:1114-1187 | A stream throttles a node if and only if it was last reported full and the node feeds it; the count equals the number of throttled inputs; with nothing outstanding the report is the truth |
| `Throttling.CallbacksAreCounted` | mediapipe/mediapipe/framework/input_stream_manager.cc:94-345 | In every run the callbacks owed and those served add up to the changes of fullness |
| `Throttling.OnlySourcesAreThrottled` | mediapipe/mediapipe/framework/calculator_graph.cc:1114-1187 | A node that is upstream of no stream is never throttled |
| `Throttling.SettledMeansFree` | mediapipe/mediapipe/framework/calculator_graph.cc:1189-1205 | A node whose streams have settled as not full is free |
| `ThrottleTables.ThrottleTable.IsNodeThrottled` | mediapipe/mediapipe/framework/calculator_graph.cc:1189-1205 | A node is throttled exactly if a limit is set and its set is not empty |
| `ThrottleTables.ThrottleTable.VisitNode` | mediapipe/mediapipe/framework/calculator_graph.cc:1149-1178 | One visit updates set and count as specified and tells whether the node became free and is an active calculator |
| `ThrottleTables.ThrottleTable.VisitUpstream` | mediapipe/mediapipe/framework/calculator_graph.cc:1140-1182 | Visiting the upstream set serves the callback in some order and collects exactly the active calculators that became free |
| `ThrottleTables.ThrottleTable.UpdateThrottledNodes` | mediapipe/mediapipe/framework/calculator_graph.cc:1114-1187 | The callback reads fullness, does nothing if unchanged, and otherwise serves it; it returns exactly the active calculators that were throttled before and are free now |
| `ThrottleTables.ThrottleTable.SetMaxQueueSize` | mediapipe/mediapipe/framework/input_stream_manager.cc:349-367 | A new limit is recorded, the tables follow if fullness has changed, and exactly the active calculators freed by it are returned |
| `ThrottleTables.ThrottleTable.UnthrottleSources` | mediapipe/mediapipe/framework/calculator_graph.cc:1207-1245 | Every throttling stream that is not a graph output gets room for exactly one more packet, or with deadlock reporting nothing changes; no other stream is touched; callbacks may be outstanding, and what still throttles afterwards is a graph output or had ceased to be full before; the answer tells whether there was such a stream and which active calculators have become free; with all reports served and no graph output full, every node is free afterwards |
| `OutputStreams.ProcessKeepsPromise` | mediapipe/mediapipe/framework/output_stream_manager.cc:100-161 | After any call of a well-behaved calculator the promised bound is still at or below every legal later output |
| `OutputStreams.BoundUpdateKeepsPromise` | mediapipe/mediapipe/framework/output_stream_handler.cc:123-137 | Passing on a lower limit of the inputs keeps the promise |
| `OutputStreams.PromiseHoldsInEveryRun` | mediapipe/mediapipe/framework/output_stream_manager.cc:100-161 | Any run of calls and limit updates keeps the promise |
| `OutputStreams.OffsetPromiseIsSound` | mediapipe/mediapipe/framework/output_stream_manager.cc:100-161 | From the beginning, no run propagates a bound above a legal later output: one at or above t + offset, after all earlier outputs and promises |
| `OutputStreams.OffsetPromiseIsMade` | mediapipe/mediapipe/framework/output_stream_manager.cc:100-161 | After Process(t) the bound has reached the successor of t shifted by the offset |
| `OutputStreams.ExplicitPromiseIsMade` | mediapipe/mediapipe/framework/output_stream_manager.cc:100-161 | With or without an offset, after a call that leaves the output open the bound has reached every bound the calculator promised in it by setting it, by an empty packet or by a packet, and it is the largest of these, the bound before and the one that follows from the input |
| `OutputStreams.ClosingPromisesDone` | mediapipe/mediapipe/framework/output_stream_handler.cc:150-167 | A call that closes the output, and the last call, leave the bound at Done, and no call follows the last |
| `OutputStreams.OffsetPromiseAtTheEnds` | mediapipe/mediapipe/framework/output_stream_manager.cc:119-142 | What the offset promises after PreStream, Max and PostStream |
| `OutputStreams.InputBoundIsExact` | mediapipe/mediapipe/framework/output_stream_manager.cc:112-142 | For every offset and input: the bound is the input's successor plus the offset as an integer, clamped to the range; special values at PreStream, Max and PostStream; none without an offset |
| `OutputStreams.QuietCallPropagates` | mediapipe/mediapipe/framework/output_stream_manager.cc:100-161 | A call that writes nothing propagates the bound its input implies if and only if that is higher than the present one |
| `OutputStreams.OperationIsTaken` | mediapipe/mediapipe/framework/output_stream_shard.cc:46-132 | An operation in error changes nothing; any other leaves exactly its promise behind, and its packet at the end of the queue |
| `OutputStreams.FirstPacketIsSent` | mediapipe/mediapipe/framework/output_stream_manager.cc:30-43 | A new sender is open: a packet written in Open is sent and promised past |
| `OutputStreams.LimitIsPassedOn` | mediapipe/mediapipe/framework/output_stream_handler.cc:123-137 | A lower limit on the inputs raises the bound to the limit shifted by the offset, if that is higher, and no further |
| `OutputStreamObjects.OutputStreamShard.SetNextTimestampBound` | mediapipe/mediapipe/framework/output_stream_shard.cc:34-44 | A legal bound replaces both bounds; an illegal one is reported and changes nothing |
| `OutputStreamObjects.OutputStreamShard.AddPacket` | mediapipe/mediapipe/framework/output_stream_shard.cc:96-132 | The shard changes as specified; an error is reported exactly for a closed shard, an illegal timestamp or a wrong type, and then nothing changes |
| `OutputStreamObjects.OutputStreamShard.Close` | mediapipe/mediapipe/framework/output_stream_shard.cc:46-50 | Both bounds become Done |
| `OutputStreamObjects.OutputStreamShard.Reset` | mediapipe/mediapipe/framework/output_stream_shard.cc:155-160 | The shard starts a call from the manager's bound |
| `OutputStreamObjects.OutputStreamManager.ComputeOutputTimestampBound` | mediapipe/mediapipe/framework/output_stream_manager.cc:100-161 | The branches compute the specified bound; that it is neither too high nor too low is `OffsetPromiseIsSound` and `ExplicitPromiseIsMade` |
| `OutputStreamObjects.OutputStreamManager.PropagateUpdatesToMirrors` | mediapipe/mediapipe/framework/output_stream_manager.cc:164-207 | Every mirror, the last one included, receives the same messages and no other; the shard is left empty |
| `OutputStreamObjects.OutputStreamManager.ServeMirrors` | mediapipe/mediapipe/framework/output_stream_manager.cc:185-204 | The loop over the mirrors, whose last one empties the shard, delivers the same messages to all |
| `OutputStreamObjects.OutputStreamManager.BoundMirrors` | mediapipe/mediapipe/framework/output_stream_manager.cc:55-58 | The loop sends one bound to every mirror and nothing else |
| `OutputStreamObjects.OutputStreamManager.Close` | mediapipe/mediapipe/framework/output_stream_manager.cc:45-59 | Every mirror receives Done once; closing again does nothing |
| `OutputStreamObjects.OutputStreamManager.ResetShard` | mediapipe/mediapipe/framework/output_stream_manager.cc:209-218 | The shard takes over the manager's bound and closed flag |
| `OutputStreamObjects.PropagateOutputPackets` | mediapipe/mediapipe/framework/output_stream_handler.cc:150-167 | One output of a sequential node is propagated and, if it was closed, closed |
| `OutputStreamObjects.TryPropagateTimestampBound` | mediapipe/mediapipe/framework/output_stream_handler.cc:123-137 | A limit on the inputs is passed on exactly if it is a range value, an offset is set and it raises the bound |
| `FanOut.BatchPasses` | mediapipe/mediapipe/framework/input_stream_manager.cc:94-181 | A batch in order, above the bound and of the right type is accepted whole |
| `FanOut.SkippedBoundIsInvisible` | mediapipe/mediapipe/framework/output_stream_manager.cc:180-201 | Sending the bound that a batch implies would change nothing and notify nobody |
| `FanOut.EventLeads` | mediapipe/mediapipe/framework/output_stream_manager.cc:164-207 | The messages of one event take an open mirror from the sender's old contents and bound to its new ones, none rejected |
| `FanOut.RunKeepsInv` | mediapipe/mediapipe/framework/output_stream_manager.cc:164-207 | Any interleaving of sending, delivery, settled pops and closing keeps mirrors on course |
| `FanOut.MirrorsAgree` | mediapipe/mediapipe/framework/output_stream_manager.cc:164-207 | In every run an open mirror with nothing left to receive has accepted exactly the output's packets and holds its bound |
| `FanOut.NoMirrorRejects` | mediapipe/mediapipe/framework/output_stream_manager.cc:164-207 | In every run no mirror rejects a message |
| `FanOut.ClosedSendsNothing` | mediapipe/mediapipe/framework/output_stream_handler.cc:150-167 | A closed output sends nothing more, whatever the calculator writes, but one last Done when the node closes |
| `GeneratorGraph.StepKeepsInv` | mediapipe/mediapipe/framework/packet_generator_graph.cc:207-302 | Every lock-protected region of every thread keeps the scheduler invariant |
| `GeneratorGraph.SuccessIsLeastClosure` | mediapipe/mediapipe/framework/packet_generator_graph.cc:207-330 | A pass that ends without error has computed the least closed set of side packets, each made once; scheduled generators are exactly those with all inputs |
| `GeneratorGraph.CleanMeansSuccess` | mediapipe/mediapipe/framework/packet_generator_graph.cc:207-302 | If some closed set without type errors or double definitions exists, no order of steps fails |
| `GeneratorGraph.Confluence` | mediapipe/mediapipe/framework/packet_generator_graph.cc:207-302 | If one order of steps succeeds then all do, with the same packets and the same scheduled generators |
| `GeneratorGraph.TwoPassesAreOne` | mediapipe/mediapipe/framework/packet_generator_graph.cc:359-419 | Initialize followed by RunGraphSetup gives the packets and the scheduled generators of one pass over the union |
| `GeneratorGraph.OnePassMeansTwo` | mediapipe/mediapipe/framework/packet_generator_graph.cc:359-419 | Whenever the single pass succeeds, so do the two |
| `GeneratorTasks.PassIsBooked` | mediapipe/mediapipe/framework/packet_generator_graph.cc:253-314 | In every run no generator has run twice, the count of pending tasks is zero (with the caller's scan over) exactly if nobody is at work, and the number of steps is bounded |
| `GeneratorTasks.IdleMeansFinished` | mediapipe/mediapipe/framework/packet_generator_graph.cc:292-314 | The counter that the waiting thread looks at is exact |
| `GeneratorTypes.CleanMeansConsistent` | mediapipe/mediapipe/framework/packet_generator_graph.cc:55-115 | The sets a pass looks for, in terms of the generators alone: inputs of the right types, whatever can be made is made as the generator gives it and of the declared types, and no name is made twice |
| `GeneratorTypes.TypedRunSucceeds` | mediapipe/mediapipe/framework/packet_generator_graph.cc:207-302 | If generators keep to their types, the types fit together, the packets from outside are of the right types and no name is made twice, no order of steps fails |
| `GeneratorTypes.RunCanEnd` | mediapipe/mediapipe/framework/packet_generator_graph.cc:207-314 | From every reachable state the pass can be brought to an end |
| `GeneratorTypes.WellTypedHasCleanSet` | mediapipe/mediapipe/framework/packet_generator_graph.cc:207-330 | So for such generators a clean set exists |
| `GeneratorSchedulers.LeastClosureIsWellMade` | mediapipe/mediapipe/framework/packet_generator_graph.cc:83-115 | What a pass returns is consistent in this sense, and every packet in it came from outside or from a generator whose inputs are there |
| `GeneratorSchedulers.GeneratorScheduler.constructor` | mediapipe/mediapipe/framework/packet_generator_graph.cc:184-205 | A pass starts with the skipped generators marked as scheduled |
| `GeneratorSchedulers.GeneratorScheduler.ScheduleAllRunnableGenerators` | mediapipe/mediapipe/framework/packet_generator_graph.cc:253-302 | The loop over the generators is a scan of the concurrent scheduler |
| `GeneratorSchedulers.GeneratorScheduler.ScheduleIfRunnable` | mediapipe/mediapipe/framework/packet_generator_graph.cc:258-301 | One iteration passes over, records an error or schedules a task |
| `GeneratorSchedulers.GeneratorScheduler.GenerateAndScheduleNext` | mediapipe/mediapipe/framework/packet_generator_graph.cc:207-251 | A task runs, adds its outputs and scans again, or ends early after an error |
| `GeneratorSchedulers.GeneratorScheduler.AddOutputs` | mediapipe/mediapipe/framework/packet_generator_graph.cc:226-245 | Packets that exist already stay, and a collision is an error |
| `GeneratorSchedulers.GeneratorScheduler.RunApplicationThreadTasks` | mediapipe/mediapipe/framework/packet_generator_graph.cc:337-353 | The loop ends, with every worker finished |
| `GeneratorSchedulers.ExecuteGenerators` | mediapipe/mediapipe/framework/packet_generator_graph.cc:399-419 | One pass succeeds if and only if a consistent set exists, in particular if the generators are well typed; then it returns the least closed one, whose packets are what the generators gave, of the declared types, and exactly the generators that lack an input, in order |
| `GeneratorSchedulers.PacketGeneratorGraph.Initialize` | mediapipe/mediapipe/framework/packet_generator_graph.cc:359-369 | The call succeeds if and only if no input is also produced inside the graph and a consistent set exists, in particular if the generators are well typed; then the base packets are the least closure of the inputs and what the generators gave |
| `GeneratorSchedulers.PacketGeneratorGraph.RunGraphSetup` | mediapipe/mediapipe/framework/packet_generator_graph.cc:371-397 | The call succeeds if and only if the extra packets are new and not produced inside the graph, every claim on a packet is met, and a consistent set exists; then the result is the least closure of all packets together and what the generators gave |
| `GraphConfig.FoundIffProducedBefore` | mediapipe/mediapipe/framework/validated_graph_config.cc:643-659 | A name is in the table at the time node v is added if and only if a graph input or a lower-numbered calculator produces it |
| `GraphConfig.ProducerIsUnique` | mediapipe/mediapipe/framework/validated_graph_config.cc:643-659 | If no name is listed twice then every stream has one producer |
| `GraphConfig.UniqueMeansOneOutput` | mediapipe/mediapipe/framework/validated_graph_config.cc:643-659 | The names in the table are distinct if and only if no stream leaves two outputs |
| `GraphConfig.ReachesIffBySomeInput` | mediapipe/mediapipe/framework/validated_graph_config.cc:1090-1132 | What reaches a node along rising numbers is what reaches it through one of its inputs |
| `GraphConfig.OnlySourcesReach` | mediapipe/mediapipe/framework/validated_graph_config.cc:1090-1132 | Only calculators without inputs and graph inputs are ancestors |
| `ValidatedGraphs.ValidatedGraphConfig.AddOutputStream` | mediapipe/mediapipe/framework/validated_graph_config.cc:643-659 | The call succeeds exactly if the name is new, and keeps the index exact |
| `ValidatedGraphs.ValidatedGraphConfig.AddOutputStreamsForNode` | mediapipe/mediapipe/framework/validated_graph_config.cc:630-641 | The outputs of one calculator are added, failing exactly on a duplicate |
| `ValidatedGraphs.ValidatedGraphConfig.FindUpstream` | mediapipe/mediapipe/framework/validated_graph_config.cc:684-719 | One input's entry, and whether its producer is missing |
| `ValidatedGraphs.ValidatedGraphConfig.AddInputStreamsForNode` | mediapipe/mediapipe/framework/validated_graph_config.cc:661-738 | Each input finds its producer among those added before; a missing one is deferred or, on the second pass, an error |
| `ValidatedGraphs.ValidatedGraphConfig.InitializeStreamInfo` | mediapipe/mediapipe/framework/validated_graph_config.cc:598-628 | The pass succeeds if and only if producers are unique and, unless deferring is allowed, every stream is produced before use; sorting is asked for exactly if that fails |
| `ValidatedGraphs.ValidatedGraphConfig.FillUpstreamFieldForBackEdges` | mediapipe/mediapipe/framework/validated_graph_config.cc:872-888 | Back edges are filled in, failing exactly if one has no producer |
| `ValidatedGraphs.ValidatedGraphConfig.ProducerOf` | mediapipe/mediapipe/framework/validated_graph_config.cc:1100-1117 | The tables give the producer of an input, a graph input or a lower number unless the input is a back edge |
| `ValidatedGraphs.ValidatedGraphConfig.AddSourcesOfNode` | mediapipe/mediapipe/framework/validated_graph_config.cc:1095-1129 | The loop over the inputs gives the node exactly the sources that reach it |
| `ValidatedGraphs.ValidatedGraphConfig.ComputeSourceDependence` | mediapipe/mediapipe/framework/validated_graph_config.cc:1090-1132 | One pass gives every node exactly the sources and graph inputs that reach it along edges from lower numbers, paths being defined independently |
| `ValidatedGraphs.ValidatedGraphConfig.InitializeStreams` | mediapipe/mediapipe/framework/validated_graph_config.cc:359-385 | Whatever order the sorter returns, the tables are accepted if and only if producers are unique, every stream is produced before use and back edges are connected |
| `ValidatedGraphs.ValidatedGraphConfig.CheckStreamTypes` | mediapipe/mediapipe/framework/validated_graph_config.cc:387-397 | Any and OneOf types are resolved along the edges of the tables, and the check succeeds if and only if the two ends of every stream agree afterwards, which they do whenever the streams can be typed (`TypableStreamsAgree`) |
| `ValidatedGraphs.ValidatedGraphConfig.Initialize` | mediapipe/mediapipe/framework/validated_graph_config.cc:359-399 | The analysis of the streams succeeds if and only if the tables are accepted and the types agree; then the port types are the resolved ones and every node has exactly its sources |
| `GraphConfig.ValidatedStreamsAreSound` | mediapipe/mediapipe/framework/validated_graph_config.cc:387-397 | After it has succeeded, whatever an output that is not OneOf lets out is accepted by every input it feeds |
| `GraphConfig.EdgesAreStreams` | mediapipe/mediapipe/framework/validated_graph_config.cc:661-738 | In a validated graph every edge joins the port of an input to the port of the output that the input takes its stream from |
| `GraphConfig.StreamsAreEdges` | mediapipe/mediapipe/framework/validated_graph_config.cc:661-738 | And every input that takes an output has its edge |
| `GraphConfig.StreamsCarryWhatIsSent` | mediapipe/mediapipe/framework/validated_graph_config.cc:387-397 | So what an output that is not OneOf lets out is accepted by every input that takes its stream, ports and all |
| `GraphConfig.TypableStreamsAgree` | mediapipe/mediapipe/framework/validated_graph_config.cc:387-397 | The types of a graph are never refused if every class of ports can be given a type that both ends of every stream allow |
| `ValidatedGraphs.NodesWithInputsAreNeverThrottled` | mediapipe/mediapipe/framework/calculator_graph.cc:1114-1187 | A full stream holds back its producer, if that is a graph input, or its producer's sources; so a calculator with inputs is never throttled in any run |
| `MonsterFormation.SweepStaysInWindow` | src/Entity/MonsterCluster.cpp:68-135 | In every reachable state the formation overshoots a wall by less than one move, and in state down exactly one wall is touched |
| `MonsterFormation.RunIsRigid` | src/Entity/MonsterCluster.cpp:68-135 | In every run of moves the formation is the first one, moved with its left edge and by the sum of its steps down |
| `MonsterFormation.MonstersStayInWindow` | src/Entity/MonsterCluster.cpp:28-135 | In every run all monsters stay between the edges and leave the window by less than one move |
| `MonsterFormation.EveryMoveIsSeen` | src/Entity/MonsterCluster.cpp:68-89 | Every move takes every monster sideways by the velocity or down by four times as much, and none up |
| `MonsterFormation.DescentIsFourfold` | src/Entity/MonsterCluster.cpp:68-89 | A run comes down by four times the velocities of its turns |
| `MonsterFormation.DirectionReverses` | src/Entity/MonsterCluster.cpp:100-134 | A step down is followed by a sweep opposite to the one before it |
| `MonsterFormation.SweepEnds` | src/Entity/MonsterCluster.cpp:100-122 | A sweep turns before its moves add up to the distance to the wall |
| `MonsterFormation.PlaceStaysInRow` | src/Entity/MonsterCluster.cpp:28-55 | A row is centred: its monsters lie between its two ends, and the last one ends exactly at the right end |
| `MonsterFormation.MonsterCluster.AddRow` | src/Entity/MonsterCluster.cpp:15-26 | A row is added and everything placed anew |
| `MonsterFormation.LongestIsThere` | src/Entity/MonsterCluster.cpp:28-41 | The length the placement is centred on is that of some row, and zero without rows |
| `MonsterFormation.MonsterCluster.SetPosition` | src/Entity/MonsterCluster.cpp:28-55 | Every monster gets its place, and the edges of the longest row enclose all monsters |
| `MonsterFormation.MonsterCluster.MoveEdges` | src/Entity/MonsterCluster.cpp:100-134 | Edges and direction change as specified |
| `MonsterFormation.MonsterCluster.Move` | src/Entity/MonsterCluster.cpp:68-135 | All monsters make the move the edges make, the formation stays rigid and enclosed, and the direction changes as specified |
| `Collisions.ScoreIsConserved` | src/GameProcessing/Collisions.cpp:11-45 | In every game the score is 100 times the kills, and kills, destroyed count, destroyed monsters and spent player bullets are equal |
| `Collisions.LivesAreSpaced` | src/GameProcessing/Collisions.cpp:46-69 | In every game lives stay in 0..3, each loss is recorded, and two losses are at least 51 calls apart |
| `Collisions.KillIffOverlap` | src/GameProcessing/Collisions.cpp:16-44 | A call kills if and only if a live bullet overlaps a live monster: the first such pair, which is all that changes besides the score |
| `Collisions.KillReadsOverlaps` | src/GameProcessing/Collisions.cpp:16-44 | Over the overlaps and the live entities alone: any overlap of a live bullet with a live monster means a kill, and the kill is the first overlapping pair by bullet, row and place |
| `Collisions.CallHasOneOutcome` | src/GameProcessing/Collisions.cpp:14-70 | Every call has exactly one outcome, whatever overlaps |
| `Collisions.HitIffOverlap` | src/GameProcessing/Collisions.cpp:46-60 | A player who may be hit is hit if and only if a bullet overlaps him; the first such bullet is spent, a life is lost if there is one, and the pause begins |
| `Collisions.PauseEnds` | src/GameProcessing/Collisions.cpp:61-69 | In every run the player stays as he is until 51 calls without a kill have been made, the hit included, and then he is alive again and has lost no further life |
| `Collisions.DeadStayDead` | src/GameProcessing/Collisions.cpp:11-70 | In every run spent bullets stay spent and dead monsters dead |
| `CollisionObjects.CollisionChecker.Die` | src/Entity/Player.cpp:287-295 | Only if there is a life left: the player returns to the starting place, loses it and is marked as destroyed |
| `CollisionObjects.CollisionChecker.FindKill` | src/GameProcessing/Collisions.cpp:16-44 | The nested loops find the first live pair that overlaps, in order, or there is none |
| `CollisionObjects.CollisionChecker.CheckCollisions` | src/GameProcessing/Collisions.cpp:11-70 | One call kills the first hit monster and its bullet, or else deals with the player, and changes nothing more |

## Left out

- Untimed streams (`DisableTimestamps`, `PopQueueHead`), late preparation of inputs and batching: other input policies than the one modelled.
- Parallel output propagation and input stream handlers other than the default one: a node's readiness is that of a single sync set, and output theorems are about calls that do not overlap.
- The topological sorter, tag maps and subgraph expansion: the analysis takes any order and checks it; names, ports and back-edge marks are given directly.
- ValidatedGraphs.ValidatedGraphConfig.Initialize: leaves out the side-packet tables with their types and the check of executor names, which can also refuse a configuration; whether side packets ask for sorting is a parameter.
- The choice of the source layer to activate, and closing all sources early: SourceScheduling follows one source from its activation on.
- Termination of `Scheduler::HandleIdle`, which can repeat with unchanged state, and concurrent output observers.
- NodeProgress.EndedNodeCanClose: says nothing of states in which the close is already scheduled, since the machine lets that invocation end without having closed the node; what holds in all of them is `EndedNodeFinishes`.
- Closing of input streams while the scheduling loop runs: NodeScheduling closes the node only after its last invocation was prepared.
- The initial scan and the tasks of a generator pass run on one thread in GeneratorSchedulers; other executors are covered by the steps of GeneratorGraph.
- Packet payloads, holders, registries, status texts, profiling, logging, GPU code, thread pools and build scripts: a packet is a timestamp, a type and an opaque value.
- Overflow of packet counters and of score and life counters: they are unbounded integers.
- Rounding of floating-point coordinates: they are reals.
- Drawing, textures, windows, hand tracking, key handling, score files, the positions of bullets and the player's way of moving, and `removeMonster`, which edits a copy: input, output or easy members.
