# Verified model of the recording and live-view core

This project models, in Dafny, the parts of a camera server where state and time are hard to get right, and proves what
they promise. One module stands for one component:

- The live path. `Timeline` turns a camera's stamps into a clock that only moves forward. `SinkFanout` caches the current
  group of pictures and hands frames to many consumers, calling them without its lock. `BackPressure` drops until a
  keyframe. `MoqFeed`, `MoqWire` and `Json` are the wire format and the non-blocking socket. `LivePath` composes them:
  whatever the interleaving and the socket, a viewer reads whole frames that form a decodable stream.
- Recording decisions. `MotionGate` decides segments online. `RecordingManager` is the two-phase protocol between client
  threads, a worker and bus watchers, and `RecordingProgress` runs each of its operations to its end; `RecordingGates` accounts for what the gates hold. `MotionDetector` compares frames on
  a grid, `MotionEvents` turns notices into event rows, `RecordingRepository` is the index, `Recording` and `Playback` walk
  the timeline.
- Source lifetimes: `SourceRegistry`, acquiring, sweeping and the grace period.
- The tree of vision models: `StageRunner`.
- Codecs: `Time`, `Base64`, `ByteRange`. `Text`, `Frames` and `Sorting` are shared.

Components that change state in place are classes whose methods are proved to be steps of a function on values; the
properties are proved about every run of those steps. Concurrency is an arbitrary interleaving of steps, each of them
what one thread does between two lock operations, joins or unlocked calls. Sockets, clocks, sources, model outputs and
whether a pipeline or a session starts are arbitrary inputs.

Where the code and what is written about it part ways, the code is followed:

- `acquireH264` reuses a live transcode whatever it reads, although its comment says the transcode reads the camera's
  current source (`SourceRegistry.StaleTranscodeIsReused`, `SourceRegistry.TranscodeReadsCurrentExactly`).
- `apply` is documented to leave the session alone on a rename. It restarts it when the camera records because it is merely
  enabled, or its segment length is below one second (`RecordingManager.ReapplyKeepsSessionExactly`).
- Sessions are never to be stopped under the manager's lock. A session whose start fails is, and why that is harmless is
  proved (`RecordingManager.JoinUnderLock`).
- The comment in `forgetOldEvents` says the oldest unresolved segment starts no earlier than the hold horizon. A segment
  that straddles it is the exception (`MotionGate.DropStandsExactly`, `MotionGate.StraddlerIsLost`).
- Stages below a stage also run on detections an earlier sibling left (`StageRunner.StrictExactlyWhenNothingCrosses`).
- The grace period is to be honoured to within a sweep. A sweep reads the clock before it has the lock, so an acquire that
  holds the lock meanwhile shortens it (`SourceRegistry.GraceIsKeptExactly`, `SourceRegistry.GraceCanBeShort`).
- The recorder follows the setting that saves events at once, while the motion sink keeps what it was when the sink was made,
  so the two do not agree on which frame gets a picture (`MotionEvents.StaleSinkTakesNoPicture`).
- A segment's frames are to play on from file to file. When one file starts just where another ends, the hop opens it 1 ms in
  and drops the keyframe it starts with (`Playback.AbuttingFileLosesItsKeyframe`).
- A parsed time of exactly -1 second is taken for the error value (`Time.RoundTripExactly`).

## Model

| member | source | states |
|---|---|---|
| SinkFanout.RunsAreContiguous | src/media/source/SinkFanout.cpp:45-140 | over every interleaving of add, remove, clear and a delivery split into its locked phase and its unlocked calls, each consumer ever added was handed a contiguous run of the delivered frames, with no gap, duplicate or reordering |
| SinkFanout.ConsumerRun | src/media/source/SinkFanout.cpp:45-140 | one consumer's run is contiguous, and starts with a keyframe exactly when this consumer was not primed from a cache of deltas alone |
| SinkFanout.KeyframeStartsExactly | src/media/source/SinkFanout.cpp:104-135 | every consumer's run opens with a keyframe if and only if no consumer was primed from a cache of deltas alone |
| SinkFanout.OpeningKeyframesSuffice | src/media/source/SinkFanout.cpp:104-126 | a stream that opens with a keyframe after construction and after every clear never primes anybody with deltas alone |
| SinkFanout.HeadlessPrimeHappens | src/media/source/SinkFanout.cpp:104-126 | without that opening keyframe the next viewer is primed with a delta (the input that shows it) |
| SinkFanout.CacheIsExact | src/media/source/SinkFanout.cpp:97-147 | in every reachable state the cache is empty or exactly the frames since the last keyframe, `m_gopBytes` is their total, and both limits hold |
| SinkFanout.NobodyBehind | src/media/source/SinkFanout.cpp:128-140 | between deliveries no consumer that is not waiting lacks a frame of its run |
| SinkFanout.EveryConsumerIsServed | src/media/source/SinkFanout.cpp:45-147 | over every interleaving, each consumer added and not removed is registered, waits exactly while the frame it is to start with has not come (its first cached frame when primed, else the first keyframe after it joined), and has every frame from that one on, save the last while it is still to be called |
| SinkFanout.RegisteredExactly | src/media/source/SinkFanout.cpp:45-95 | a consumer is registered if and only if some `add` gave its id and no later `remove` of it or `clear` |
| SinkFanout.StatsAreExact | src/media/source/SinkFanout.cpp:55-88 | every `add` is counted once, as primed when it was and as waited when not |
| SinkFanout.SinkFanout.Add | src/media/source/SinkFanout.cpp:45-90 | adding a consumer is the model's step: primed under the lock from the cache, or left waiting for a keyframe |
| SinkFanout.SinkFanout.Remove | src/media/source/SinkFanout.cpp:92-95 | removing a consumer is the model's step and touches nobody else |
| SinkFanout.SinkFanout.Clear | src/media/source/SinkFanout.cpp:142-147 | clearing is the model's step and releases every reference taken |
| SinkFanout.SinkFanout.DropGop | src/media/source/SinkFanout.cpp:28-43 | dropping the cache releases each cached frame once: references held equal frames cached, here none |
| SinkFanout.SinkFanout.LockedPhase | src/media/source/SinkFanout.cpp:100-137 | the locked part of a delivery: the cache, then the consumers to call, with references still equal to cached frames |
| SinkFanout.SinkFanout.Deliver | src/media/source/SinkFanout.cpp:97-140 | a delivery nobody interrupts leaves every consumer that is not waiting with all that was delivered since its run began |
| BackPressure.DropUntilKeyframe.Admit | src/media/source/BackPressure.hpp:28-50 | an arrival is admitted exactly when the consumer is not behind and not waiting for a keyframe that this is not; the drop count grows by the others |
| BackPressure.DropsEndAtKeyframes | src/media/source/BackPressure.hpp:28-50 | for every load, admitted and dropped make up the arrivals, and an admitted delta comes straight after its admitted predecessor unless it is the very first arrival |
| BackPressure.AdmittedExactly | src/media/source/BackPressure.hpp:28-50 | for every load, an arrival is admitted if and only if it does not find the consumer behind and a keyframe, itself counting, has come after every earlier arrival that did |
| BackPressure.WaitsExactly | src/media/source/BackPressure.hpp:28-50 | the gate waits if and only if some arrival found the consumer behind and no keyframe has come since |
| Json.AppendJsonString | src/core/Json.cpp:7-33 | the loop appends the JSON string of the text |
| Json.StringReadsBack | src/core/Json.cpp:7-33 | every octet string is read back from its JSON string by the grammar of section 7 of RFC 8259 |
| Json.NoControlCharacters | src/core/Json.cpp:19-30 | a JSON string holds no raw control character, so no newline |
| MoqFeed.WriteBigEndian | src/media/moq/MoqFeed.cpp:29-33 | the loop appends the value's octets, most significant first |
| MoqFeed.BigEndianReadsBack | src/media/moq/MoqFeed.cpp:29-33 | a value that fits its octets is read back from them |
| MoqFeed.BigEndianOctet | src/media/moq/MoqFeed.cpp:29-33 | each octet in its place, the first the value's highest |
| MoqFeed.MoqFrameHeader | src/media/moq/MoqFeed.cpp:37-45 | the thirteen octets in front of a frame |
| MoqFeed.FrameReadsBackExactly | src/media/moq/MoqFeed.cpp:115-135 | a frame at the head of a stream is read back, with the rest of the stream left, if and only if its size fits the 32-bit length |
| MoqFeed.ReaderGetsTheFrame | src/media/moq/MoqFeed.cpp:116-123 | a reader gets a frame's octets, whether it is a keyframe, and its time in whole microseconds, zero when it has none |
| MoqFeed.StreamReadsBack | src/media/moq/MoqFeed.cpp:37-45 | a reader of whole frames and less than one more recovers exactly those frames, in order |
| MoqFeed.PartialIsLeft | src/media/moq/MoqFeed.cpp:146-153 | a proper prefix of a frame reads as nothing |
| MoqFeed.MoqSessionHeader | src/media/moq/MoqFeed.cpp:47-59 | the line a session opens with |
| MoqFeed.SessionReadsBack | src/media/moq/MoqFeed.cpp:47-59 | feed, camera, session and codec are read back from the line whatever octets they hold |
| MoqFeed.HeaderEndsAtNewline | src/media/moq/MoqFeed.cpp:47-59 | the line's only newline is its last octet |
| MoqWire.WireIsExact | src/media/moq/MoqFeed.cpp:83-159 | for every frame sequence and every socket behaviour, octets accepted plus octets pending are the encodings of the frames begun with at most one partial, and every frame is begun, dropped or died with the connection |
| MoqWire.DropsEndAtKeyframe | src/media/moq/MoqFeed.cpp:98-113 | for every socket behaviour, the next frame begun after a drop is a keyframe |
| MoqWire.PushIsExact | src/media/moq/MoqFeed.cpp:83-159 | in every reachable state, one push by the kernel's answers: earlier octets go first, send by send, until the kernel is full or they are gone; only then is the frame offered, and when begun put to the kernel once and what was not taken kept; what ends the connection; a dead one is left alone |
| MoqWire.BegunExactly | src/media/moq/MoqFeed.cpp:98-113 | while the connection lives, a frame pushed is begun if and only if no earlier octets were left at its push and a keyframe, itself counting, has come after every push at which some were |
| MoqWire.WillingSocketGetsAll | src/media/moq/MoqFeed.cpp:83-159 | a kernel that always takes something, however little, is sent every frame pushed |
| MoqWire.ClosedForGood | src/media/moq/MoqFeed.cpp:161-169 | after a close nothing is pending, sent, begun or counted, whatever is pushed |
| MoqWire.ReaderRecovers | src/media/moq/MoqFeed.cpp:83-159 | a reader of what the socket accepted gets exactly the frames begun, in order, save a last partial one |
| MoqWire.Wire.FlushPending | src/media/moq/MoqFeed.cpp:83-96 | the loop leaves exactly what the kernel did not take, or marks the connection dead |
| MoqWire.Wire.Push | src/media/moq/MoqFeed.cpp:98-159 | a push is the model's step on every field, `frames` not counting a frame that was stashed whole |
| LivePath.ViewerReadsDecodableStream | src/media/source/SinkFanout.cpp:97-140 | end to end through fan-out, gate and wire: the viewer reads its session back and then frames of the source where every delta directly follows its predecessor in the source, begun, dropped and lost account for every frame it was handed, and while its connection lives exactly the frames the kernel had room for, from a keyframe on after each time it had not, are begun |
| LivePath.WireSide | src/media/moq/MoqFeed.cpp:98-159 | the same for any contiguous run of frames handed to a feed |
| LivePath.WillingViewerReadsEverything | src/media/source/SinkFanout.cpp:45-140 | a viewer that has joined and not left, and whose kernel is never full, reads every frame delivered from the start of its run, save a last one still partly unsent |
| Timeline.OutputIsIdeal | src/media/source/Timeline.hpp:54-88 | a stamped buffer comes out at the ideal clock: zero, then each trusted step, each jump replaced by the last trusted step or a nominal one |
| Timeline.ClockOnlyMovesForward | src/media/source/Timeline.hpp:54-88 | the first stamped buffer comes out at 0; from any stamped buffer to a later one the clock never goes back nor gains more than 3 s a buffer |
| Timeline.TranslatedBetweenJumps | src/media/source/Timeline.hpp:82-87 | between two buffers with no jump between them every stamp moves by one and the same offset, or to zero where that would be negative |
| Timeline.GapIsKeptExactly | src/media/source/Timeline.hpp:82-98 | the gap from decode to presentation stamp is kept if and only if the presentation stamp does not fall before the origin |
| Timeline.NeverOverflows | src/media/source/Timeline.hpp:54-98 | no sum or difference leaves 64 bits for stamps below 2^62 over 1.5 billion buffers |
| Timeline.StateIs | src/media/source/Timeline.hpp:100-104 | every field is a function of the raw clock, `m_corrections` the number of jumps in it |
| Timeline.Timeline.Correct | src/media/source/Timeline.hpp:54-88 | one call is the model's step and output |
| MotionGate.OnlineIsOffline | src/media/recording/MotionGate.cpp:10-82 | with a clock that does not go back, a timely segment is kept if and only if some event of the whole run, past or future, covers it |
| MotionGate.HeldExactly | src/media/recording/MotionGate.cpp:18-82 | the gate holds exactly the segments offered that no flush, and no settle at or past their end plus the pre-roll, has come after, in order |
| MotionGate.DecidesExactly | src/media/recording/MotionGate.cpp:49-82 | a settle or a flush decides exactly the held segments that are due, each once, in the order they came |
| MotionGate.KeptIsCovered | src/media/recording/MotionGate.cpp:20-69 | what is kept is covered by an event noted before, on any clock |
| MotionGate.DropStandsExactly | src/media/recording/MotionGate.cpp:32-69 | a drop is right whatever event could have been noted if and only if no settle had passed the segment's start by more than the hold before, or no event can save the segment |
| MotionGate.UntimelyDropCanBeWrong | src/media/recording/MotionGate.cpp:32-40 | for every segment outside that condition there is an event that covers it and is pruned before the drop |
| MotionGate.StraddlerIsLost | src/media/recording/MotionGate.cpp:32-40 | the smallest such run with the default ten and twenty seconds |
| MotionGate.MotionGate.NoteEvent | src/media/recording/MotionGate.cpp:10-16 | the event list gains the instant and stays sorted |
| MotionGate.MotionGate.Settle | src/media/recording/MotionGate.cpp:49-69 | settling is the model's step, and its decisions are the model's |
| MotionGate.MotionGate.Flush | src/media/recording/MotionGate.cpp:71-82 | flushing decides everything held |
| MotionGate.MotionGate.ForgetOldEvents | src/media/recording/MotionGate.cpp:32-40 | the binary search removes exactly the events before the horizon |
| RecordingManager.AlwaysSound | src/media/recording/RecordingManager.cpp:50-225 | in every reachable state of apply, remove, stop, noteEvent, the worker and the bus watchers, each lock is held by the one thread whose position says so and entries point at sessions that can report |
| RecordingManager.JoinUnderLock | src/media/recording/RecordingManager.cpp:130-169 | a watcher is joined under `m_mutex` only after a failed start, and that watcher never takes the lock |
| RecordingManager.NoDeadlock | src/media/recording/RecordingManager.cpp:75-225 | every operation under way can move, or waits through at most four other threads for one that can |
| RecordingProgress.EveryOperationCanEnd | src/media/recording/RecordingManager.cpp:50-216 | from every reachable state, whatever the other threads are at, every operation under way can be run to its end |
| RecordingManager.OneSessionPerCamera | src/media/recording/RecordingManager.cpp:97-189 | a camera has at most one session that is not told to stop, besides those a remove or a stop is taking down |
| RecordingManager.NobodyTakesDown | src/media/recording/RecordingManager.cpp:75-175 | in runs without remove and stop there is no such exception |
| RecordingManager.RivalsExactly | src/media/recording/RecordingManager.cpp:50-189 | two sessions of a camera can both still report at some moment of a run exactly when at some moment an apply of it makes one while a remove or a stop still has to end one |
| RecordingManager.RemoveAllowsRivals | src/media/recording/RecordingManager.cpp:177-189 | a run in which a remove leaves two sessions of one camera able to report |
| RecordingManager.StopAllowsRivals | src/media/recording/RecordingManager.cpp:50-73 | the run in which an apply starts a rival of a session that a stop has yet to end |
| RecordingManager.ReapplyKeepsSessionExactly | src/media/recording/RecordingManager.cpp:75-175 | over every run: after an apply built a session and with nothing done to the entry in between, a second apply of the same camera with its codec known leaves that session in place exactly when its mode was chosen and its segment length is positive |
| RecordingManager.ApplyDecidesExactly | src/media/recording/RecordingManager.cpp:97-132 | over every run, in the camera's own fields: the first locked phase of an apply leaves the session in place exactly when the camera is to record and its codec is unknown or the session was built from the same stream, mode and segment length; else the entry has none, the one it had is told to stop and joined, and one is built exactly when the camera is to record |
| RecordingManager.TakenOutHasEnded | src/media/recording/RecordingManager.cpp:130-131 | a session an apply takes out has ended by the time that apply goes on |
| RecordingManager.TurnedOffStaysOff | src/media/recording/RecordingManager.cpp:108-131 | a camera turned off has no session, and none in the making, until it is applied again, whatever other operations do |
| RecordingManager.SessionMaker | src/media/recording/RecordingManager.cpp:133-175 | an entry's session was built by one step for this camera, and the entry says how the camera was then |
| RecordingManager.OneStopDoesTheWork | src/media/recording/RecordingManager.cpp:50-53 | of all clients that stop the manager at most one joins the worker and takes the sessions down |
| RecordingGates.EverySegmentIsAccountedFor | src/media/recording/RecordingManager.cpp:50-73 | over every run, each segment that reached a camera's gate is decided once, still held, or went with a gate that was rebuilt or removed |
| RecordingGates.LostExactlyWhenTaken | src/media/recording/RecordingManager.cpp:149-189 | a segment is lost exactly when a rebuild or a remove falls between its offer and the first settle at or past its end plus the hold, before any stop |
| RecordingGates.LostExactlyWhenDiscarded | src/media/recording/RecordingManager.cpp:149-189 | a segment is lost if and only if a gate that holds one is rebuilt or removed |
| RecordingGates.GateIs | src/media/recording/RecordingManager.cpp:149-225 | from a rebuild with a source until the gate is replaced, removed or flushed, it is a motion gate with that rebuild's options that is noted every event, offered every complete segment of a session recording around events, passed every settle, and nothing else |
| RecordingGates.GateDecides | src/media/recording/RecordingManager.cpp:227-243 | what a settle or a stop decides is what that motion gate hands back |
| RecordingGates.ReportedToNoGateExactly | src/media/recording/RecordingManager.cpp:204-225 | over every run a complete segment that is reported reaches no gate, and changes nothing, exactly when every session started to record around events has been ended by a remove, a stop or a rebuild that records everything |
| RecordingGates.LastSegmentIsNotDecided | src/media/recording/RecordingManager.cpp:59-66 | the run in which a session's last segment closes when its entry is gone: it is never offered, decided or lost (the same at lines 177-189) |
| RecordingGates.StopDecidesEverything | src/media/recording/RecordingManager.cpp:50-73 | a run that ends in a stop has decided every segment offered if and only if that never happened |
| MotionEvents.EventsAreStretches | src/media/ai/MotionEventRecorder.cpp:69-131 | over every run the stored rows are exactly the maximal stretches of triggered notices heard while saving was on, each from the first whose row the repository took, with its end and the sorted union of its cells |
| MotionEvents.AtMostOneOpen | src/media/ai/MotionEventRecorder.cpp:69-131 | at most one row of a camera is open, and it is its last |
| MotionEvents.SameStretchExactly | src/media/ai/MotionEventRecorder.cpp:69-122 | two triggered notices are of one event if and only if every notice between them is triggered |
| MotionEvents.StretchHolds | src/media/ai/MotionEventRecorder.cpp:108-111 | the event of a notice holds the cells of that notice |
| MotionEvents.TriggeredExactly | src/media/ai/AiRuntime.cpp:317-321 | a notice is triggered if and only if its frame fires or the last firing is less than the hold before it |
| MotionEvents.FiringsShareARowExactly | src/media/ai/AiRuntime.cpp:286-321 | two frames that fire, with a row open after the first and saving on between them, fall in the same stored row exactly when every frame between fires too or comes less than the hold after the last that did |
| MotionEvents.CloseFiringsShareARow | src/media/ai/AiRuntime.cpp:286-321 | with a clock that does not go back, any two firings closer than the hold fall in the same stored row, whatever fires between |
| MotionEvents.PictureAtEveryStart | src/media/ai/AiRuntime.cpp:324-331 | while events are saved a picture is taken of exactly the frames that begin a stretch of triggered frames |
| MotionEvents.RowHasPictureExactly | src/media/ai/MotionEventRecorder.cpp:69-107 | a row is stored without a picture exactly when the sink was made while saving was off, or the frame before its own was triggered too but left no row open: not saved, its row refused, or everything closed in between |
| MotionEvents.StaleSinkTakesNoPicture | src/media/ai/AiRuntime.cpp:300-331 | the run in which saving is switched on after the sink was made: the first frame of a stretch stores a row with no picture |
| MotionEvents.JoinedReadsBack | src/media/ai/MotionEventRecorder.cpp:14-33 | a set of cells joined into text is collected back as the same set |
| MotionEvents.GathersInsideCells | src/media/ai/MotionEventRecorder.cpp:14-33 | what an event gathers from a frame is the moved cells inside zones that the detector printed |
| MotionEvents.Collect | src/media/ai/MotionEventRecorder.cpp:14-24 | the loop adds exactly the non-empty fields of the text |
| MotionEvents.JoinCells | src/media/ai/MotionEventRecorder.cpp:26-33 | the loop over the set writes its strings in order, comma-separated |
| MotionEvents.MotionSink.OnFrame | src/media/ai/AiRuntime.cpp:308-338 | the per-frame callback: firing, hold, edge, and the split of the cells |
| MotionEvents.MotionEventRecorder.Observe | src/media/ai/MotionEventRecorder.cpp:69-122 | observing a notice is the model's step on the open events and on the repository |
| MotionEvents.MotionEventRecorder.CloseAll | src/media/ai/MotionEventRecorder.cpp:124-131 | every open event is closed with its own cells and no other row changes |
| MotionEvents.MotionEventRecorder.SetSaving | src/media/ai/MotionEventRecorder.cpp:64-67 | whether a camera's events are stored |
| RecordingRepository.IdsAreForEver | src/store/InMemoryRecordingRepository.cpp:15-42 | an id stands for one path for ever: any later row with that id is that path's, still has motion if it had, and the id is never issued again |
| RecordingRepository.RemovedIdsStayGone | src/store/InMemoryRecordingRepository.cpp:84-93 | an id that has been removed names no row in any later state |
| RecordingRepository.RowIs | src/store/InMemoryRecordingRepository.cpp:15-42 | over every run a file's row is the last message about it under the id of its first, with motion if any message since had it and the last motion event any named |
| RecordingRepository.RowStandsExactly | src/store/InMemoryRecordingRepository.cpp:15-93 | a file has a row if and only if some message was about it and no removal of its row has followed |
| RecordingRepository.IdsDiffer | src/store/Ids.hpp:24-29 | printed identifiers of different counters differ |
| RecordingRepository.QueryHasOneAnswer | src/store/InMemoryRecordingRepository.cpp:44-54 | the range query's contract leaves one answer only |
| RecordingRepository.InMemoryRecordingRepository.UpsertSegment | src/store/InMemoryRecordingRepository.cpp:15-42 | both maps stay exact inverses and the repository refines one table keyed by path |
| RecordingRepository.InMemoryRecordingRepository.RemoveSegments | src/store/InMemoryRecordingRepository.cpp:84-93 | the same for removal; unknown ids are skipped |
| RecordingRepository.InMemoryRecordingRepository.SegmentsInRange | src/store/InMemoryRecordingRepository.cpp:44-54 | exactly the camera's rows that meet the window, each once, by start and then id |
| RecordingRepository.InMemoryRecordingRepository.SegmentsEndingBefore | src/store/InMemoryRecordingRepository.cpp:64-82 | exactly the camera's finished rows that ended before the instant, oldest end first |
| RecordingRepository.InMemoryRecordingRepository.SegmentById | src/store/InMemoryRecordingRepository.cpp:56-62 | the row with the id, or none when no row has it |
| RecordingRepository.InMemoryRecordingRepository.InsertMotionEvent | src/store/InMemoryRecordingRepository.cpp:95-102 | a new event gets an id no event had |
| RecordingRepository.InMemoryRecordingRepository.CloseMotionEvent | src/store/InMemoryRecordingRepository.cpp:104-114 | closing sets end, score and cells of the one event with that id |
| Recording.OverlapIsSharedInstant | src/media/recording/Recording.cpp:20-22 | for intervals that are not empty, overlapping is sharing an instant |
| Recording.SegmentsForWindow | src/media/recording/Recording.cpp:28-41 | exactly the segments that meet the window, sorted by start and then id |
| Recording.OnlyOneListing | src/media/recording/Recording.cpp:35-39 | that order leaves one arrangement only |
| Recording.SeekTo | src/media/recording/Recording.cpp:43-69 | the earliest segment to resume in, whichever way ties in the sort fall, or none if there is none |
| Recording.SeekLands | src/media/recording/Recording.cpp:43-69 | for every set of segments, whichever way ties fall: the answer has the instant at its offset, or with none that has it is the start of the earliest from there on, if and only if no empty segment starts at the instant, or one that starts earlier has it, or none has it |
| Recording.EmptySegmentCanHideTheInstant | src/media/recording/Recording.cpp:43-69 | with such an empty segment a seek may miss the segment that has the instant |
| Playback.HopMovesForward | src/media/source/PlaybackSource.cpp:320-335 | what follows at the end of a file ends strictly later, whatever was recorded meanwhile |
| Playback.ChainEnds | src/media/source/PlaybackSource.cpp:320-335 | over one index no segment plays twice, so there are at most as many hops as segments |
| Playback.HopPlaysNextExactly | src/media/source/PlaybackSource.cpp:166-189 | on a line of disjoint segments playback goes on to the next one if and only if it ends at least 2 ms after this one and starts within a day of its end |
| Playback.OpensExactly | src/media/source/PlaybackSource.cpp:168-187 | a seek finds the earliest of all the camera's finished segments to resume in, so long as it starts within a day; how far back it looks never matters |
| Playback.LastIsLast | src/media/source/PlaybackSource.cpp:320-331 | after the last segment there is nothing to play |
| Playback.WholeLinePlays | src/media/source/PlaybackSource.cpp:320-335 | segments of 2 ms and more with gaps under a day all play, in order, to the end |
| Playback.HopHandsOn | src/media/source/PlaybackSource.cpp:195-199 | over any index, a hop hands on of the next file exactly the frames after the end of the segment before that its speed lets through |
| Playback.HopHandsOnAllExactly | src/media/source/PlaybackSource.cpp:320-362 | along segments that share no instant, a hop loses no frame its speed lets through if and only if the next segment starts later than the last one ends or has no such frame at file time 0; otherwise exactly the frames at time 0 go |
| Playback.AbuttingFileLosesItsKeyframe | src/media/source/PlaybackSource.cpp:320-350 | two files recorded without a gap: the keyframe the second opens with is not handed on |
| Playback.PlaybackSource.OpenAt | src/media/source/PlaybackSource.cpp:166-195 | the segment chosen, the mark to catch up to, and where in the file reading starts |
| Playback.PlaybackSource.PlayOn | src/media/source/PlaybackSource.cpp:320-335 | at the end of a file playback moves on as the model's hop says, or is ended |
| Playback.PlaybackSource.Step | src/media/source/PlaybackSource.cpp:281-358 | one pass of the feeder: a waiting seek opens where it lands or ends playback, nothing before the mark is handed on, only keyframes when scrubbing fast, and only a seek or the end of a file changes what plays |
| SourceRegistry.GraceIsKeptExactly | src/media/source/CameraSourceRegistry.cpp:58-171 | over every interleaving, a running timer leaves the grace period since the source was last handed out if and only if the source was not handed out, later than the clock reading, between that reading and the lock of the sweep that started the timer; otherwise it is short by exactly that delay |
| SourceRegistry.GraceCanBeShort | src/media/source/CameraSourceRegistry.cpp:62-67 | the run in which a live source is let go of any wanted delay short of the grace period |
| SourceRegistry.StopsOnlyTheUnwatched | src/media/source/CameraSourceRegistry.cpp:58-120 | a live source that is stopped had no sink when the sweep decided, and was last handed out a grace period before the sweep's reading unless an acquire overtook the sweep that started its timer |
| SourceRegistry.StoppedUnderASinkExactly | src/media/source/CameraSourceRegistry.cpp:111-119 | a live source about to be stopped has a sink exactly when one was put on it after the decision and it has not been without since; the stop ends it all the same |
| SourceRegistry.UpstreamOutlivesTranscode | src/media/source/CameraSourceRegistry.cpp:66-109 | a live upstream with a transcode attached is not let go of by any sweep, and if it is to be stopped the transcode was started after the decision |
| SourceRegistry.LateSinkIsStopped | src/media/source/CameraSourceRegistry.cpp:111-119 | the run in which a viewer attaches between the decision and the stop and has its source stopped under it |
| SourceRegistry.TranscodeReadsCurrentExactly | src/media/source/CameraSourceRegistry.cpp:193-241 | over every run a held transcode reads the camera's current source exactly when that source was the camera's when the transcode was started and no step since has dropped it |
| SourceRegistry.StaleTranscodeIsReused | src/media/source/CameraSourceRegistry.cpp:200-207 | the run in which a repointed camera is handed the transcode of its old stream |
| SourceRegistry.AlwaysOk | src/media/source/CameraSourceRegistry.cpp:58-241 | what is held is the camera's own and is not being stopped, in every reachable state |
| SourceRegistry.HandedOutIsRight | src/media/source/CameraSourceRegistry.cpp:122-241 | over every interleaving, what a step hands out is a running source of the camera asked for, made by that step or an earlier one for the very stream or bitrate asked for; a transcode handed out again also has a running upstream |
| SourceRegistry.AcquireReusesExactly | src/media/source/CameraSourceRegistry.cpp:129-171 | an acquire hands out the camera's source exactly when that was made for the same stream and runs, else the new one when it starts, else none and the camera has none |
| SourceRegistry.TranscodeReusesExactly | src/media/source/CameraSourceRegistry.cpp:199-241 | the same for a transcode, by bitrate and with its upstream running |
| SourceRegistry.SweepLetsGoExactly | src/media/source/CameraSourceRegistry.cpp:61-111 | a sweep lets go of, and stops, exactly the sources that have died and those unwatched and seen so a grace period ago; it stops the timers of the watched and starts those of the others |
| SourceRegistry.SourceEndsExactly | src/media/source/CameraSourceRegistry.cpp:113-119 | a running source ends exactly when its pipeline dies, a decided stop comes (transcodes first), or its last consumer lets go of one the registry no longer has, so a replaced one is dropped and not stopped |
| SourceRegistry.RunningTranscodeReads | src/media/source/CameraSourceRegistry.cpp:232-241 | a running transcode has its sink on the source it reads, which is therefore watched |
| SourceRegistry.IdleTimer.Expired | src/media/source/IdleRetirement.hpp:31-45 | one call on the timer is the model's |
| SourceRegistry.CameraSourceRegistry.Acquire | src/media/source/CameraSourceRegistry.cpp:122-171 | acquiring is the model's step and returns what that step hands out, nothing on an empty URL, an unknown codec or a start that fails |
| SourceRegistry.CameraSourceRegistry.AcquireTranscode | src/media/source/CameraSourceRegistry.cpp:199-241 | the second locked section of `acquireH264` is the model's step and returns what it hands out |
| SourceRegistry.CameraSourceRegistry.SweepLocked | src/media/source/CameraSourceRegistry.cpp:61-111 | the two loops over the maps are the model's sweep at whatever instant was read before the lock, transcodes first |
| StageRunner.ValidateStages | src/vision/StageRunner.cpp:33-78 | accepts exactly the lists of one to eight known stages that form a tree of backward parents less than six deep |
| StageRunner.EverySurvivorIsSound | src/vision/StageRunner.cpp:114-257 | for every accepted list and whatever the models find, every surviving detection has a frame box the size of its own, passes its own stage's filter, and is nested exactly as deep as its stage, under the limit |
| StageRunner.FindsExactly | src/vision/StageRunner.cpp:114-257 | for every accepted list and any models: a run returns stage 0's reports that pass its filter, in order and in place; under every detection hangs, stage by stage, all or nothing of what the stage reported on it and its filter passes, in order, each side of each frame box shifted by the crop's corner; and every stage configured under a detection's own has looked at it without failing |
| StageRunner.OnlyFailureFails | src/vision/StageRunner.cpp:199-221 | a run fails only when some lower stage fails; a transform that does not apply or a filter never stops it |
| StageRunner.StrictExactlyWhenNothingCrosses | src/vision/StageRunner.cpp:114-257 | for every accepted list, with any filters and whatever the models find: every detection hangs under one of its stage's configured parent exactly when no class from a reachable stage goes both to an earlier sibling and to a stage with something below it that takes what the sibling emits |
| StageRunner.StrictWhenOnlyFirstNests | src/vision/StageRunner.cpp:172-257 | in particular when only first children have children |
| StageRunner.StrictExactlyWhenOnlyFirstNests | src/vision/StageRunner.cpp:249-254 | for lists without filters that is exactly when |
| StageRunner.StageRunner.Init | src/vision/StageRunner.cpp:80-112 | a good list whose models load leaves the linked tree; an invalid one leaves no stage; a load that fails leaves the stages before it, unlinked |
| StageRunner.HalfLoadedRunsFirst | src/vision/StageRunner.cpp:86-97 | a runner whose load failed half way runs as its first stage alone |
| StageRunner.StageRunner.RunChildStage | src/vision/StageRunner.cpp:172-257 | the in-place loop over detections is the model's run of a stage |
| StageRunner.StageRunner.RunGrandchildren | src/vision/StageRunner.cpp:250-254 | each lower stage in turn over all children a detection has by then |
| StageRunner.StageRunner.PlaceNew | src/vision/StageRunner.cpp:222-248 | placing and then erasing leaves the earlier children and exactly the kept new ones |
| StageRunner.StageRunner.Run | src/vision/StageRunner.cpp:114-170 | the whole run over one frame, failing as the code does |
| MotionDetector.SampleCellInRange | src/vision/MotionDetector.cpp:80-91 | every sample falls in a cell of the grid |
| MotionDetector.EverySampleCounts | src/vision/MotionDetector.cpp:80-95 | every sample is counted in exactly one cell: the totals add up to 160 x 120 |
| MotionDetector.MovedAtMostTotal | src/vision/MotionDetector.cpp:91-93 | a cell never has more changed samples than samples |
| MotionDetector.MovedCellsExactly | src/vision/MotionDetector.cpp:80-107 | the moved cells, in ascending order, are those with samples of which at least 8 in a hundred are more than 18 brighter or darker than before |
| MotionDetector.SamplesSpreadEvenly | src/vision/MotionDetector.cpp:59-71 | a picture inside its frame is sampled evenly, 160 across and 120 down |
| MotionDetector.LumaWeighs | src/vision/MotionDetector.cpp:10-15 | a packed pixel's bytes weigh two, five and one in eight, and a grey is itself |
| MotionDetector.FiresExactly | src/vision/MotionDetector.cpp:188-203 | a zone fires when its level in tenths, rounded up, of its cells on the grid are marked |
| MotionDetector.SamplesLieInTheFrame | src/vision/MotionDetector.cpp:59-71 | every sample is read inside the frame if and only if no corner of a given picture lies before the frame's |
| MotionDetector.CellParts | src/vision/MotionDetector.cpp:105-107 | the row and column printed for a cell lie on the grid and name it |
| MotionDetector.PrintedMarksItsCells | src/vision/MotionDetector.cpp:171-186 | reading a printed list marks exactly the cells that were printed |
| MotionDetector.ZonesSeeMovedCells | src/vision/MotionDetector.cpp:161-206 | what the zones make of the printed list is the zone rule on the set of moved cells |
| MotionDetector.SplitPartitions | src/media/ai/AiRuntime.cpp:17-45 | splitting a printed list gives the printed lists of the cells inside and outside the zones, each in order, and together all of them |
| MotionDetector.ZonesTriggered | src/vision/MotionDetector.cpp:161-206 | the parsing and counting loops compute the zone rule, for any text |
| MotionDetector.MarkMoved | src/vision/MotionDetector.cpp:168-186 | one flag for each cell, set exactly for the cells the text names |
| MotionDetector.CountZone | src/vision/MotionDetector.cpp:189-199 | the double loop counts the zone's cells on the grid and those that moved |
| MotionDetector.SplitByZones | src/media/ai/AiRuntime.cpp:17-45 | the loop splits any text's fields by whether a zone covers them |
| MotionDetector.MotionDetector.Analyse | src/vision/MotionDetector.cpp:29-114 | what is printed are the moved cells of this frame against the one before, nothing on the first; the new samples replace the old; an unreadable frame changes nothing |
| MotionDetector.MotionDetector.CountSamples | src/vision/MotionDetector.cpp:75-95 | the nested loops count every cell's samples and changed samples |
| MotionDetector.MotionDetector.Reset | src/vision/MotionDetector.cpp:24-27 | forgets the frame before |
| Time.RoundTripExactly | src/core/Time.cpp:54-132 | a printed instant parses to itself if and only if its year has four digits and it is not in [-1000, -2] ms, the second before 1970 whose count is the error value |
| Time.AnyZoneParsesTheSame | src/core/Time.cpp:101-131 | the same instant shown at any hh:mm from UTC parses to the same number, if and only if the shown clock is not in the last second of 1969 (or the instant is -1) |
| Time.SpellingMeans | src/core/Time.cpp:71-132 | what every accepted spelling means: fields, any number of fraction digits of which three count, and a zone |
| Time.UtcIsRight | src/core/Time.cpp:13-17 | the calendar names a real date whose count of seconds is the instant |
| Time.CivilIsUnique | src/core/Time.cpp:119-128 | no two real dates have the same count |
| Time.ClosedForm | src/core/Time.cpp:119-128 | years of 365 days, and 366 exactly in leap years, add up to the calendar's closed form |
| Time.ToIso8601Millis | src/core/Time.cpp:54-69 | truncating division corrected for negative instants prints the floor |
| Time.ReadInt | src/core/Time.cpp:24-33 | the loop reads exactly `count` digits or nothing |
| Time.ParseFraction | src/core/Time.cpp:84-99 | the loop reads every digit and keeps three |
| Time.ParseZone | src/core/Time.cpp:101-117 | the cursor reads a sign, hours and optional minutes, with or without a colon |
| Time.ParseEpochMs | src/core/Time.cpp:71-132 | the whole parser, with each of its failures |
| Base64.DecodeUndoesSpacedEncode | src/api/controllers/AiController.hpp:234-257 | every byte string comes back from its encoding by section 4 of RFC 4648 with white space put anywhere |
| Base64.DecodeUndoesEncode | src/api/controllers/AiController.hpp:243-255 | the same without padding, or with anything after it |
| Base64.AccumulatorKeepsPending | src/api/controllers/AiController.hpp:249-253 | though the 32-bit accumulator wraps, the bits still pending are right |
| Base64.AlphabetIs | src/api/controllers/AiController.hpp:235-238 | the letters of the alphabet, in order |
| Base64.ReverseTable | src/api/controllers/AiController.hpp:237-238 | the table holds every letter's value and -1 for all other octets |
| Base64.DecodeBase64 | src/api/controllers/AiController.hpp:234-257 | the loop decodes what stands before the first `=`, and yields nothing on any other letter there |
| ByteRange.ParsedExactly | src/api/ByteRange.cpp:26-68 | a header counts if and only if it is one of the three forms; it is satisfiable if and only if it asks for some byte of the file, and then the interval is exactly the bytes asked for, within the file |
| ByteRange.PrintedParse | src/api/ByteRange.cpp:26-68 | printed `bytes=a-b`, `bytes=a-` and `bytes=-n` parse to the clamped interval they name |
| ByteRange.BackwardsIsUnsatisfiable | src/api/ByteRange.cpp:60-67 | a last byte before the first is a request that cannot be met, where section 2.1 of RFC 7233 would ignore the header |
| ByteRange.AnswerReadsBack | src/api/ByteRange.cpp:70-74 | the Content-Range text (section 4.2 of RFC 7233) reads back as the interval and the size |
| ByteRange.ToInt64 | src/api/ByteRange.cpp:18-22 | the value of up to 18 digits, below 10^18 at every step |
| ByteRange.CheckDecimal | src/api/ByteRange.cpp:8-16 | one to eighteen digits and nothing else |
| ByteRange.ParseByteRange | src/api/ByteRange.cpp:26-68 | the parser field by field, with each way out |

## Left out

- RecordingManager: modelled as a protocol on values rather than as a class, because its steps belong to several threads;
  the entries' maps are values, and `RecordingGates` follows one camera's gate separately.
- RecordingManager.OneSessionPerCamera: excludes sessions that a remove or a stop is taking down, because `remove` does not
  take the lock that orders applies; when that matters is `RecordingManager.RivalsExactly`.
- SourceRegistry.StopsOnlyTheUnwatched: takes one sweeper at a time; a second sweep started by `sweepNow`, which only tests
  call, the registry's destructor and the remembered bitrates are not modelled.
- MotionEvents.MotionEventRecorder.Observe: the snapshot writer and the image path it adds to a row later.
- MoqWire.Wire.Push: a buffer that cannot be mapped.
- Timeline.NeverOverflows: elsewhere 64-bit counters and instants are unbounded integers; the widths that matter are
  explicit in `Base64`, `ByteRange`, `MoqFeed` and `Timeline`.
- Time.UtcIsRight: `gmtime` and `timegm` are modelled by the proleptic Gregorian calendar and never fail; local time is left out.
- MotionDetector.ZonesTriggered: `atoi` on numbers too large for an int; the JSON the zones are stored in is not parsed.
- Playback.PlaybackSource.Step: pacing, rates other than their effect on deltas, and the wake-ups between passes.
- Recording.SeekTo: the order `std::sort` gives equal elements is left open, as the language leaves it.
- StageRunner.StageRunner.Run: tensors, image operations and the geometry of crops; a report's box is moved by the corner
  of what its crop covered, over real numbers.
- Controllers, data transfer objects, websockets, configuration, the database repositories, the hardware backends, float
  geometry and printing, retry and bitrate policies, launch strings, HLS: either plumbing or easy.
