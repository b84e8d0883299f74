# Verified model of the robot data-collection stack

This project models four parts of the repository in Dafny and proves what they promise over whole
runs. `dafny verify dfyconfig.toml` checks everything. Where the program changes objects in place
the model has a class with the same fields, whose methods are proved to compute functions of the
old state; the theorems are about these functions and the runs they generate.

**Recording.** `SessionControl` publishes a session protocol, `ImageRecorderNode` cuts episodes out
of an image stream by time stamp with a bounded pending queue, `FfmpegRecorder` is the producer and
writer-thread system behind it (queue, three overflow policies, sentinel, lock, state machine of
`RecorderState`), and `RecorderSession` says when its sessions succeed. `EpisodeCut` says exactly
what an episode contains, `RecordingPipeline` connects the layers, `ImageConversion` removes row
padding. An action of `FfmpegRecorder` is one section under the state lock or one operation of the
queue, so a run is an arbitrary interleaving of the controller's and the writer's steps.

**Teleoperation.** `RetargetMath` and `TeleopRetarget` are the clutch mapping and its node,
`FilterBound` bounds what the node publishes, `ClutchPedal` is the pedal, `Deadman` puts pedal,
network and node into one timed system, `EeTwist` differentiates the targets.

**Streams.** `TrajectoryStreamer` (with `Segments`) resamples and streams a planned trajectory,
`MergedStream` reads and merges recorded splits.

**Scene.** `PoseMath` composes poses with a fast rotation, `SceneState` accumulates planning-scene
diffs and answers reset commands. `Quaternion` and `Reals` hold the shared algebra, `Sequences`
filters and subsequences.

## What turned out

- A call that waits for room in a full queue holds the state lock; if a pipe write fails at that
  moment the writer waits for the same lock, and neither goes on. `StuckIffDeadlocked` says that
  this is the only way a call can get stuck, `DeadlockReachable` gives the run.
- `frames_dropped` under drop_oldest can count a frame that was not dropped
  (`OvercountIffQueueEmptied`, `OvercountReachable`).
- An episode is exact under a condition on the arrivals that `EpisodesCutExactly` gives in both
  directions. A start message that is overtaken by more images than the queue holds loses some of
  them (`OvertakenStartLosesFrame`).
- A stop flushes by its own stamp only. An image stamped before the start that arrives after the
  start message becomes part of the episode if it is still queued at the stop (`EarlyImageIsFlushed`)
  and is dropped if it is pushed out before (`PushedOutHandedIff`).
- With no message lost and every heartbeat in time, a held pedal can still lose the clutch in two
  ways that are not failures of the leader stream: a watchdog tick between the engage request and
  the first heartbeat opens it (`HeldPedalCanTrip`), and so does the disengage request of an earlier
  release that arrives late (`LateReleaseOpens`). `OpensIff` gives everything that can open it. After
  the first heartbeat has arrived and a message delay has passed since the press, only the leader
  stream can (`HeldPedalIsKept`, `HeldClutchStaysClosed`).
- The recorder nodes convert every format but mono8 with three channels, while the recorder asks
  for four with bgra8 and rgba8, so these two formats never produce a payload (`PayloadIff`). The
  two nodes differ in whether they check the row length; `PayloadIff` shows that the recorder's
  shape check makes up for the missing one.
- The fast rotation equals the sandwich only for unit quaternions; the error is (1 - |q|^2) v
  (`QuatRotateGap`).
- A reset reproduces the requested objects unless two names are equal or an orientation is all zero
  (`ResetRoundTrip`).
- If several points are planned at the last time, streaming with a rate ends at the first of them,
  so it ends with the last planned positions if and only if that point has the same ones
  (`EndsWithLastPointIff`, `StopsShortOfLastPoint`); with a finite planned speed it has
  (`LastSampleIsLastPoint`).

## What is taken for granted

- Recorder: one controller thread, no concurrent `shutdown()`, and no new start while a writer left
  over from a timed-out stop is alive; the queue size is positive, as the constructor checks.
- Episodes: images arrive in the order of their stamps, none stamped before an episode's start
  arrives after the start message, starts are not stamped before the previous start or stop, the
  pending queue is at least one long. Session messages reach the node in order and without loss.
- Lag bound: leader stamps strictly increase while the clutch is closed, poses are unit, follower
  positions are in the box, the jump test is on. The mapping laws take the alignment quaternion as
  unit.
- Deadman: message delay and watchdog period are bounded; messages may be lost and reordered.
  Availability: no message is lost and heartbeat gap plus message delay is within the timeout.
- Streaming: the clock reaches every time.
- Square roots, spherical interpolation, the arctangent, pi, transforms between frames and the test
  for a JSON object are supplied from outside; a square root is only assumed to square back. The
  jump test compares squares.
- Python's stable `list.sort` is modelled by insertion, which is no restriction since a stable sort
  is unique (`StableSortIsUnique`); `heapq.merge` by its documented order, least head first and
  ties to the earlier stream.

## Model

| member | source | states |
|---|---|---|
| `RecorderState.RecorderStateMachine.Require` | src/rdfp/rdfp/recorder/state.py:148-154 | accepts exactly the listed states and changes nothing |
| `RecorderState.RecorderStateMachine.Transition` | src/rdfp/rdfp/recorder/state.py:173-188 | succeeds exactly for the current state and its allowed targets; a refusal leaves the state alone |
| `RecorderState.RecorderStateMachine.TryTransition` | src/rdfp/rdfp/recorder/state.py:213-220 | additionally needs the current state to be among the given ones, if any are given; never moves when it reports failure |
| `RecorderState.EnteredFrom` | src/rdfp/rdfp/recorder/state.py:35-57 | from which states each state is entered: RECORDING from IDLE and FAILED, STOPPING from RECORDING, IDLE only from STOPPING, FAILED from RECORDING and STOPPING, SHUTDOWN from anywhere |
| `RecorderState.IdleOnlyThroughStopping` | src/rdfp/rdfp/recorder/state.py:35-57 | whatever sequence of transitions is requested, a recording or failed recorder is IDLE again only after STOPPING, and SHUTDOWN is never left |
| `FfmpegRecorder.PhasesStep` | src/rdfp/rdfp/recorder/ffmpeg_mp4_recorder.py:424-462 | one action of either thread keeps: the queue within its size, at most one sentinel and that one last, write sections only while RECORDING, room for the retry after an eviction |
| `FfmpegRecorder.ConservedStep` | src/rdfp/rdfp/recorder/ffmpeg_mp4_recorder.py:650-685 | one action of either thread keeps: accepted frames = delivered + in the writer's hand + queued (in order a subsequence of the accepted ones) + dropped |
| `FfmpegRecorder.RunKeepsInvariant` | src/rdfp/rdfp/recorder/ffmpeg_mp4_recorder.py:316-514 | both invariants hold after every interleaving of the controller's and the writer's atomic sections |
| `FfmpegRecorder.IdleMeansDelivered` | src/rdfp/rdfp/recorder/ffmpeg_mp4_recorder.py:564-569 | in IDLE the encoder has a subsequence, in order, of the accepted frames, frames_written is its length and the rest are the dropped ones; under wait it has exactly the accepted frames |
| `FfmpegRecorder.IdleMeansNoneRefused` | src/rdfp/rdfp/recorder/ffmpeg_mp4_recorder.py:332-337 | if a stop reported IDLE, the recorder is IDLE and no well-formed frame was refused during the session |
| `FfmpegRecorder.OvercountIffQueueEmptied` | src/rdfp/rdfp/recorder/ffmpeg_mp4_recorder.py:451-462 | frames_dropped and the frames really dropped drift apart exactly when the eviction finds the queue emptied; the second Full branch is unreachable |
| `FfmpegRecorder.OvercountReachable` | src/rdfp/rdfp/recorder/ffmpeg_mp4_recorder.py:452-456 | a run under drop_oldest in which frames_dropped is 1 and nothing was dropped |
| `FfmpegRecorder.CallWorkDecreases` | src/rdfp/rdfp/recorder/ffmpeg_mp4_recorder.py:493-507 | inside a call every action of either thread strictly decreases a bound on what is left of the call |
| `FfmpegRecorder.StuckIffDeadlocked` | src/rdfp/rdfp/recorder/ffmpeg_mp4_recorder.py:442-445 | in every reachable state inside a call, nothing at all can happen if and only if the call waits for room while the writer, whose pipe write failed, waits for the lock the call holds; otherwise a step other than a timeout is enabled |
| `FfmpegRecorder.EveryScheduleReturns` | src/rdfp/rdfp/recorder/ffmpeg_mp4_recorder.py:493-514 | every run from inside a call that is at least as long as that bound has passed through the call's return, whatever the schedule |
| `FfmpegRecorder.UnfinishedCallGoesOn` | src/rdfp/rdfp/recorder/ffmpeg_mp4_recorder.py:493-507 | while no pipe write fails, every run that is still inside a call can go on without a timeout |
| `FfmpegRecorder.CallReturns` | src/rdfp/rdfp/recorder/ffmpeg_mp4_recorder.py:493-507 | while no pipe write fails, the return is within reach of the bound's number of steps |
| `FfmpegRecorder.DeadlockReachable` | src/rdfp/rdfp/recorder/ffmpeg_mp4_recorder.py:667-678 | a run that ends in that deadlock |
| `RecorderSession.StartIff` | src/rdfp/rdfp/recorder/ffmpeg_mp4_recorder.py:257-307 | a start succeeds exactly in IDLE and FAILED with a spawned encoder, and the session is then fresh |
| `RecorderSession.CallsIff` | src/rdfp/rdfp/recorder/ffmpeg_mp4_recorder.py:332-333 | a write goes on exactly while RECORDING with a frame of the right size, a stop exactly while RECORDING; otherwise nothing changes |
| `RecorderSession.StopReportsIdleIff` | src/rdfp/rdfp/recorder/ffmpeg_mp4_recorder.py:505-569 | from any state a session can start in and for any interleaving since: its stop reports IDLE if and only if no pipe write failed in the session, the join did not time out and finalising succeeded; otherwise FAILED |
| `RecorderSession.CleanRunsStopIdle` | src/rdfp/rdfp/recorder/ffmpeg_mp4_recorder.py:564-569 | in every run without such a failure, over any number of sessions, every stop has reported IDLE |
| `RecorderSession.AnySessionCanSucceed` | src/rdfp/rdfp/recorder/ffmpeg_mp4_recorder.py:316-337 | for any queue size, policy and frames there is a run that delivers and counts exactly these frames and whose stop reports IDLE |
| `RecorderSession.EncoderGetsWellFormed` | src/rdfp/rdfp/recorder/ffmpeg_mp4_recorder.py:372-376 | in every run the encoder receives only frames that were given to write in the right size |
| `RecorderSession.GivenMeans` | src/rdfp/rdfp/recorder/ffmpeg_mp4_recorder.py:332-333 | which frames these are |
| `RecorderSession.DropsIff` | src/rdfp/rdfp/recorder/ffmpeg_mp4_recorder.py:434-456 | a frame is dropped if and only if drop_newest meets a full queue, and then it is the one being written, or drop_oldest evicts, and then it is the oldest one queued; only wait blocks |
| `FfmpegRecorder.FFMpegMp4Recorder.constructor` | src/rdfp/rdfp/recorder/ffmpeg_mp4_recorder.py:166-199 | a new recorder is the initial state of the transition system |
| `FfmpegRecorder.FFMpegMp4Recorder.Start` | src/rdfp/rdfp/recorder/ffmpeg_mp4_recorder.py:257-307 | refused outside IDLE and FAILED or when the encoder cannot be started; otherwise a fresh queue, zero counters, a new writer, RECORDING |
| `FfmpegRecorder.FFMpegMp4Recorder.BeginWrite` | src/rdfp/rdfp/recorder/ffmpeg_mp4_recorder.py:332-333 | the check without the lock: refused outside RECORDING or for a frame of the wrong size |
| `FfmpegRecorder.FFMpegMp4Recorder.LockAndCheck` | src/rdfp/rdfp/recorder/ffmpeg_mp4_recorder.py:335-336 | the second check under the lock |
| `FfmpegRecorder.FFMpegMp4Recorder.PutNowait` | src/rdfp/rdfp/recorder/ffmpeg_mp4_recorder.py:436-440 | appends, or refuses without change when the queue is full |
| `FfmpegRecorder.FFMpegMp4Recorder.GetNowait` | src/rdfp/rdfp/recorder/ffmpeg_mp4_recorder.py:452-455 | takes the front, or reports an empty queue |
| `FfmpegRecorder.FFMpegMp4Recorder.EnqueueFirst` | src/rdfp/rdfp/recorder/ffmpeg_mp4_recorder.py:434-449 | the first put and the three policies' reactions to a full queue |
| `FfmpegRecorder.FFMpegMp4Recorder.WakeAndPut` | src/rdfp/rdfp/recorder/ffmpeg_mp4_recorder.py:442-445 | the blocked put, once there is room |
| `FfmpegRecorder.FFMpegMp4Recorder.Evict` | src/rdfp/rdfp/recorder/ffmpeg_mp4_recorder.py:451-456 | drops the oldest frame if there is one and counts a drop either way |
| `FfmpegRecorder.FFMpegMp4Recorder.EnqueueAgain` | src/rdfp/rdfp/recorder/ffmpeg_mp4_recorder.py:458-462 | the put after the eviction |
| `FfmpegRecorder.FFMpegMp4Recorder.BeginStop` | src/rdfp/rdfp/recorder/ffmpeg_mp4_recorder.py:493-496 | refused outside RECORDING; otherwise STOPPING, holding the lock |
| `FfmpegRecorder.FFMpegMp4Recorder.PutStopSentinel` | src/rdfp/rdfp/recorder/ffmpeg_mp4_recorder.py:497 | the sentinel goes in behind all frames |
| `FfmpegRecorder.FFMpegMp4Recorder.JoinWriter` | src/rdfp/rdfp/recorder/ffmpeg_mp4_recorder.py:505-514 | whether the writer ended decides whether the drain counts as complete |
| `FfmpegRecorder.FFMpegMp4Recorder.FinishStop` | src/rdfp/rdfp/recorder/ffmpeg_mp4_recorder.py:564-572 | IDLE only from STOPPING with a drained queue and a finalised file, else FAILED; a FAILED set by the writer stays |
| `FfmpegRecorder.FFMpegMp4Recorder.WriterTake` | src/rdfp/rdfp/recorder/ffmpeg_mp4_recorder.py:663-666 | takes the oldest item; the sentinel ends the loop |
| `FfmpegRecorder.FFMpegMp4Recorder.WriterPipe` | src/rdfp/rdfp/recorder/ffmpeg_mp4_recorder.py:667-670 | delivers the frame, or has to report failure |
| `FfmpegRecorder.FFMpegMp4Recorder.WriterCountFrame` | src/rdfp/rdfp/recorder/ffmpeg_mp4_recorder.py:679 | counts the delivered frame |
| `FfmpegRecorder.FFMpegMp4Recorder.WriterGiveUp` | src/rdfp/rdfp/recorder/ffmpeg_mp4_recorder.py:671-678 | FAILED only from RECORDING or STOPPING |
| `ImageRecorderNode.RdfpImageRecorderNode.Image` | src/rdfp/rdfp/recorder/rdfp_image_recorder_node.py:309-328 | late frames after a stop are dropped, a full queue pushes out its oldest frame |
| `ImageRecorderNode.RdfpImageRecorderNode.OnVictim` | src/rdfp/rdfp/recorder/rdfp_image_recorder_node.py:330-347 | the pushed-out frame is handed over or dropped by its stamp |
| `ImageRecorderNode.RdfpImageRecorderNode.Write` | src/rdfp/rdfp/recorder/rdfp_image_recorder_node.py:579-610 | the sidecar line and the counters change only when the recorder accepted the frame |
| `ImageRecorderNode.RdfpImageRecorderNode.Start` | src/rdfp/rdfp/recorder/rdfp_image_recorder_node.py:420-451 | older frames leave the queue even if the recorder then refuses; counters and sidecar are reset only on success |
| `ImageRecorderNode.RdfpImageRecorderNode.Stop` | src/rdfp/rdfp/recorder/rdfp_image_recorder_node.py:470-493 | flushes the frames stamped before the stop, stops the recorder, closes the sidecar, writes metadata only if stop did not raise |
| `EpisodeCut.Leading` | src/rdfp/rdfp/recorder/rdfp_image_recorder_node.py:476-478 | the flushed frames are exactly the leading ones stamped before the stop |
| `EpisodeCut.FlushHands` | src/rdfp/rdfp/recorder/rdfp_image_recorder_node.py:476-481 | a flush hands over the front of the queue in order and leaves the rest |
| `EpisodeCut.DropBeforeKeeps` | src/rdfp/rdfp/recorder/rdfp_image_recorder_node.py:426-430 | a start removes exactly the leading frames stamped before it |
| `EpisodeCut.TracksStep` | src/rdfp/rdfp/recorder/rdfp_image_recorder_node.py:312-347 | one message of any kind keeps: the queue holds the newest arrivals, and during an episode the frames handed over and then the queue are a gapless end of the arrivals |
| `EpisodeCut.TracksAll` | src/rdfp/rdfp/recorder/rdfp_image_recorder_node.py:312-347 | the same after every sequence of ordered events |
| `EpisodeCut.EpisodesCutExactly` | src/rdfp/rdfp/recorder/rdfp_image_recorder_node.py:470-481 | in every run and for every episode: the recorder was handed exactly the arrivals with start <= stamp < stop, once each, in order, if and only if no frame stamped before the stop was missed at the start and none stamped from the stop on was pushed out before the stop message |
| `EpisodeCut.SmallDelaysSuffice` | src/rdfp/rdfp/recorder/rdfp_image_recorder_node.py:312-347 | at most K frames from the start on before the start message, and K from the stop on before the stop message, are enough |
| `EpisodeCut.NothingHandedBetween` | src/rdfp/rdfp/recorder/rdfp_image_recorder_node.py:343-347 | between episodes no image reaches the recorder, in every ordered run |
| `EpisodeCut.PushedOutHandedIff` | src/rdfp/rdfp/recorder/rdfp_image_recorder_node.py:320-347 | in whatever order images arrive: the image pushed out of a full queue is handed over if and only if it is stamped from the start on, or between episodes before the last stop |
| `EpisodeCut.EarlyImageIsFlushed` | src/rdfp/rdfp/recorder/rdfp_image_recorder_node.py:476-481 | a run in which an image stamped before the start, arriving after the start message, is handed over by the stop |
| `EpisodeCut.OvertakenStartLosesFrame` | src/rdfp/rdfp/recorder/rdfp_image_recorder_node.py:424-430 | a run in which a queue of one loses a frame of the episode |
| `RecordingPipeline.LinesAt` | src/rdfp/rdfp/recorder/rdfp_image_recorder_node.py:588-599 | line i of a complete sidecar carries index i and the i-th stamp |
| `RecordingPipeline.RecordDescribes` | src/rdfp/rdfp/recorder/rdfp_image_recorder_node.py:588-609 | one accepted frame keeps index, first and last stamp and lines in step with the accepted frames |
| `RecordingPipeline.BookMatchesAfter` | src/rdfp/rdfp/recorder/rdfp_image_recorder_node.py:571-610 | after every sequence of messages, during a recording the counters describe the accepted frames and the sidecar lists them (all of them if no sidecar write failed) |
| `RecordingPipeline.StopCloses` | src/rdfp/rdfp/recorder/rdfp_image_recorder_node.py:483-493 | the closed files describe the accepted frames of the session |
| `RecordingPipeline.StartOpens` | src/rdfp/rdfp/recorder/rdfp_image_recorder_node.py:434-451 | an accepted start begins a recording with fresh counters and, if it can be opened, an empty sidecar; a refused one leaves both alone |
| `RecordingPipeline.StopClosesFiles` | src/rdfp/rdfp/recorder/rdfp_image_recorder_node.py:483-493 | a stop closes the sidecar that was open and writes metadata exactly if the recorder's stop returned and the file can be written |
| `RecordingPipeline.SidecarIsOpen` | src/rdfp/rdfp/recorder/rdfp_image_recorder_node.py:448-451 | after every run, while recording a sidecar is open exactly if it could be opened at the last start that began a recording |
| `RecordingPipeline.EncoderGotAccepted` | src/rdfp/rdfp/recorder/ffmpeg_mp4_recorder.py:564-569 | after a stop that reported IDLE: accepted = written + dropped, none refused, and under wait the encoder has exactly the accepted frames |
| `RecordingPipeline.FilesMatchEncoder` | src/rdfp/rdfp/recorder/rdfp_image_recorder_node.py:612-647 | across both layers, for any run ending in IDLE: nframe = frames_written + dropped; under wait the metadata and the sidecar lines 0..n-1 describe exactly the delivered frames in delivery order |
| `RecordingPipeline.SidecarListsDelivered` | src/rdfp/rdfp/recorder/rdfp_image_recorder_node.py:588-599 | with a sidecar that could be opened and written: frames_written lines, numbered from 0, with the stamps of the delivered frames in delivery order |
| `RecordingPipeline.EncoderReceivesEpisode` | src/rdfp/rdfp/recorder/rdfp_image_recorder_node.py:470-493 | across both layers: the encoder has exactly the images stamped within the episode if and only if the queue missed none and was not overrun |
| `RecordingPipeline.HandedAreAccepted` | src/rdfp/rdfp/recorder/rdfp_image_recorder_node.py:579-586 | without refusals the frames handed over are the frames accepted |
| `RecordingPipeline.RecordingFollowsSession` | src/rdfp/rdfp/recorder/rdfp_image_recorder_node.py:397-422 | for every command sequence and every interleaving of images: the node is recording exactly while the last delivered state is IN_EPISODE, and a start never reaches it while recording |
| `SessionControl.SessionControlNode.HandleStartSession` | src/rdfp/rdfp/session/session_control_node.py:116-127 | only from IDLE |
| `SessionControl.SessionControlNode.HandleStopSession` | src/rdfp/rdfp/session/session_control_node.py:129-149 | from an episode two messages, the episode's end before the session's |
| `SessionControl.SessionControlNode.HandleStartEpisode` | src/rdfp/rdfp/session/session_control_node.py:151-162 | only from IN_SESSION |
| `SessionControl.SessionControlNode.HandleStopEpisode` | src/rdfp/rdfp/session/session_control_node.py:164-192 | only from IN_EPISODE and with a valid outcome and metadata |
| `SessionControl.SessionControlNode.HandleSetTaskLabel` | src/rdfp/rdfp/session/session_control_node.py:194-209 | not during an episode; published before it is stored |
| `SessionControl.AcceptedIff` | src/rdfp/rdfp/session/session_control_node.py:116-209 | which commands each state accepts, for which outcomes and metadata; a rejected one changes nothing, an accepted one publishes and ends in the command's state with the right label |
| `SessionControl.StopSessionClosesEpisode` | src/rdfp/rdfp/session/session_control_node.py:140-147 | from an episode: the episode's close without outcome, then IDLE, and the node is IDLE |
| `SessionControl.StopEpisodeReports` | src/rdfp/rdfp/session/session_control_node.py:179-192 | the outcome and metadata given are the ones published |
| `SessionControl.HandleConsistent` | src/rdfp/rdfp/session/session_control_node.py:225-248 | every command keeps the trace legal and its last message equal to the node's state and label |
| `SessionControl.TracesAreExactlyLegal` | src/rdfp/rdfp/session/session_control_node.py:116-209 | a message sequence can be published by some sequence of calls if and only if it starts with (IDLE, empty label) and every message may follow the one before it |
| `SessionControl.EpisodeKeepsLabel` | src/rdfp/rdfp/session/session_control_node.py:189-191 | IDLE never directly follows IN_EPISODE, the label is constant through an episode including its close, outcome and metadata occur only on the close, and a label changes only where the state does not |
| `ImageConversion.ConversionErrors` | src/rdfp/rdfp/recorder/image_recorder_node.py:544-556 | which messages are refused for a short buffer and which for a short row, in this order |
| `ImageConversion.PrepareAcceptsIff` | src/rdfp/rdfp/recorder/ffmpeg_mp4_recorder.py:393-414 | the recorder takes exactly arrays of its size and format, mono with or without a channel axis |
| `ImageConversion.RowsAt` | src/rdfp/rdfp/recorder/image_recorder_node.py:562-567 | byte i of row r of the trimmed image is byte r step + i of the message |
| `ImageConversion.PayloadIff` | src/rdfp/rdfp/recorder/image_recorder_node.py:544-567 | for both recorder nodes a message becomes a payload exactly when the format is not a four-channel one, the buffer holds all rows and a row is not shorter than its pixels |
| `ImageConversion.PayloadIsExact` | src/rdfp/rdfp/recorder/ffmpeg_mp4_recorder.py:393-422 | a payload has height width channels bytes, and each of them is the message's byte of the same row, column and channel, with and without padding |
| `Quaternion.MultiplyAssociative` | src/rdfp/rdfp/teleop/retarget_math.py:24-33 | the Hamilton product is associative |
| `Quaternion.HamiltonRules` | src/rdfp/rdfp/teleop/retarget_math.py:24-33 | i j = k and cyclically, the opposite sign in the opposite order, squares -1 |
| `Quaternion.TurnAboutZ` | src/rdfp/rdfp/teleop/retarget_math.py:64-68 | (0, 0, s, c) turns the plane about z twice by the angle with cosine c and sine s, from x towards y |
| `Quaternion.RealDoesNotTurn` | src/rdfp/rdfp/teleop/retarget_math.py:64-68 | a real quaternion scales by its square and does not turn |
| `Quaternion.NormMultiplicative` | src/rdfp/rdfp/teleop/retarget_math.py:24-39 | squared norms multiply |
| `Quaternion.ConjugateIsInverse` | src/rdfp/rdfp/teleop/retarget_math.py:36-39 | a quaternion times its conjugate is its squared norm |
| `Quaternion.SandwichIsPure` | src/rdfp/rdfp/teleop/retarget_math.py:64-68 | the dropped real part of the sandwich is zero |
| `Quaternion.RotationPreservesLength` | src/rdfp/rdfp/teleop/retarget_math.py:64-68 | a unit rotation keeps lengths |
| `Quaternion.RotateByProduct` | src/rdfp/rdfp/teleop/retarget_math.py:64-68 | rotating by a product is rotating twice |
| `PoseMath.QuatRotateGap` | src/rdfp/rdfp/scene/pose_math.py:41-59 | for every quaternion the two-cross-product form exceeds the sandwich by (1 - |q|^2) v |
| `PoseMath.QuatRotateIsSandwichIffUnit` | src/rdfp/rdfp/scene/pose_math.py:41-59 | the fast rotation is the sandwich for every vector if and only if the quaternion is unit |
| `PoseMath.ComposeIdentity` | src/rdfp/rdfp/scene/pose_math.py:62-79 | the identity pose is neutral on both sides |
| `PoseMath.ComposeAssociative` | src/rdfp/rdfp/scene/pose_math.py:62-79 | pose composition is associative when the outer two orientations are unit |
| `PoseMath.ComposeActs` | src/rdfp/rdfp/scene/pose_math.py:62-79 | composing poses composes the transforms: with a unit parent, every point goes where the parent takes what the child does to it |
| `RetargetMath.NormalizeLaw` | src/rdfp/rdfp/teleop/retarget_math.py:42-48 | fails exactly below norm 10^-12; otherwise gives the unit quaternion of which the argument is the multiple by its norm |
| `RetargetMath.TargetOrientationIsUnit` | src/rdfp/rdfp/teleop/retarget_math.py:147-151 | whatever the anchors, a computed target has a unit orientation |
| `RetargetMath.TargetFollowsLeader` | src/rdfp/rdfp/teleop/retarget_math.py:134-151 | the target has turned from the follower's anchor by the leader's rotation from its own anchor, seen through the alignment, and moved by the scaled, aligned displacement |
| `RetargetMath.TargetActs` | src/rdfp/rdfp/teleop/retarget_math.py:147-150 | on every vector the target orientation is the follower anchor's rotation followed by the aligned leader rotation |
| `RetargetMath.LpfLaw` | src/rdfp/rdfp/teleop/retarget_math.py:95-106 | the coefficient solves the first-order filter of the cutoff frequency; 1 without a cutoff, 0 without time passing |
| `RetargetMath.ClampToBoxIsNearest` | src/rdfp/rdfp/teleop/retarget_math.py:109-115 | clamping gives the point of the box nearest to the argument |
| `RetargetMath.TargetIsUnit` | src/rdfp/rdfp/teleop/retarget_math.py:118-151 | with unit orientations the mapping never fails and its orientation is unit |
| `RetargetMath.AnchorMapsToAnchor` | src/rdfp/rdfp/teleop/retarget_math.py:118-151 | at the leader anchor the target is the follower anchor |
| `RetargetMath.DistancesScale` | src/rdfp/rdfp/teleop/retarget_math.py:134-145 | distances between targets are position_scale times the leader's distances |
| `RetargetMath.ReanchoringKeepsTargets` | src/rdfp/rdfp/teleop/retarget_math.py:118-151 | re-anchoring at any reached leader/target pair leaves every later target unchanged |
| `TeleopRetarget.TeleopRetargetNode.constructor` | src/rdfp/rdfp/teleop/teleop_retarget_node.py:147-165 | starts disengaged and announces it |
| `TeleopRetarget.TeleopRetargetNode.Release` | src/rdfp/rdfp/teleop/teleop_retarget_node.py:380-388 | changes and announces only when engaged |
| `TeleopRetarget.TeleopRetargetNode.Engage` | src/rdfp/rdfp/teleop/teleop_retarget_node.py:355-378 | refused when a pose is missing or stale; otherwise anchors and filter are captured |
| `TeleopRetarget.TeleopRetargetNode.HandleClutch` | src/rdfp/rdfp/teleop/teleop_retarget_node.py:285-296 | success means that the request is fulfilled afterwards |
| `TeleopRetarget.TeleopRetargetNode.HandleHeartbeat` | src/rdfp/rdfp/teleop/teleop_retarget_node.py:313-316 | records the time |
| `TeleopRetarget.TeleopRetargetNode.HandleTick` | src/rdfp/rdfp/teleop/teleop_retarget_node.py:318-349 | the three timeouts in order |
| `TeleopRetarget.TeleopRetargetNode.HandleFollower` | src/rdfp/rdfp/teleop/teleop_retarget_node.py:278-283 | records the pose for the next engage |
| `TeleopRetarget.TeleopRetargetNode.HandleLeader` | src/rdfp/rdfp/teleop/teleop_retarget_node.py:217-276 | hold republication, duplicate and jump handling, mapping, clamp and filter, and exactly when the callback raises |
| `TeleopRetarget.TeleopRetargetNode.FollowLeader` | src/rdfp/rdfp/teleop/teleop_retarget_node.py:255-276 | one filter step towards the clamped target, or a raise before anything is changed |
| `TeleopRetarget.ClosesIff` | src/rdfp/rdfp/teleop/teleop_retarget_node.py:355-378 | the clutch closes exactly on an engage request with recent poses of both arms, which become the anchors, and the filter starts at the follower |
| `TeleopRetarget.OpensFor` | src/rdfp/rdfp/teleop/teleop_retarget_node.py:318-349 | what opens a closed clutch, in which order it is checked, and the reason announced for it |
| `TeleopRetarget.Records` | src/rdfp/rdfp/teleop/teleop_retarget_node.py:217-283 | what each event records |
| `TeleopRetarget.PublishesWhen` | src/rdfp/rdfp/teleop/teleop_retarget_node.py:232-276 | the held target while open, nothing for a duplicate, otherwise the filter's new state, with the sample's stamp |
| `TeleopRetarget.FilterLaw` | src/rdfp/rdfp/teleop/teleop_retarget_node.py:255-276 | a followed sample leaves 1 - alpha of the way to the clamped target on each axis and interpolates the orientation by alpha from the filter's to the target's |
| `TeleopRetarget.AnnouncementsAlternate` | src/rdfp/rdfp/teleop/teleop_retarget_node.py:390-395 | after every sequence of events the state topic starts disengaged, alternates, and ends with the current state and reason |
| `FilterBound.AxisStep` | src/rdfp/rdfp/teleop/teleop_retarget_node.py:266-272 | one filter step on one axis keeps the lag bound and moves by a bounded amount |
| `FilterBound.GoalMoves` | src/rdfp/rdfp/teleop/teleop_retarget_node.py:248-262 | an accepted sample moves the clamped target by at most scale max_sample_jump per axis |
| `FilterBound.EngagedSample` | src/rdfp/rdfp/teleop/teleop_retarget_node.py:239-276 | an engaged sample either opens the clutch as a jump or publishes a target inside the box, within the lag bound of its goal and a bounded move from the last |
| `FilterBound.EngageTracks` | src/rdfp/rdfp/teleop/teleop_retarget_node.py:370-375 | engaging starts the filter at its goal |
| `FilterBound.RunStaysGood` | src/rdfp/rdfp/teleop/teleop_retarget_node.py:239-276 | over every run whose stamps increase while engaged: all targets are inside the workspace box and the per-axis lag is at most scale max_sample_jump (1 - a) / a |
| `FilterBound.EqualSpacingMove` | src/rdfp/rdfp/teleop/teleop_retarget_node.py:264-272 | at a spacing with coefficient a no coordinate moves by more than scale max_sample_jump |
| `FilterBound.LeaderNeverRaises` | src/rdfp/rdfp/teleop/teleop_retarget_node.py:255-259 | in such a run no leader callback raises |
| `ClutchPedal.ClutchPedalNode.EnsureDevice` | src/rdfp/rdfp/teleop/clutch_pedal_node.py:184-197 | connects when a device is found |
| `ClutchPedal.ClutchPedalNode.Press` | src/rdfp/rdfp/teleop/clutch_pedal_node.py:258-268 | engage in hold mode, toggle otherwise, nothing when already pressed |
| `ClutchPedal.ClutchPedalNode.Release` | src/rdfp/rdfp/teleop/clutch_pedal_node.py:270-277 | disengage in hold mode only |
| `ClutchPedal.ClutchPedalNode.LoseDevice` | src/rdfp/rdfp/teleop/clutch_pedal_node.py:199-213 | a pressed pedal is released in either mode |
| `ClutchPedal.ClutchPedalNode.BeatTimer` | src/rdfp/rdfp/teleop/clutch_pedal_node.py:279-282 | a heartbeat only while pressed |
| `ClutchPedal.HoldModeAlternates` | src/rdfp/rdfp/teleop/clutch_pedal_node.py:199-277 | over every sequence of presses, releases and unpluggings in hold mode the requests alternate, engage first, and the last is an engage exactly while the pedal is pressed |
| `ClutchPedal.ToggleModeSends` | src/rdfp/rdfp/teleop/clutch_pedal_node.py:199-277 | in toggle mode a new press toggles, a release sends nothing, unplugging a pressed pedal disengages |
| `ClutchPedal.PressedFollows` | src/rdfp/rdfp/teleop/clutch_pedal_node.py:199-277 | the pedal counts as pressed exactly from a press to the next release or unplugging |
| `ClutchPedal.BeatsWhileEngaging` | src/rdfp/rdfp/teleop/clutch_pedal_node.py:279-282 | heartbeats exactly between an engage request and its disengage request, none in toggle mode |
| `Deadman.SafeStep` | src/rdfp/rdfp/teleop/teleop_retarget_node.py:318-349 | every step of the pedal, the network and the node keeps the timing invariant |
| `Deadman.RunIsSafe` | src/rdfp/rdfp/teleop/teleop_retarget_node.py:318-349 | the invariant over every run, with delayed, reordered and lost messages |
| `Deadman.DeadmanOpens` | src/rdfp/rdfp/teleop/teleop_retarget_node.py:318-349 | once the pedal is released, unplugged or its node dead at r, the clutch is open at every time after r + delay + pedal_timeout + tick period until a new press |
| `Deadman.OpensIff` | src/rdfp/rdfp/teleop/teleop_retarget_node.py:318-349 | a step opens a closed clutch if and only if it delivers a disengage request, is a tick that finds the heartbeat missing or stale, or is a failure of the leader stream (stale at a tick, or a jump) |
| `Deadman.RunReleasesPrecede` | src/rdfp/rdfp/teleop/clutch_pedal_node.py:258-277 | in every run, a disengage request in flight while the pedal is held is older than the press |
| `Deadman.HeldPedalIsFresh` | src/rdfp/rdfp/teleop/teleop_retarget_node.py:334-343 | with no loss and heartbeats arriving within the timeout, the pedal check never fires on a held pedal once its first heartbeat has arrived |
| `Deadman.HeldPedalIsKept` | src/rdfp/rdfp/teleop/teleop_retarget_node.py:318-349 | in every such run, once also the messages from before the press have been delivered, a step opens the clutch of a held pedal if and only if the leader stream fails |
| `Deadman.HeldClutchStaysClosed` | src/rdfp/rdfp/teleop/teleop_retarget_node.py:318-349 | over whole runs: from then on the clutch stays closed through any further events and any order of messages, as long as the pedal is held and the leader stream does not fail |
| `Deadman.LateReleaseOpens` | src/rdfp/rdfp/teleop/teleop_retarget_node.py:285-296 | for every configuration a run in which the disengage request of an earlier release arrives last and opens the clutch of a held pedal whose first heartbeat has arrived |
| `Deadman.HeldPedalCanTrip` | src/rdfp/rdfp/teleop/teleop_retarget_node.py:335-339 | for every configuration a run in which a watchdog tick before the first heartbeat opens the clutch of a held pedal |
| `Deadman.LeaderSilenceOpens` | src/rdfp/rdfp/teleop/teleop_retarget_node.py:345-349 | over every run: once the leader stream is silent the clutch is open after the larger of watchdog_timeout and pose_staleness plus one tick period |
| `EeTwist.EeTwistPublisher.Handle` | src/rdfp/rdfp/moveit/ee_twist_publisher.py:137-179 | every sample is remembered, a twist is sent only for 0 < dt <= max_dt |
| `EeTwist.TwistsTelescope` | src/rdfp/rdfp/moveit/ee_twist_publisher.py:156-162 | integrating the sent twists gives linear_gain times the net displacement |
| `EeTwist.SentIff` | src/rdfp/rdfp/moveit/ee_twist_publisher.py:137-164 | a twist is sent exactly for a sample later than the one before by at most max_dt; its angular part is the gain times the angular velocity |
| `EeTwist.AngularVelocityLaw` | src/rdfp/rdfp/moveit/ee_twist_publisher.py:186-204 | the angular velocity turns about the axis of the shorter relative rotation, through 2 atan2(n, w) in the time between the samples, and is zero below n = 10^-9 |
| `EeTwist.RelativeRotates` | src/rdfp/rdfp/moveit/ee_twist_publisher.py:193-197 | the relative rotation takes the first orientation to the second |
| `EeTwist.SamePoseSendsZero` | src/rdfp/rdfp/moveit/ee_twist_publisher.py:193-204 | equal poses give a zero twist, linear and angular |
| `EeTwist.SignOfRotation` | src/rdfp/rdfp/moveit/ee_twist_publisher.py:193-204 | the two quaternions of one rotation give the same angular velocity, except at a half turn, where they give opposite ones |
| `EeTwist.ReverseRotation` | src/rdfp/rdfp/moveit/ee_twist_publisher.py:193-204 | the way back has the opposite angular velocity |
| `EeTwist.HoldSendsZeroTwists` | src/rdfp/rdfp/teleop/teleop_retarget_node.py:232-237 | fed by the retargeting node, every twist after the first republished target of an open clutch is zero until it closes |
| `TrajectoryStreamer.IndexOf` | src/rdfp/rdfp/moveit/trajectory_streamer.py:360 | the first place of a name |
| `TrajectoryStreamer.BuildIndexMap` | src/rdfp/rdfp/moveit/trajectory_streamer.py:347-360 | each command entry gets the first joint of its name; fails exactly when a name is missing and then reports exactly the missing ones |
| `TrajectoryStreamer.BuildGrid` | src/rdfp/rdfp/moveit/trajectory_streamer.py:380-386 | the loop builds the grid |
| `TrajectoryStreamer.GridLaw` | src/rdfp/rdfp/moveit/trajectory_streamer.py:380-386 | for any step the grid starts at 0, grows by at most the step and ends at the duration |
| `TrajectoryStreamer.SamplesAreDue` | src/rdfp/rdfp/moveit/trajectory_streamer.py:376-390 | with a rate, sample g is due g / rate after the start, gaps are at most 1 / rate, and the last sample is due at the scaled time of the last point |
| `TrajectoryStreamer.NegativeDuration` | src/rdfp/rdfp/moveit/trajectory_streamer.py:380-386 | a plan that ends before its start gives one sample |
| `TrajectoryStreamer.SamplesArePoints` | src/rdfp/rdfp/moveit/trajectory_streamer.py:376-378 | without a rate, sample k is point k, due at its scaled time |
| `Segments.CarriedSearchAgrees` | src/rdfp/rdfp/moveit/trajectory_streamer.py:390-393 | continuing the search from the previous segment finds what a search from the start finds |
| `TrajectoryStreamer.Interpolated` | src/rdfp/rdfp/moveit/trajectory_streamer.py:394-400 | one command, joint by joint |
| `TrajectoryStreamer.Advance` | src/rdfp/rdfp/moveit/trajectory_streamer.py:392-393 | the inner loop reaches the segment and its moves are counted |
| `TrajectoryStreamer.Resample` | src/rdfp/rdfp/moveit/trajectory_streamer.py:388-401 | the carried pointer gives the samples of a fresh search at every grid time and moves fewer times in all than there are points |
| `TrajectoryStreamer.BuildSamples` | src/rdfp/rdfp/moveit/trajectory_streamer.py:368-401 | with and without a rate; fails exactly when a point that is needed has too few positions |
| `Segments.RatioScaled` | src/rdfp/rdfp/moveit/trajectory_streamer.py:396-397 | the ratio is the clamped time on the segment over its duration |
| `Segments.SpeedIsKept` | src/rdfp/rdfp/moveit/trajectory_streamer.py:388-401 | on one joint, positions any number of segments apart differ by at most V times their time difference |
| `Segments.FinalPosition` | src/rdfp/rdfp/moveit/trajectory_streamer.py:394-397 | for nondecreasing times the final position of a joint is that of the first point planned at the last time |
| `TrajectoryStreamer.SamplesKeepSpeed` | src/rdfp/rdfp/moveit/trajectory_streamer.py:388-401 | if every planned segment moves each joint by at most V times its duration, any two commands differ by at most V times their time difference, and sample times do not decrease |
| `TrajectoryStreamer.LastSampleIsLastPoint` | src/rdfp/rdfp/moveit/trajectory_streamer.py:382-386 | with a planned speed the last sample is due at the duration and is the last planned position |
| `TrajectoryStreamer.EndsWithLastPointIff` | src/rdfp/rdfp/moveit/trajectory_streamer.py:376-401 | for nondecreasing times, streaming with a rate ends with the last planned positions if and only if the first point planned at the last time has them |
| `TrajectoryStreamer.EndsWithLastPointUnsampled` | src/rdfp/rdfp/moveit/trajectory_streamer.py:377-378 | without a rate it always does |
| `TrajectoryStreamer.StopsShortOfLastPoint` | src/rdfp/rdfp/moveit/trajectory_streamer.py:392-397 | a plan with two points at the last time that is left at the first of them |
| `TrajectoryStreamer.EntryBetweenNeighbours` | src/rdfp/rdfp/moveit/trajectory_streamer.py:394-400 | at every time, entry j lies between the positions of the joint named command_joint_names[j] in two consecutive points, and these enclose every time within the plan |
| `TrajectoryStreamer.CommandsAreProportional` | src/rdfp/rdfp/moveit/trajectory_streamer.py:394-400 | within the plan an entry has made the part of the way between two points that the time since the first is of the time between them |
| `TrajectoryStreamer.CommandAtPlannedTime` | src/rdfp/rdfp/moveit/trajectory_streamer.py:390-400 | at a planned time the command has the positions of the first point planned then |
| `TrajectoryStreamer.PlanLaw` | src/rdfp/rdfp/moveit/trajectory_streamer.py:229-245 | when a call is accepted and which error is raised otherwise, in the order of the checks |
| `TrajectoryStreamer.NeverEarly` | src/rdfp/rdfp/moveit/trajectory_streamer.py:258-268 | no sample is published before its time since the start or after a stop was seen |
| `TrajectoryStreamer.TrajectoryStreamer.ResolveJointNames` | src/rdfp/rdfp/moveit/trajectory_streamer.py:149-185 | a known order is reused, an answer is remembered, an empty or missing one fails |
| `TrajectoryStreamer.TrajectoryStreamer.Stream` | src/rdfp/rdfp/moveit/trajectory_streamer.py:229-274 | the first failing check decides the error and nothing is published; otherwise exactly the samples due before a stop is seen are published in order, each when it is due, and their number returned |
| `TrajectoryStreamer.TrajectoryStreamer.PublishUntilStopped` | src/rdfp/rdfp/moveit/trajectory_streamer.py:258-274 | each sample is published at the first look at which it is due, none after a stop is seen, and the streaming flag is cleared |
| `TrajectoryStreamer.SleepUntil` | src/rdfp/rdfp/moveit/trajectory_streamer.py:404-416 | returns at the first look that sees a stop or the deadline, and a stop wins |
| `MergedStream.KeyOrder` | src/rdfp/rdfp/rosbag/mcap_reader.py:79 | stamp and then topic is a total order |
| `MergedStream.TopicAtMostIff` | src/rdfp/rdfp/rosbag/mcap_reader.py:79 | topics are compared at the first place where they differ, or by one being a prefix of the other |
| `MergedStream.StableSortIsUnique` | src/rdfp/rdfp/rosbag/mcap_reader.py:79 | only one sequence is sorted and keeps the order of equal keys |
| `MergedStream.StableSortSorts` | src/rdfp/rdfp/rosbag/mcap_reader.py:79 | the modelled sort is sorted, stable and a permutation |
| `MergedStream.IterSplitMessages` | src/rdfp/rdfp/rosbag/mcap_reader.py:54-80 | the loop filters, and its sorted buffer is the stable sort of the wanted messages |
| `MergedStream.WantedMembers` | src/rdfp/rdfp/rosbag/mcap_reader.py:58-77 | exactly the records with a stamp, a wanted topic and lo <= stamp < hi give messages |
| `MergedStream.LeastHeadLaw` | src/rdfp/rdfp/rosbag/merged_stream.py:33-35 | the chosen head is least, and strictly less than the heads of earlier splits |
| `MergedStream.MergeIsStableSort` | src/rdfp/rdfp/rosbag/merged_stream.py:33-35 | merging sorted streams gives the stable sort of their concatenation, with the same messages |
| `MergedStream.MergeIsOneFile` | src/rdfp/rdfp/rosbag/merged_stream.py:29-35 | merging any number of filtered, sorted splits gives exactly what one file with all their records would give: sorted, nothing lost or doubled, ties by split and then by position |
| `MergedStream.MergedInOrder` | src/rdfp/rdfp/rosbag/merged_stream.py:29-35 | stamps ascend, topics ascend at equal stamps, and the messages of one stamp and topic are in split and record order |
| `MergedStream.MergedMembers` | src/rdfp/rdfp/rosbag/mcap_reader.py:58-77 | a message is yielded if and only if some split holds a record with its topic, type, body and log time whose header stamp is the message's and passes the filters |
| `SceneState.ApplyLaw` | src/rdfp/rdfp/scene/mock_scene_state_node.py:152-178 | one message changes exactly the entry it names, or clears all; ids stay distinct |
| `SceneState.MoveLaw` | src/rdfp/rdfp/scene/mock_scene_state_node.py:162-174 | after a MOVE a known object is at the message's pose with unchanged geometry; an unknown one stays unknown |
| `SceneState.RemoveLaw` | src/rdfp/rdfp/scene/mock_scene_state_node.py:154-160 | an empty id removes all, another only the object that has it, and the others keep their order |
| `SceneState.FoldLaw` | src/rdfp/rdfp/scene/mock_scene_state_node.py:149-150 | after any diff an entry is decided by the messages that name its id and by the clearing ones |
| `SceneState.UntouchedStays` | src/rdfp/rdfp/scene/mock_scene_state_node.py:149-150 | a diff that neither names an object nor clears leaves it alone |
| `SceneState.FullSceneIsClearAndAdd` | src/rdfp/rdfp/scene/mock_scene_state_node.py:145-147 | a full scene is the same as clearing and adding |
| `SceneState.MovesKeepShapes` | src/rdfp/rdfp/scene/mock_scene_state_node.py:162-174 | moves never add, remove, reorder or reshape an object |
| `SceneState.OnCommand` | src/rdfp/rdfp/scene/mock_scene_state_node.py:189-208 | a diff is sent exactly for a reset with the service ready and all types supported; the first obstacle decides the refusal |
| `SceneState.NamesInvert` | src/rdfp/rdfp/scene/mock_scene_state_node.py:77-86 | type names and primitive numbers are inverse |
| `SceneState.AddsAppend` | src/rdfp/rdfp/scene/mock_scene_state_node.py:178 | adding objects appends them all, or ends up shorter exactly when ids repeat |
| `SceneState.ConvertBack` | src/rdfp/rdfp/scene/mock_scene_state_node.py:227-252 | converting a requested object back gives it with its pose, an all-zero orientation read as no rotation |
| `SceneState.ResetRoundTrip` | src/rdfp/rdfp/scene/mock_scene_state_node.py:196-208 | from any cache, folding in a reset's diff and publishing gives exactly the requested objects in order if and only if their names differ and no orientation is all zero |
| `SceneState.BaseFrameIsOneFrame` | src/rdfp/rdfp/scene/mock_scene_state_node.py:322-355 | with unit rotations the two compositions may be grouped either way |
| `SceneState.ConvertIff` | src/rdfp/rdfp/scene/mock_scene_state_node.py:281-320 | an object is published if and only if it has geometry of a known type and its frame is known, under its id and with the geometry's type and dimensions |
| `SceneState.PublishedPoseActs` | src/rdfp/rdfp/scene/mock_scene_state_node.py:322-355 | the published pose takes every point of the geometry to where the geometry's pose, the object's and the frame's take it one after the other |
| `SceneState.AsTuplesActs` | src/rdfp/rdfp/scene/mock_scene_state_node.py:368-379 | an all-zero orientation does not turn |
| `SceneState.PublishedConcat` | src/rdfp/rdfp/scene/mock_scene_state_node.py:266-271 | the convertible objects are published in the order of the cache and each by itself |
| `SceneState.AddedAsOnePrimitive` | src/rdfp/rdfp/scene/mock_scene_state_node.py:227-252 | a requested object is added as one primitive of its type and dimensions that stays where the object is |
| `SceneState.MockSceneStateNode.Apply` | src/rdfp/rdfp/scene/mock_scene_state_node.py:152-178 | remove, clear, move and replace |
| `SceneState.MockSceneStateNode.PlanningScene` | src/rdfp/rdfp/scene/mock_scene_state_node.py:135-150 | a full scene replaces, a diff folds, ids stay distinct |
| `SceneState.MockSceneStateNode.OnTimer` | src/rdfp/rdfp/scene/mock_scene_state_node.py:266-277 | publishes the convertible objects in dictionary order |

## Left out

- TrajectoryStreamer.TrajectoryStreamer.Stream: a stop is whatever a look at the events sees; the event flags themselves, the length of the sleeps between looks and the joint lookup's timeout are not modelled.
- TeleopRetarget.TeleopRetargetNode.HandleLeader: when the callback raises, nothing in the node catches it and the process ends; the model reports the raise, and its runs then go on with the state as it was left. LeaderNeverRaises gives runs in which this cannot happen.
- FfmpegRecorder.FFMpegMp4Recorder.Start: missing paths, existing files and a failing encoder process are one environment choice, as are the ways finalising can fail; the writer's catch-all handler is not distinguished from the pipe failure.
- FfmpegRecorder.CallReturns: covers runs in which no pipe write fails; StuckIffDeadlocked says what can happen otherwise.
- RetargetMath.DistancesScale: stated for squared distances, so that no root is needed.
- ImageConversion.PayloadIff: for positive image sizes, which the resolution parameter's parser enforces; arrays are contiguous bytes.
- SceneState.MockSceneStateNode.Apply: stored messages are values, so a MOVE cannot reach an object through another reference.
- SceneState.ResetRoundTrip: takes the planning scene to publish the diff it was sent.
- shutdown(), destroy_node() and the pedal node's shutdown(): forced clean-up outside the protocols above.
- The deferred start, the invalid-frame counter and the automatic stop of the other recorder node: simple counters around the modelled conversion.
- Stamps and header fields of session messages, log lines and their throttling, response texts.
- ROS publishers, executors, quality-of-service negotiation, parameters and TF lookup: they are the events and traces of the model.
- ffmpeg, encoder selection, processes and file names: the pipe is a sequence that may fail.
- quat_from_rpy, quat_slerp and the values of the arctangent: trigonometry.
- Floating-point rounding: reals; time stamps are integers or reals.
- Toggle mode of the pedal beyond what the pedal sends, and the clutch client: thin wrappers.
- Database, dataset tools, rosbag catalogue, MoveIt and servo clients, cameras, viewers and GUIs: input/output or easier members.
