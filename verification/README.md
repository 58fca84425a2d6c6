# Verified model of an SRTLA streaming output

The program is an OBS output plugin in C++ with an engine in Rust. It muxes encoded video into
MPEG-TS datagrams, queues them for a send worker, keeps an SRT session alive over several network
links, and adapts the encoder's bitrate to the congestion it observes. This project models its
stateful core in Dafny and proves what that core keeps over every run and every interleaving.

- `Words` holds the bounded integers and their wrapping and saturating arithmetic.
- `Abr` is the bitrate controller; `AbrLaw` its control law in the figures of a sample, `AbrBaselines`
  what it learns over runs, `AbrRuns` its growth envelopes, rate limits and spike masking.
- `Engine` is the engine around it; `EngineLaw` what a tick does, `EngineRuns` the coupling of target and applied rate,
  indifference to repeated samples and to telemetry, and what is learned from what.
- `MediaQueue` is the bounded, keyframe-aware queue; `Pipeline` the transition system of encoder
  callback, worker, reconnect callback and start/stop around it, `Delivery` what it takes and keeps.
- `SrtSession` is the connector thread against `stop()`; `Reconnects` its product with the pipeline,
  `SampleOrigin` its product with the ABR worker and the engine.
- `EncoderBitrate` is the save, override and restore of a shared encoder's bitrate; `BitrateLoop` its
  product with the engine.
- `MediaStream` is the packetizer feeding the pipeline.
- `Utf8`, `Packetizer`, `LinkId`, `LinkList`, `LinkAdmin` and `LinkFigures` are the smaller algorithms.

State that the program updates in place is a class here; each method is proved against a function
on its old state, and the theorems are about those functions. In the transition systems one event
is one lock-protected section, one atomic flag access or one status report, and all orders are
possible that the locks and joins allow. Foreign results (sends, connects, encoder settings, muxer
output) are arbitrary.

What the models take for granted about their surroundings: ending the capture waits for an encoder
callback under way and encoder callbacks are serial; start and stop of one output or session do not
overlap; `srt_create_socket` returns a handle not seen before; ABR figures are real numbers.

## Where an expected law fails

- Target and applied bitrate drift apart when the ceiling is raised over a rate it had cut off, or
  a zero rate is set on a zero floor: `EngineRuns.CouplingStep` gives the exact condition.
- Dropping idle ticks shows in the controller under such a raised ceiling (`EngineRuns.StutterShows`),
  and in the current bitrate while a rate outside the limits was last cut by an idle tick, which needs
  no ceiling call (`EngineRuns.StutteringExact`, `EngineRuns.IdleTickTrims`).
- A new connection can learn the figures of the old one, because reading and submitting them are two
  steps: `SampleOrigin.LearnsFromCurrent` gives the exact condition.
- A stop does not reset the controller, so until the session is revived its old thresholds are still
  published, though the applied bitrates are those of a new one: `EngineRuns.StopForgets`.
- A keyframe's flag reaches the queue only if a full datagram completes during its own write, so a
  stream of small keyframes never resumes after a reconnect: `Packetizer.KeyframeFlagged`,
  `MediaStream.SmallKeyframesNeverResume`.
- A shared encoder keeps another bitrate if a manual switch reaches it before the save, or if its own
  needs more than 32 bits: `EncoderBitrate.RestoredExactly`. So it does if its settings cannot be read
  at save or restore: `EncoderBitrate.UnreadableNotRestored`.
- The encoder can exceed its ceiling until the next tick's write, after a ceiling lowered in mid-tick
  or in mid-start, or a switch from a higher manual rate: `EncoderBitrate.StaleRateTopsCeiling`,
  `EncoderBitrate.LaunchTopsCeiling`, `EncoderBitrate.CeilingEntry`, `BitrateLoop.NextTickRepairs`.

## Model

| member | source | states |
|---|---|---|
| `Pipeline.SentInOrder` | plugin/srtla-output.cpp:573-656 | In every interleaving of encoder callback, worker, reconnects, starts and stops, the sent datagrams are arrivals of the current start, in arrival order and without duplicates, and one that does not directly continue the previous one carries the keyframe flag. |
| `Pipeline.QueueBounded` | plugin/srtla-output.cpp:593-621 | In every reachable state the byte counter equals the sum of the queued sizes and is at most 8 MiB, a pop subtracts without wrapping, a start that clears only the deque finds the counter at zero, and with non-decreasing timestamps the queue spans at most two seconds. |
| `Pipeline.ReconnectDiscardsStale` | plugin/srtla-output.cpp:573-591 | After a flush, in any continuation of the same start, at most one datagram accepted before it is still sent, namely the one then in flight, first; whatever follows starts at a keyframe. |
| `Pipeline.ResumingRun` | plugin/srtla-output.cpp:573-656 | The invariant behind that, over the sent, in-flight and queued datagrams together, holds in every later state. |
| `Pipeline.Reachable` | plugin/srtla-output.cpp:573-656 | Control, accounting, order and span invariants hold in every state of every behaviour. |
| `Pipeline.ControlStep` | plugin/srtla-output.cpp:871-974 | The start/stop sequence: running only while live, capture and worker only where the sequence allows them, and every path to not-running has emptied queue and counter. |
| `Pipeline.OrderedStep` | plugin/srtla-output.cpp:593-656 | Every atomic section keeps the line of sent, in-flight and queued datagrams in arrival order, with gaps only before keyframes, and contiguous with the arrivals while the queue is not dropping. |
| `Pipeline.AccountedEnqueue` | plugin/srtla-output.cpp:593-621 | Offering any datagram keeps the counter exact and within 8 MiB, in spite of wrapping arithmetic. |
| `Pipeline.AccountedPop` | plugin/srtla-output.cpp:634-641 | Popping subtracts exactly the size of the head. |
| `Pipeline.SpannedStep` | plugin/srtla-output.cpp:608-616 | With non-decreasing timestamps every section keeps the queued span within two seconds. |
| `Pipeline.EnqueueOutcome` | plugin/srtla-output.cpp:593-621 | An offer keeps the queue, or empties it for a keyframe that ends a drop, and appends the datagram exactly when the queue is not left dropping; a drop ends only with a keyframe. |
| `Delivery.TakesWhatFits` | plugin/srtla-output.cpp:608-619 | A queue that is not dropping takes a datagram exactly if it fits: at most 8 MiB with what is queued and, on a non-empty queue, at most 180000 ticks past the head; otherwise the queue stays and a drop begins. |
| `Delivery.TakesKeyframe` | plugin/srtla-output.cpp:601-619 | A dropping queue ignores all but a keyframe, for which it is emptied and which ends the drop if it fits. |
| `Delivery.NothingLost` | plugin/srtla-output.cpp:593-656 | From the preparation of the queue on, without flush, failed send or stop, what was sent, is in flight or queued is everything that arrived exactly if every arrival did fit, in every interleaving. |
| `Delivery.CompleteIsEverything` | plugin/srtla-output.cpp:593-656 | Sent, in-flight and queued datagrams never outnumber the arrivals, and when they are as many they are the arrivals, in order. |
| `Delivery.PreparedComplete` | plugin/srtla-output.cpp:910-916 | A prepared queue is empty, counts nothing, and is not dropping. |
| `Delivery.GoesLive` | plugin/srtla-output.cpp:871-940 | A start can be carried through to a live stream. |
| `Delivery.Delivers` | plugin/srtla-output.cpp:593-641 | There a datagram that fits, with nothing queued before it, can be taken, popped and sent. |
| `Delivery.WorkerLeaves` | plugin/srtla-output.cpp:449-460 | Once told to stop, the worker finds nothing to pop, leaves after its send and can be joined. |
| `MediaQueue.SrtlaOutput.EnqueueDatagram` | plugin/srtla-output.cpp:593-621 | The in-place section has the effect of the queue function on the protected fields, and none when the output is not running or the datagram is empty. |
| `MediaQueue.SrtlaOutput.TakeNext` | plugin/srtla-output.cpp:627-641 | The worker's locked section returns the head and removes it, or returns nothing and changes nothing when told to stop with an empty queue. |
| `MediaQueue.SrtlaOutput.SendFailed` | plugin/srtla-output.cpp:642-652 | After a failed send the worker exits if stopping, otherwise empties the queue and drops until a keyframe. |
| `MediaQueue.SrtlaOutput.OnReconnecting` | plugin/srtla-output.cpp:580-591 | A reconnect notice empties queue and counter and drops until a keyframe. |
| `MediaQueue.SrtlaOutput.SignalStop` | plugin/srtla-output.cpp:449-460 | Stopping empties queue and counter and raises the worker's stop flag. |
| `MediaQueue.SrtlaOutput.PrepareQueue` | plugin/srtla-output.cpp:910-916 | A start clears the deque and both flags but leaves the byte counter. |
| `AbrRuns.GrowthEnvelope` | engine/src/abr.rs:272-308 | Over any run without outside bitrate changes or resets, k increases with any decreases between give 30^k (end + 900000) <= 31^k (start + 900000). |
| `AbrRuns.ClimbRate` | engine/src/abr.rs:272-308 | If the k increases are uncapped and nothing decreases, 30^k (end + 899971) >= 31^k (start + 899971). |
| `AbrRuns.RaisesBounded` | engine/src/abr.rs:272-308 | Hence the number of such increases times (start + 899971) is at most thirty times the distance to the ceiling. |
| `AbrRuns.StepGrowth` | engine/src/abr.rs:272-308 | Only an increase lifts the target, by at most a thirtieth plus 30 kb/s. |
| `AbrRuns.LimitsKept` | engine/src/abr.rs:183-218 | The target stays within minimum and maximum, and the minimum is fixed, over every run of ticks, ceiling changes, bitrate sets and resets. |
| `AbrRuns.NewWithinLimits` | engine/src/abr.rs:150-175 | Every newly built controller is within its limits and has learned nothing, so the run theorems hold from construction. |
| `AbrRuns.RaisesSpaced` | engine/src/abr.rs:293-301 | Between resets, n increases span at least 501 (n - 1) ms of tick time. |
| `AbrRuns.DecreasesSpaced` | engine/src/abr.rs:272-292 | With non-decreasing tick times, a heavy or light step comes more than 200 ms after any earlier decrease. |
| `AbrRuns.HeavySpaced` | engine/src/abr.rs:272-292 | It comes more than 250 ms after a heavy step, unless a severe drop falls between. |
| `AbrRuns.TimerStep` | engine/src/abr.rs:272-302 | Which branch needs which timer and sets it to what; all others leave both alone. |
| `AbrRuns.SevereNeedsLift` | engine/src/abr.rs:192-218 | Between two severe drops there is an increase, an outside bitrate change or a reset. |
| `AbrRuns.StaysOnFloor` | engine/src/abr.rs:272-308 | After a severe drop the target is at the minimum until lifted, whatever else happens. |
| `AbrRuns.SevereDepthNeedsTwo` | engine/src/abr.rs:319-371 | In any run, a sample is severe by queue depth only if the previously processed depth exceeded 76 percent of it. |
| `AbrRuns.LightRttNeedsTwo` | engine/src/abr.rs:319-371 | In any run, a sample is light by RTT only if the previously processed RTT exceeded a quarter of three times the new RTT plus the new average, and the average itself. |
| `AbrRuns.FirstSampleMasked` | engine/src/abr.rs:257-267 | The first sample after construction or a reset is neither severe by depth nor light by RTT. |
| `AbrRuns.DepthMask` | engine/src/abr.rs:403-411 | The depth bound for any non-negative baselines, through the truncation of the threshold. |
| `AbrRuns.RttMask` | engine/src/abr.rs:403-411 | The RTT bound likewise. |
| `AbrRuns.RemembersLast` | engine/src/abr.rs:319-353 | The remembered depth and RTT are those of the last processed sample, however many ticks held since. |
| `Abr.AbrController.constructor` | engine/src/abr.rs:150-175 | A new controller has normalized limits, the clamped start rate and nothing learned. |
| `Abr.AbrController.SetMaxBps` | engine/src/abr.rs:183-190 | The ceiling moves, never below minimum or 100 kb/s, and cuts the target. |
| `Abr.AbrController.SetCurrentBps` | engine/src/abr.rs:192-196 | The target becomes the given rate within the limits; nothing else changes. |
| `Abr.AbrController.Reset` | engine/src/abr.rs:198-218 | Everything learned, both timers and the published state return to their initial values. |
| `Abr.AbrController.UpdateMeasurements` | engine/src/abr.rs:319-353 | The field-by-field update computes the new baselines from the old ones and the sample. |
| `AbrBaselines.ThroughputSettles` | engine/src/abr.rs:350-352 | Over any run between resets, after k samples of one send rate 0.97^k of the learned throughput's distance to it is left. |
| `AbrBaselines.ThroughputStaysBetween` | engine/src/abr.rs:350-352 | Over any run it stays between the smallest and largest of its start and the processed rates. |
| `AbrBaselines.DepthSettles` | engine/src/abr.rs:319-323 | The same for the depth average, with 0.99. |
| `AbrBaselines.DepthStaysBetween` | engine/src/abr.rs:319-323 | And its range. |
| `AbrBaselines.RttSettles` | engine/src/abr.rs:330-336 | The first RTT is taken whole; then the average's distance to a steady RTT shrinks by 0.99 per sample. |
| `AbrBaselines.RttStaysBetween` | engine/src/abr.rs:330-336 | Once taken, it stays in the range of the processed RTTs. |
| `AbrBaselines.DeltaDiesOut` | engine/src/abr.rs:336-339 | With a steady RTT the averaged delta dies out by 0.8 per sample. |
| `AbrBaselines.JitterRemembers` | engine/src/abr.rs:322-349 | A rise of depth or RTT is remembered: k samples later the jitter is at least 0.99^k of it. |
| `AbrBaselines.JitterBounded` | engine/src/abr.rs:322-328 | And the depth jitter never exceeds its start and every rise. |
| `AbrBaselines.MinimumStep` | engine/src/abr.rs:340-343 | The RTT minimum is replaced exactly by a smaller RTT other than 100 ms without a delta of a millisecond or more, and otherwise drifts by 1.001. |
| `AbrBaselines.MinimumRange` | engine/src/abr.rs:340-343 | Over any run it stays between the smallest RTT and its drifted start. |
| `AbrBaselines.FirstSample` | engine/src/abr.rs:198-218 | All baselines after the first sample since a reset. |
| `Abr.AbrController.UpdateThresholds` | engine/src/abr.rs:355-371 | The five thresholds as functions of the baselines. |
| `Abr.AbrController.Control` | engine/src/abr.rs:263-304 | The branch cascade takes the branch of the specification and makes exactly its writes; emergency means severe, stressed means any congestion. |
| `AbrLaw.TakesCalled` | engine/src/abr.rs:255-302 | On every piece of new evidence the branch taken is the one the sample calls for, in its own figures and the baselines: RTT against a third and a fifth of the latency, depth and RTT against the five limits written out, both timers. |
| `AbrLaw.RisesExactly` | engine/src/abr.rs:268-301 | The target rises exactly on new evidence with the increase timer past, no decrease called for, the RTT below the truncated minimum plus the larger of 1 and twice the RTT jitter, the averaged delta below 0.01, and room below the ceiling. |
| `AbrLaw.FallsExactly` | engine/src/abr.rs:263-292 | It falls exactly with all links down or on new evidence of severe, heavy or light congestion, when above the floor. |
| `AbrLaw.MovesBy` | engine/src/abr.rs:272-307 | By how much: to the floor, down by 100000 and a tenth, down by 100000, up by 30000 and a thirtieth, within the limits. |
| `AbrLaw.HeavyThreshold` | engine/src/abr.rs:359-365 | The heavy limit is the truncated smaller one of the learned depth (at least 50) and half a latency window of packets at the learned throughput. |
| `AbrLaw.HoldsWithoutEvidence` | engine/src/abr.rs:227-253 | A tick without new evidence changes nothing but the label, and the target to the floor with all links down. |
| `AbrLaw.FirstTickRaises` | engine/src/abr.rs:220-317 | A worked first tick, from a new controller at 6 Mb/s to 6.23 Mb/s. |
| `AbrLaw.DropEnvelope` | engine/src/abr.rs:279-292 | Without severe drops and outages, k decreases leave 10^k (end + 1000000) >= 9^k (start + 1000000), whatever increases come between. |
| `AbrLaw.DropsFast` | engine/src/abr.rs:272-292 | Without raises, k decreases take off at least 100000 each, down to the floor. |
| `Abr.AbrController.Decide` | engine/src/abr.rs:220-317 | One tick, with the link-down and held paths, has the specified new state and decision. |
| `AbrLaw.AppliesWholeSteps` | engine/src/abr.rs:304-308 | The applied bitrate is the target cut to whole 100 kb/s, or the current one when nothing is new, within the limits. |
| `AbrLaw.Publishes` | engine/src/abr.rs:373-401 | Budget, change and alarms of a decision, in the terms of the evidence. |
| `AbrLaw.PublishesState` | engine/src/abr.rs:227-253 | The published label in every case. |
| `AbrLaw.NormalizedLimits` | engine/src/abr.rs:55-65 | What each configured limit becomes; normalizing twice changes nothing. |
| `EngineRuns.CouplingStep` | engine/src/lib.rs:1161-1227 | Target within limits and at most one rounding step above the clamped current rate: every engine call keeps this exactly when a checkable condition on zero bitrates and raised ceilings holds. |
| `EngineRuns.CouplingRun` | engine/src/lib.rs:634-636 | So it holds after every run of calls that meet the condition. |
| `EngineRuns.CreatedCoupled` | engine/src/lib.rs:659-702 | Every engine starts out coupled, whatever its configuration. |
| `EngineRuns.RaisedCeilingDecouples` | engine/src/lib.rs:1175-1190 | A raised ceiling over a rate the old one had cut off breaks it. |
| `EngineRuns.CoupledTick` | engine/src/abr.rs:227-253 | A tick of any kind (fresh, held, link-down) keeps it. |
| `EngineRuns.AppliedWithinLimits` | engine/src/abr.rs:304-308 | From any state, the rate a tick applies lies within the limits. |
| `EngineRuns.Stuttering` | engine/src/abr.rs:227-253 | With links up, deleting from any run all ticks that found a duplicate, older, stale, zero-RTT or zero-latency sample changes nothing but the control label and which side of a limit the rate is held at, as long as the kept run's ceiling is never raised over a rate above it. |
| `EngineRuns.StutteringApplies` | engine/src/lib.rs:587-637 | Every tick that is kept then applies the same bitrate in both runs. |
| `EngineRuns.StutterShows` | engine/src/abr.rs:183-190 | The condition is exact: from every state, an idle tick shows under a raised ceiling if and only if the rate was above the old one. |
| `EngineRuns.RaisedCeilingShowsStutter` | engine/src/abr.rs:183-190 | Such a state is reached from creation by a bitrate call and a session report. |
| `EngineRuns.StutteringExact` | engine/src/lib.rs:587-637 | Under the same condition the current bitrates of the two runs are equal exactly unless an idle tick brought a rate outside the limits inside and no kept tick or bitrate call has set it since. |
| `EngineRuns.IdleTickTrims` | engine/src/abr.rs:242-253 | That happens from creation, with no ceiling call: a rate set above the ceiling is cut by the next idle tick. |
| `EngineRuns.TelemetryDoesNotSteer` | engine/src/lib.rs:587-637 | Two runs of the same calls that differ only in bandwidth estimate, link targets and delivered rates, link quality and readiness, retransmissions, drops, buffer milliseconds or audio rate have equal controllers and applied rates throughout. |
| `EngineRuns.TransitionForgets` | engine/src/lib.rs:705-731 | After a start or a changing session report, every further run has the state and publishes the decisions of one with a newly built controller started at the current bitrate. |
| `EngineRuns.StopForgets` | engine/src/lib.rs:734-751 | After a stop, which does not reset the controller, every further run applies the bitrates of a newly built one; a tick publishes the same decision exactly if no thresholds were in force at the stop or the session has been revived since. |
| `EngineRuns.LearningSetsThresholds` | engine/src/abr.rs:366-367 | Thresholds are in force from the first sample learned. |
| `EngineRuns.LearnsOnlyRecent` | engine/src/lib.rs:603-633 | A sample that is learned from was submitted since the session last left Connected, nothing was submitted after it, and it is at most 200 ms older than its tick. |
| `EngineRuns.LearnsForward` | engine/src/abr.rs:242-255 | Between resets the learned samples have strictly increasing timestamps. |
| `EngineRuns.StatsOrigin` | engine/src/lib.rs:1113-1146 | The sample in hand is blank or the last submitted, with no departure from Connected since. |
| `SampleOrigin.LearnsFromCurrent` | plugin/srtla-output.cpp:486-489 | Session, worker and engine together: in every interleaving a learned sample was read at one step and submitted at a later one, and it is from the connection now up exactly if its socket was not already given up when read and no end of a connection was reported between the two. |
| `SampleOrigin.OldFiguresLearned` | plugin/srtla-output.cpp:486-489 | Whenever the worker holds usable figures of an established connection and a link is up, the connection can be lost and regained so that the new one's first tick learns them, at age zero. |
| `SampleOrigin.GivenUpStillRead` | plugin/srt-session.cpp:473-486 | A socket whose loss has just been reported can still be read. |
| `SampleOrigin.Reachable` | plugin/srt-session.cpp:86-103 | In every reachable state at most one socket has seen no end reported since it was created, and while the engine is Connected that is the one announced. |
| `SampleOrigin.RotationStep` | plugin/srt-session.cpp:267-413 | Every step of connector or stop() keeps this. |
| `SampleOrigin.OverSince` | plugin/srt-session.cpp:86-103 | A socket is given up later exactly if it was before or an end was reported in between. |
| `Engine.EngineCore.constructor` | engine/src/lib.rs:659-702 | The engine as created from its configuration. |
| `Engine.EngineCore.StartEngine` | engine/src/lib.rs:705-731 | Start clears the session state and sample and resets the controller at the current rate. |
| `Engine.EngineCore.StopEngine` | engine/src/lib.rs:734-751 | Stop clears running flag and sample. |
| `Engine.EngineCore.SetSessionState` | engine/src/lib.rs:1193-1227 | Unknown states are refused; leaving Connected clears the sample; a change resets the controller. |
| `Engine.EngineCore.SetVideoBitrate` | engine/src/lib.rs:1161-1172 | The current rate is at least one, the target is the rate within the limits. |
| `Engine.EngineCore.SetMaxVideoBitrate` | engine/src/lib.rs:1175-1190 | Zero is refused, anything else moves the ceiling. |
| `Engine.EngineCore.ApplyAbr` | engine/src/lib.rs:587-637 | A tick builds its sample from links, session and statistics and feeds the applied rate back. |
| `EngineLaw.LearnsExactly` | engine/src/lib.rs:603-633 | A tick learns exactly with the session Connected, an enabled link connected, and statistics with an RTT, at most 200 ms old and newer than the last used. |
| `EngineLaw.LearnsLastSubmitted` | engine/src/lib.rs:615-631 | Over whole runs, after such a tick the remembered depth and RTT are those of the call that last submitted statistics, and the throughput moved towards its send rate by 0.03. |
| `EngineLaw.LearnsSubmitted` | engine/src/lib.rs:615-631 | The same for all averages, in one tick. |
| `EngineLaw.TickMoves` | engine/src/lib.rs:587-637 | The new target of every tick in the submitted figures: a third and a fifth of the reported latency, else of the configured one, and the amounts of each branch. |
| `EngineLaw.TickApplies` | engine/src/lib.rs:634-636 | The bitrate every tick applies and feeds back. |
| `EngineLaw.TickPublishes` | engine/src/lib.rs:587-637 | The decision every tick publishes, audio rate included. |
| `EngineLaw.RetransmitShare` | engine/src/lib.rs:251-259 | The retransmitted share in thousandths, rounded down and at most 1000. |
| `EngineLaw.RunsSinceStart` | engine/src/lib.rs:705-751 | The engine is running exactly since its last start, if not stopped after it. |
| `SrtSession.ClosedExactlyOnce` | plugin/srt-session.cpp:59-84 | In every interleaving of connector and stop(), no socket is closed twice, at most one is open, send and statistics only touch an open one, and once the connector has ended or been joined every socket created has been closed. |
| `SrtSession.StatusesAlternate` | plugin/srt-session.cpp:267-413 | Within a connector run a Reconnecting lies between any two Connected and no Connecting follows a Connected. |
| `SrtSession.StopsSoon` | plugin/srt-session.cpp:267-433 | Once told to stop, every step of the connector lowers a bound on its remaining steps, and no other step raises it. |
| `SrtSession.CanStep` | plugin/srt-session.cpp:267-413 | Until its end it always has a step to make, so the join in stop() comes. |
| `SrtSession.StopsBeforeConnecting` | plugin/srt-session.cpp:292-296 | Told to stop before its socket is configured, it never connects. |
| `SrtSession.ConnectedExactly` | plugin/srt-session.cpp:386-402 | In every interleaving senders are admitted exactly from the handshake to the end of its monitoring. |
| `SrtSession.SocketsStep` | plugin/srt-session.cpp:284-412 | Every step of connector or stop() keeps the ownership invariant: an open socket is the connector's own, and unpublished only before publication. |
| `SrtSession.TracedStep` | plugin/srt-session.cpp:267-433 | Every step keeps the status invariant, which ties an un-reconnected Connected to the monitoring points. |
| `SrtSession.ReconnectedSince` | plugin/srt-session.cpp:267-413 | A link that is up and connects again has reported Reconnecting in between. |
| `SrtSession.Session.CloseSocket` | plugin/srt-session.cpp:59-72 | Closes the given handle only if it is still the current one, and un-publishes it in the same section. |
| `SrtSession.Session.CloseCurrentSocket` | plugin/srt-session.cpp:74-84 | Claims and closes whatever is current. |
| `Reconnects.StaleAcrossReconnect` | plugin/srtla-output.cpp:573-591 | Session and pipeline together: once a link that was up has been lost and is Connected again, of all datagrams accepted while it was up at most one can still be sent. |
| `Reconnects.FlushBetween` | plugin/srt-session.cpp:384-409 | Between the two Connected statuses the pipeline's queue was flushed. |
| `Reconnects.InvariantsHold` | plugin/srt-session.cpp:267-413 | Both components keep their invariants under every joint interleaving. |
| `EncoderBitrate.RestoredExactly` | plugin/srtla-output.cpp:785-974 | Between any two idle moments, over starts that fail at any point or are stopped, with any ABR writes and control calls at any time, the encoder is back at its bitrate exactly when no manual switch outside a save chose another one and the value fits the 32-bit field it is saved in or was never saved, given readable settings at save and restore; UnreadableNotRestored is the other case. |
| `EncoderBitrate.NeverDrifts` | plugin/srtla-output.cpp:413-447 | It ends at the rate of the last manual switch that reached the encoder outside a save, or at the rate it had, cut to 32 bits if it was saved. |
| `EncoderBitrate.SafeStep` | plugin/srtla-output.cpp:413-513 | Every section, with control calls at any time, keeps that rate either saved or still in the encoder. |
| `EncoderBitrate.UnreadableNotRestored` | plugin/srtla-output.cpp:413-447 | A start, however it goes on and ends, whose save or restore finds no readable settings ends at the last rate written to the encoder in it, so the bitrate is restored exactly if that is the one before. |
| `EncoderBitrate.WriteStep` | plugin/srtla-output.cpp:413-782 | Which sections write the encoder, and what; no other changes it. |
| `EncoderBitrate.FailedStartEnds` | plugin/srtla-output.cpp:871-909 | From every idle state in either mode, for every outcome of the four settings reads of a start that fails after its first write, the rate it leaves. |
| `EncoderBitrate.EarlySwitchStays` | plugin/srtla-output.cpp:698-732 | From every idle state, a manual switch between the beginning of a start and the save leaves its rate, within 500 and 100000, in the encoder after the start has failed. |
| `EncoderBitrate.FirstRate` | plugin/srtla-output.cpp:887-901 | An undisturbed start leaves the encoder at the ceiling in automatic mode and at the manual rate otherwise. |
| `EncoderBitrate.CeilingStep` | plugin/srtla-output.cpp:734-782 | A live automatic stream under its ceiling stays so exactly when the event is no rate above it, no switch to manual and no ceiling set below a rate already on its way to the encoder. |
| `EncoderBitrate.CeilingEntry` | plugin/srtla-output.cpp:929-938 | A stream that is not live and automatic comes under its ceiling exactly by a launch in automatic mode or an accepted switch of a live stream to it, with neither the encoder's nor a computed rate above. |
| `EncoderBitrate.CeilingRecovery` | plugin/srtla-output.cpp:493-508 | A live automatic stream above its ceiling comes back exactly by a worker's write or an accepted ceiling that leaves no rate above it. |
| `EncoderBitrate.StartsUnderCeiling` | plugin/srtla-output.cpp:887-929 | An automatic start without calls in between launches at the ceiling, whatever the encoder had. |
| `EncoderBitrate.LaunchTopsCeiling` | plugin/srtla-output.cpp:888-929 | With a ceiling moved between the choice of the first rate and its write, the stream launches at the chosen rate, under the new ceiling exactly if that is not below it. |
| `EncoderBitrate.StaleRateTopsCeiling` | plugin/srtla-output.cpp:493-508 | A ceiling lowered between an engine tick and its encoder write is overrun by that write. |
| `BitrateLoop.CeilingRun` | plugin/srtla-output.cpp:471-513 | Engine and output together: over every run, a live automatic stream stays under its ceiling, wherever that is moved, as long as no ceiling lands between an engine tick and its encoder write. |
| `BitrateLoop.CeilingExactly` | plugin/srtla-output.cpp:471-513 | Over every run from creation, a stream is live, automatic and under its ceiling exactly if some act brought it there and every act since has been timely. |
| `BitrateLoop.GainStep` | plugin/srtla-output.cpp:698-782 | Which acts of either side bring it there. |
| `BitrateLoop.TimelyStep` | plugin/srtla-output.cpp:734-782 | The condition is exact for every act of either side. |
| `BitrateLoop.AgreedRun` | plugin/srtla-output.cpp:313-331 | Output and engine have the same limits in every reachable state, through ceiling calls and settings updates. |
| `BitrateLoop.TickOutput` | plugin/srtla-output.cpp:490-494 | The rate a tick hands the worker lies within the output's limits. |
| `BitrateLoop.NextTickRepairs` | plugin/srtla-output.cpp:493-508 | However far above the ceiling the encoder is, the next tick and its write bring it back. |
| `EncoderBitrate.OutputBitrate.RestoreSharedBitrate` | plugin/srtla-output.cpp:413-428 | Writes the saved original back if there is one and the settings can be read; drops it either way. |
| `EncoderBitrate.OutputBitrate.ApplyManualBitrate` | plugin/srtla-output.cpp:430-447 | Saves the original once and writes the manual rate in manual mode. |
| `EncoderBitrate.OutputBitrate.GiveUpAutomatic` | plugin/srtla-output.cpp:879-886 | Automatic mode is given up for an encoder without dynamic bitrate. |
| `EncoderBitrate.OutputBitrate.WriteFirstBitrate` | plugin/srtla-output.cpp:890-901 | The first rate is written if the settings can be read. |
| `EncoderBitrate.OutputBitrate.WriteAbrBitrate` | plugin/srtla-output.cpp:495-509 | An ABR rate is written only in automatic mode, to a dynamic, readable encoder, and if positive. |
| `EncoderBitrate.OutputBitrate.SetBitrateControl` | plugin/srtla-output.cpp:698-732 | Codes, new mode and rates; the engine is given the rate the encoder has afterwards, or the manual one without an encoder, and at least 1 kb/s. |
| `EncoderBitrate.OutputBitrate.SetMaxBitrate` | plugin/srtla-output.cpp:735-782 | Codes and new ceiling; a live automatic encoder is afterwards within it and the engine is given that rate. |
| `EncoderBitrate.RefusalCodes` | plugin/srtla-output.cpp:698-757 | Exactly when the two control calls are refused, and with which code. |
| `EncoderBitrate.SwitchRemembered` | plugin/srtla-output.cpp:710-732 | An accepted switch sets mode and manual rate, within 500 and 100000, and nothing else but the encoder. |
| `EncoderBitrate.CeilingRemembered` | plugin/srtla-output.cpp:744-782 | An accepted ceiling is the given one within the configured minimum and 30000, and cuts a live automatic encoder above it to it. |
| `EncoderBitrate.SavedOnce` | plugin/srtla-output.cpp:430-447 | The original is saved once until it is put back. |
| `Utf8.ValidUtf8` | plugin/srt-session.cpp:116-152 | The validator's loop accepts a byte string exactly when it encodes some sequence of Unicode scalar values. |
| `Utf8.DecodeEncode` | plugin/srt-session.cpp:116-152 | Decoding an encoding gives the scalars back. |
| `Utf8.EncodeDecode` | plugin/srt-session.cpp:116-152 | Encoding what a string decodes to gives the string back. |
| `Utf8.EncodingUnique` | plugin/srt-session.cpp:116-152 | No two scalar sequences share an encoding. |
| `Utf8.AcceptedIsEncoding` | plugin/srt-session.cpp:121-149 | What is accepted at one position is the encoding of the folded code point, so overlong forms, surrogates and values above 10FFFF are not. |
| `Utf8.EncodingIsAccepted` | plugin/srt-session.cpp:121-149 | The encoding of every scalar is accepted, whatever follows it. |
| `Packetizer.Conserves` | plugin/mpegts-avformat-sink.cpp:249-276 | Until a reset, over any run of writes and flushes, the emitted datagrams and the pending bytes together are the bytes pending before and those written. |
| `Packetizer.CutsTheStream` | plugin/mpegts-avformat-sink.cpp:249-276 | Between flushes the datagrams are exactly the 1316-byte pieces of what was pending and everything written, however it was split, and fewer than 1316 bytes, the remainder, are pending. |
| `Packetizer.PendingSmall` | plugin/mpegts-avformat-sink.cpp:249-276 | Fewer than 1316 bytes are pending after every operation of every run. |
| `Packetizer.WholePackets` | plugin/mpegts-avformat-sink.cpp:327-333 | A flushed stretch leaves nothing pending, and all its datagrams are whole 188-byte transport packets (section 2.4.3 of ISO/IEC 13818-1) exactly when its length, with what was pending before, is a multiple of 188. |
| `Packetizer.KeyframeFlagged` | plugin/mpegts-avformat-sink.cpp:303-307 | A keyframe yields a flagged datagram exactly when the bytes pending before it and those that reach the callback before its write returns make up 1316. |
| `Packetizer.FlagsExactly` | plugin/mpegts-avformat-sink.cpp:262-276 | Over any run a flagged datagram is emitted exactly by an operation that completes one while a keyframe is being written. |
| `Packetizer.StampedExactly` | plugin/mpegts-avformat-sink.cpp:262-276 | Over any run, every datagram carries the timestamp of the last packet begun since the last reset (or zero), and its keyframe flag while it is being written. |
| `Packetizer.ConservesSinceReset` | plugin/mpegts-avformat-sink.cpp:109-118 | After a reset nothing written before it is emitted any more. |
| `MediaStream.SmallKeyframesNeverResume` | plugin/srtla-output.cpp:593-616 | Sink and pipeline together: after a flush, in any interleaving, nothing is queued and nothing but what was in flight is sent before the sink completes a datagram while writing a keyframe, so keyframes too small for that never end the drop. |
| `MediaStream.FlagEndsDrop` | plugin/srtla-output.cpp:600-616 | At the lock a drop ends exactly for a flagged datagram of at most 8 MiB, which is then the head of the queue. |
| `MediaStream.ReconnectStarves` | plugin/srtla-output.cpp:573-591 | A reconnect brings the stream into that state once its earlier datagrams have passed the lock. |
| `Packetizer.ChunksOfConcat` | plugin/mpegts-avformat-sink.cpp:262-268 | Cutting is insensitive to how the bytes were delivered. |
| `Packetizer.FlushEmits` | plugin/mpegts-avformat-sink.cpp:262-276 | A flush emits the full datagrams, then the rest as one short one if there is any. |
| `Packetizer.TsSink.EmitDatagrams` | plugin/mpegts-avformat-sink.cpp:262-276 | The in-place loop has the effect of the cutting functions. |
| `Packetizer.TsSink.WriteCallback` | plugin/mpegts-avformat-sink.cpp:249-260 | Appending and emitting is one write step of the specification. |
| `Packetizer.TsSink.Reset` | plugin/mpegts-avformat-sink.cpp:109-118 | A reset forgets pending bytes, keyframe flag and timestamp. |
| `LinkId.OneByteApart` | plugin/srtla-output.cpp:220-228 | Adapter ids of equal length that differ in exactly one byte never share a link id. |
| `LinkId.AbsorbInjective` | plugin/srtla-output.cpp:220-228 | A hash step is injective in the byte and in the state. |
| `LinkId.MultiplyUndone` | plugin/srtla-output.cpp:220-228 | The multiplication modulo 2^64 has an inverse. |
| `LinkId.HashInjective` | plugin/srtla-output.cpp:220-228 | Absorbing any string is injective on states. |
| `LinkId.StableLinkId` | plugin/srtla-output.cpp:220-228 | The loop computes that hash. |
| `LinkId.ShortIds` | plugin/srtla-output.cpp:220-228 | The id of the empty string and of every single byte. |
| `LinkId.XorBits` | plugin/srtla-output.cpp:220-228 | The mixing sets exactly the bits in which state and byte differ. |
| `LinkList.ParseEnabledLinks` | plugin/srtla-output.cpp:230-247 | On every string the loop ends, with exactly the non-empty comma-delimited fields. |
| `LinkList.SaveSelectedLinks` | plugin/srtla-dock.cpp:1430-1439 | The writer's loop builds the specified list from any selection. |
| `LinkList.JoinedTokens` | plugin/srtla-dock.cpp:1430-1439 | For any selection in any order the fields of the written list are exactly the fields of the selected ids. |
| `LinkList.RoundTrip` | plugin/srtla-dock.cpp:1068-1078 | Written and read back, the list gives the selected ids exactly when all of them are non-empty and comma-free. |
| `LinkAdmin.EnabledOnlyByGrant` | engine/src/lib.rs:884-961 | Over every run, a link is enabled exactly if it was so at creation or by a call, and since then stayed in every adapter update and was not switched off. |
| `LinkAdmin.EnabledRecordGranted` | engine/src/lib.rs:982-991 | With unique ids that covers every record in the table. |
| `LinkAdmin.KeepsOneLink` | engine/src/lib.rs:897-915 | While running, no call takes the number of enabled links from at least one to zero. |
| `LinkAdmin.SwitchStep` | engine/src/lib.rs:884-991 | What each operation does to the switch of each link. |
| `LinkAdmin.DistinctKept` | engine/src/lib.rs:982-991 | Unique ids stay unique. |
| `LinkAdmin.LinkTable.SetLinkEnabled` | engine/src/lib.rs:884-961 | Codes and new records, including the refusal of switching off the last link and the cleared figures of a link that comes back or goes. |
| `LinkAdmin.LinkTable.UpdateAdapters` | engine/src/lib.rs:982-1020 | Known adapters keep their switch, unknown ones start disabled, absent ones go; the code says whether the sender took the update. |
| `LinkAdmin.LinkTable.UpdateLinkStats` | engine/src/lib.rs:1089-1108 | Reports change everything but ids and switches, in order. |
| `LinkFigures.ReportsApplied` | engine/src/lib.rs:1089-1106 | After any list of reports a link has the figures of the last one about it, and its old ones if there is none. |
| `LinkFigures.ReportsAppliedToAll` | engine/src/lib.rs:1089-1106 | With unique ids that is every record. |
| `LinkFigures.FiguresAsSaid` | engine/src/lib.rs:884-1106 | Over every run of switches, adapter updates and reports, a link's figures are what the calls since it last appeared say. |
| `LinkFigures.ConnectedAsSaid` | engine/src/lib.rs:982-1106 | A link is connected exactly if its last report, or else the adapter record it appeared with, says so. |
| `LinkFigures.SwitchApplied` | engine/src/lib.rs:916-940 | What an accepted switch changes in its record, and that it changes no other. |
| `LinkFigures.SwitchOnForgets` | engine/src/lib.rs:916-930 | No rate, readiness or quality from before a switch-off survives the next switch-on. |
| `LinkFigures.RefusedExactly` | engine/src/lib.rs:895-915 | A call is turned down exactly if it would switch off the only enabled link of a running output. |

## Left out

- OBS, Qt, libavformat, libsrt and the embedded SRTLA sender: foreign code, modelled as arbitrary results.
- The dock, the websocket vendor and module registration: user interface, apart from the link-list loops.
- Adapter enumeration, address resolution, sleeps and backoff: input and output only.
- The embedded sender's echo of link states and the JSON snapshot: field copying driven by a foreign report.
- IEEE-754 rounding, NaN and overflow in the learned averages: reals are used instead.
- The summed link capacity and the decision fields that are constant zero: published, never read back.
- Fresh tables after a reconnect: decided by libavformat and by a flag handled at two separate points, so no invariant of every interleaving.
- The byte and dropped-frame counters, error strings and log lines: no control depends on them.
- Overflow of 64-bit presentation timestamps: timestamps are unbounded integers here.
- Raw pointers, handles, ABI sizes, JSON syntax, null arguments and unregistered outputs: the C interface only.
- Passphrase storage, the capture-lifecycle helper and the engine's own datagram queue: correct but easy.
- Weak memory effects: atomic flags and mutexes are taken as sequentially consistent.
- The connector's bind, connect and handshake are one attempt with an arbitrary outcome, and its own libsrt calls on a handle that stop() has meanwhile closed are not tracked.
- A status report, from recording it to the end of its callback, is one step.
- Packetizer: write errors of the muxer and the sink's health flag are left out, so every flush emits.
