# JamLink verification model

A Dafny model of JamLink's real-time audio path and of the small state machines around it, with proofs of what
they promise over whole runs. `dafny verify dfyconfig.toml` checks the project.

Code that changes state in place is modelled as classes and methods with the source's own fields, loops and
branches. Each is proved equal to a specification function on values, and the promises are proved of those
functions: as invariants of every run, refinements of a simpler reference, conservation laws and round trips.

| files | what they model |
|---|---|
| `circular_sequence`, `receiver_model`, `audio_stream_receiver` | the adaptive jitter buffer: 32-bit circular sequence numbers, slot ring, jitter target, playout, stateful decoder |
| `receiver_integrity`, `receiver_runs` | its whole-run invariant: stamps, packet conservation, counters, decoder order |
| `receiver_playout`, `receiver_regulation`, `receiver_backlog`, `receiver_lossless` | pull splitting, depth convergence, the cursor's bound, the ring as a FIFO queue |
| `receiver_sound`, `receiver_concealment` | what is heard: decoded audio sample for sample, and the receiver's own concealment |
| `receiver_target` | how the depth adapts to measured jitter |
| `receiver_decoder`, `receiver_limits` | when the decoder falls out of step with playout, the fate of each submission, and what a filed packet can rely on |
| `spsc_interleaving`, `spsc_audio_ring` | the lock-free ring, over every interleaving and on its two-piece copies |
| `route_ordering`, `stable_sorting`, `route_mixing`, `audio_route_graph` | the compiled route graph: ordering, stable sort, one in-place pass and its meaning |
| `resampler_model`, `resampler_control`, `async_mono_resampler` | the drift-correcting resampler as a view of an unbounded stream, and where its control loop takes the backlog |
| `pacer_model`, `pacer_guard`, `pacer_schedule`, `pacer_laws`, `outgoing_audio_pacer` | the outgoing pacer: guard, deadline ledger, bursts, losses |
| `level_meter`, `level_meter_publication` | the meter's totals and its seqlock, over every interleaving |
| `private_rooms`, `private_room_laws`, `rate_window`, `directory_state` | private rooms and rate limiting in the directory service: admission, rights, lifetimes |
| `room_model`, `room_runs`, `room_laws`, `room_authority` | roles, capabilities, disconnects and resumes inside a room, and who may do what |
| `ice_checklist`, `ice_laws`, `ice_agent` | connectivity checks |
| `text_lines`, `take_format`, `take_round_trip`, `take_laws`, `take_manifest` | the take manifest writer and reader |
| `preferences_format`, `preferences_round_trip`, `preferences_laws`, `preferences_store` | the preferences writer and reader |
| `samples`, `bounds`, `modular_arithmetic`, `finite_sets` | shared definitions |

Where the code does not do what its comments or a first reading promise, the model follows the code, exhibits a
failing input and proves the exact condition:

- The receiver's comments keep the stateful decoder in step with playout. A latency trim over a missing packet
  moves playout without calling the decoder (`src/network/audio_stream_receiver.cpp:321-332`), and one over a packet
  that does not decode ignores that it got nothing (`src/network/audio_stream_receiver.cpp:407-413`), so the decoder
  falls behind by exactly the number of such silent trims (`ReceiverDecoder.DecoderInStepIffNoSilentTrim`). Which
  packets of playback do it can be read off beforehand (`ReceiverDecoder.SilentTrimIffLeavesBehind`), and two runs
  from a new receiver get there: one with packets lost (`ReceiverDecoder.OutageRunsOutOfStep`), one with a packet
  that does not decode (`ReceiverDecoder.SpoiltPacketRunsOutOfStep`).
- Concealment is meant never to be louder than the audio it stands in for
  (`src/network/audio_stream_receiver.cpp:484-486`). Inside the correction at the entry of a burst it can be, and
  nowhere else (`ReceiverConcealment.NeverLouderIff`).
- With no period to repeat the last sample is meant to run down to zero
  (`src/network/audio_stream_receiver.cpp:468-471`). It does so again in every further packet of a burst: packets join
  if and only if there is a period or nothing was heard (`ReceiverConcealment.PacketsJoinIffPeriodic`).
- The pacer's guard promises a full packet. It keeps that promise for exactly the configurations of
  `PacerGuard.GuardCondition` (`PacerGuard.GuardSufficesExactly`); in every other one the first release of a new
  pacer already falls short (`PacerSchedule.FirstReleaseFallsShort`).
- The pacer counts what it discards so that a drop is never silent
  (`include/jamlink/network/outgoing_audio_pacer.hpp:46-48`). What comes in is waiting or counted if and only if the
  converter's ring does not overrun (`PacerLaws.LossOnArrivalIsCountedIff`).
- The level meter's sequence guard has 32 bits. A snapshot is coherent when fewer than 2^31 blocks are published
  while it is taken, and with exactly 2^31 it can be torn (`LevelMeterPublication.TornAfterWrap`).
- A clear that overlaps a snapshot can make a silent block show as clipped
  (`LevelMeterPublication.ClearDuringSnapshotShowsClip`); exactly when, `LevelMeterPublication.ClipShowsExactly` says.
- A non-finite sample injected into a fed bus costs that bus its first arrival
  (`RouteMixing.NonFiniteInputCostsOneArrival`).
- A preferences text that holds a newline is written but makes the file unreadable
  (`PreferencesRoundTrip.RoundTripExactly`, both directions).
- Turning a guest away asks for a capability and not for presence, so a co-host that has dropped out still can
  (`RoomLaws.AbsentCoHostStillDenies`; exactly when, `RoomLaws.DeniedIffPermitted`).
- The checklist is meant to probe the best pair first, but it is cut to size before it is sorted
  (`IceLaws.BestPairMayBeLeftOut`; exactly which pairs are on it, `IceLaws.PairsAreTheFirstListed`).

## Model

| member | source | states |
|---|---|---|
| CircularSequence.DistanceSpansModulus | include/jamlink/network/audio_stream_receiver.hpp:109-111 | The signed 32-bit difference of two sequence numbers lies in [-2^31, 2^31) and adding it to the right one gives back the left one. |
| CircularSequence.DistanceOfPlus | include/jamlink/network/audio_stream_receiver.hpp:109-111 | Offsets from one sequence number less than half the number space apart are compared exactly as integers are, across the wrap. |
| CircularSequence.DistanceShift | include/jamlink/network/audio_stream_receiver.hpp:109-111 | Moving both ends of a comparison changes the distance by exactly the difference of the moves, as long as it stays in range. |
| ReceiverIntegrity.PlayConsumes | src/network/audio_stream_receiver.cpp:314-343 | Playing the cursor spends exactly one sequence number: its slot is emptied when it held that packet, the decoder gets exactly the calls that outcome needs, and playout moves by one. |
| ReceiverIntegrity.TrimConsumes | src/network/audio_stream_receiver.cpp:321-332 | A trim spends exactly one sequence number and feeds its packet to the decoder if the packet was there, and otherwise nothing. |
| ReceiverIntegrity.ConsumesKeepsInvariant | src/network/audio_stream_receiver.cpp:267-344 | Whatever outcome a turn has, stamps, conservation, tallies and decoder order stay in force. |
| ReceiverIntegrity.StretchKeepsInvariant | src/network/audio_stream_receiver.cpp:297-313 | A stretch, which plays invented audio without moving the cursor, keeps the whole invariant. |
| ReceiverIntegrity.PrimeKeepsInvariant | src/network/audio_stream_receiver.cpp:346-362 | Priming at target packets behind the newest one starts a new segment and keeps the whole invariant. |
| ReceiverIntegrity.BeginKeepsInvariant | src/network/audio_stream_receiver.cpp:267-344 | Every branch of one packet of playback (re-prime, starved, stretch, trim and play, play) keeps the whole invariant. |
| ReceiverIntegrity.PullKeepsInvariant | src/network/audio_stream_receiver.cpp:236-265 | A pull of any length keeps the whole invariant. |
| ReceiverRuns.SubmitKeepsInvariant | src/network/audio_stream_receiver.cpp:105-234 | Any submission (empty, oversized, late, duplicate, dropped, reclaiming, rebasing) keeps the whole invariant. |
| ReceiverRuns.StepKeepsInvariant | src/network/audio_stream_receiver.cpp:105-265 | Every operation of a receiver (submit, pull of any length, depth configuration, reset) keeps the invariant. |
| ReceiverRuns.PacketsAreConserved | src/network/audio_stream_receiver.cpp:364-383 | In every reachable state a non-zero stamp sits at its own index and names a packet filed with exactly those bytes, and the packets ever filed are, with multiplicity, those still slotted, those spent by a turn and those reclaimed; so none is played more often than it was accepted. |
| ReceiverRuns.TimingAnchorFollows | src/network/audio_stream_receiver.cpp:134-174 | Once a packet has arrived the timing anchor is the highest sequence number, whatever band a jump fell into; the jitter estimate is never negative and the target stays within the configured depths. |
| ReceiverRuns.RunKeepsInvariant | src/network/audio_stream_receiver.cpp:105-265 | So every run of operations does. |
| ReceiverRuns.DecoderFollowsTurns | src/network/audio_stream_receiver.cpp:364-439 | In every reachable state the decoder has been given exactly what the turns call for, in order; the cursor is the start of the current segment plus its turns; segments never outnumber resyncs by more than one. |
| ReceiverRuns.TurnsAreConsecutive | src/network/audio_stream_receiver.cpp:364-439 | In every run turns of one segment carry consecutive sequence numbers, each once, and the turns of the current segment are the last ones. |
| ReceiverRuns.CountersAreALedger | src/network/audio_stream_receiver.cpp:201-233 | accepted + duplicate + late + dropped = submissions, valid or not, + undecodable; turns = played + concealed + trimmed; concealed frames = packet size x (concealed + stretched). |
| ReceiverPlayout.PullSplits | src/network/audio_stream_receiver.cpp:236-265 | For all n and m, a pull of n then m gives the same samples, live count, final state and counters as a pull of n + m, across packet boundaries, failed priming and pending resyncs. |
| ReceiverPlayout.PullsOnePacket | src/network/audio_stream_receiver.cpp:236-265 | With the current packet used up, a pull of one packet gives exactly the samples of the next packet of playback, all of them live. |
| ReceiverPlayout.PullsSilence | src/network/audio_stream_receiver.cpp:236-252 | When no packet can begin, a pull is silence, none of it live, which is counted and enters the history; slots, ledger and decoder stay as they are. |
| ReceiverSound.TurnSounds | src/network/audio_stream_receiver.cpp:364-430 | A turn sounds as the decoder's answer to its last call, if that is a whole packet: a concealment exactly, and so a decoded packet that the sound before it runs on into; after a splice from the end of the cross-fade on. |
| ReceiverSound.RunsOnIffPlayed | src/network/audio_stream_receiver.cpp:267-402 | The next packet runs on from this one if and only if this one ended by playing a packet, so the cross-fade is taken after a priming, a trim, a loss or a stretch and at no other time. |
| ReceiverSound.PullSounds | src/network/audio_stream_receiver.cpp:236-430 | In the dead zone a pull of one packet returns the decoding of the packet at the cursor, exactly if the sound before runs on into it and else from min(64, packet) frames on; or, for one that is missing or does not decode, what the decoder puts in its place. |
| ReceiverSound.SettledSoundsDecoded | src/network/audio_stream_receiver.cpp:236-402 | From a stocked ring in the dead zone, what is pulled, one packet for each in-order arrival, is the decodings of what was queued followed by what arrived, put end to end in order. |
| ReceiverSound.FreshStreamSoundsDecoded | src/network/audio_stream_receiver.cpp:105-402 | From a new receiver on, the audio pulled is the decodings of the packets from the newest target on, put end to end, once the first cross-fade is over. |
| ReceiverConcealment.TurnRemembers | src/network/audio_stream_receiver.cpp:388-430 | A played packet is added to the history as decoded, whatever was heard; anything else adds nothing and ends the run of real sound. |
| ReceiverConcealment.HistoryIsReal | src/network/audio_stream_receiver.cpp:388-402 | In every reachable state the history is exactly the decodings of the played packets, in order, with as many silent samples in between as were counted: no cross-fade and nothing invented ever enters it. |
| ReceiverConcealment.NeverBeyond | src/network/audio_stream_receiver.cpp:448-491 | The receiver's own concealment is never louder than the loudest real sound times the level of the burst (one for a stretch, a power of a half for a loss); only the correction at the entry may exceed that, and never full scale. |
| ReceiverConcealment.EntryIsContinuous | src/network/audio_stream_receiver.cpp:441-491 | The first invented sample is the last real one when there is a period to repeat, and also when there is none unless loss has already lowered the level. |
| ReceiverConcealment.NeverLouderIff | src/network/audio_stream_receiver.cpp:477-491 | The samples of a stretch that are no louder than the loudest sound they stand in for, whatever that was, are exactly the first one, those the entry correction does not touch, and those where it has faded out. |
| ReceiverConcealment.EntryCanBeLouder | src/network/audio_stream_receiver.cpp:477-491 | For any other sample there is a sound that it is louder than. |
| ReceiverConcealment.BurstIsOneWave | src/network/audio_stream_receiver.cpp:441-507 | With a period, a burst of any number of packets is one wave taken up from packet to packet where it was left, at a level that halves with each lost packet and stays for a stretch. |
| ReceiverConcealment.PacketsJoinIffPeriodic | src/network/audio_stream_receiver.cpp:459-475 | A packet of a burst runs on into the next if and only if there is a period to repeat or nothing was heard; without one each further packet starts again from the last real sample after the one before has run down to zero. |
| ReceiverConcealment.RecoveryStarts | src/network/audio_stream_receiver.cpp:509-543 | A decoded packet rises out of exactly the sound that another packet of concealment would have gone on with. |
| ReceiverConcealment.RecoveryRises | src/network/audio_stream_receiver.cpp:526-543 | Each sample of the cross-fade lies between the decoded packet and the sound that was going on. |
| ReceiverConcealment.LossSounds | src/network/audio_stream_receiver.cpp:415-507 | A turn that plays nothing, when the decoder has nothing whole to offer, sounds as one more packet of the receiver's own fading concealment; either way the burst grows by one. |
| ReceiverConcealment.StretchSounds | src/network/audio_stream_receiver.cpp:281-313 | A packet of playback that takes no turn sounds as one more packet of that concealment, at full level while packets still come and fading once none has come for four packets. |
| ReceiverConcealment.SpliceSounds | src/network/audio_stream_receiver.cpp:388-543 | After a splice the packet played rises, sample by sample, out of what was going on: in a burst its sound from where it was left, after any other splice the last measured period from its start. |
| ReceiverConcealment.TrimIsFaded | src/network/audio_stream_receiver.cpp:314-332 | A trim is a splice: the packet played after it rises out of what was going on before it. |
| ReceiverConcealment.StartIsFaded | src/network/audio_stream_receiver.cpp:346-362 | So is a start. |
| ReceiverConcealment.PlayingRestoresTheLevel | src/network/audio_stream_receiver.cpp:388-400 | In every run a packet that is played ends the burst, and what is lost next starts from full level again. |
| ReceiverConcealment.StoppedStreamFades | src/network/audio_stream_receiver.cpp:281-313 | A stream that has run dry is stretched at full level while it still counts as arriving and fades by half with every packet from the fourth without an arrival on. |
| ReceiverConcealment.ArrivingStretchKeepsLevel | src/network/audio_stream_receiver.cpp:281-313 | While packets arrive a stretch does not add to the loss, so it stays at full level. |
| ReceiverTarget.SubmitAdapts | src/network/audio_stream_receiver.cpp:176-199 | After every valid submission the target is within its limits and covers the jitter measured then, or is at the upper limit; it rises if and only if it no longer sufficed, and then to the least that does; it falls by at most one, and only if one packet less would do. |
| ReceiverTarget.TargetFallsIffPatient | src/network/audio_stream_receiver.cpp:186-199 | In every run a valid submission lowers the target if and only if one packet less would do and the last submissions, as many as the shrink hold asks for and this one among them, all found so since the target last moved or was set. |
| ReceiverTarget.JitterFollowsArrivals | src/network/audio_stream_receiver.cpp:141-174 | A newer packet less than half a ring on moves the estimate a sixteenth of the way to its own deviation from the pace of the packets between; a wider gap only moves the timing anchor; one that is not newer moves neither. |
| ReceiverTarget.SteadyPaceIsLearnt | src/network/audio_stream_receiver.cpp:141-157 | On a stream of steady pace the error of the estimate against the true deviation shrinks by a sixteenth with every packet. |
| ReceiverTarget.RetuneIsAcceptedIff | src/network/audio_stream_receiver.cpp:648-663 | Depth settings are taken over if and only if 1 <= minimum <= maximum, twice the maximum is below the ring and the safety factor is within 1 to 16; otherwise nothing changes. |
| ReceiverRegulation.RegulateMoves | src/network/audio_stream_receiver.cpp:281-343 | One packet of regulation stretches, trims and plays exactly as the depth against the target says, and a stretch leaves slots, decoder and playout ledger alone. |
| ReceiverRegulation.CycleMoves | src/network/audio_stream_receiver.cpp:105-343 | One in-order arrival followed by one packet of playback moves the depth by exactly the arrival less the turns taken. |
| ReceiverRegulation.DepthConverges | src/network/audio_stream_receiver.cpp:281-343 | With a constant target and one in-order arrival per packet played, the depth walks one packet per cycle into [max(1, target - 1), target + 2] and stays; stretches and trims spent are exactly the distance walked. |
| ReceiverRegulation.DepthReachesDeadZone | src/network/audio_stream_receiver.cpp:281-343 | After as many cycles as the depth was away it is inside the dead zone, and however long the stream goes on no further correction is ever made. |
| ReceiverRegulation.PlayoutFreezes | src/network/audio_stream_receiver.cpp:281-343 | With no arrivals playout goes no further than highest + 1, and after as many packets as were buffered it freezes: from then on only stretches, with slots, decoder and cursor untouched. |
| ReceiverBacklog.PlayoutNeverPassesNewest | src/network/audio_stream_receiver.cpp:281-343 | In every run, while it plays and has seen every resync, the cursor is at most one beyond the newest packet: the signed 32-bit depth is the number of packets due and not negative, as long as the submissions cannot have put the newest packet 2^31 ahead. |
| ReceiverLossless.SlotsDistinct | src/network/audio_stream_receiver.cpp:201-233 | Sequence numbers less than a ring apart never share a slot, even across the wrap at 2^32. |
| ReceiverLossless.FirstArrivalFills | src/network/audio_stream_receiver.cpp:105-124 | The first packet of a fresh receiver is filed as its start of stream. |
| ReceiverLossless.NextArrivalFills | src/network/audio_stream_receiver.cpp:201-233 | Each next packet in order joins the ones already filed, up to a full ring. |
| ReceiverLossless.PrimeStocks | src/network/audio_stream_receiver.cpp:346-362 | Priming after an in-order start leaves a stocked ring: exactly the newest target packets queued, in order. |
| ReceiverLossless.CycleIsQueue | src/network/audio_stream_receiver.cpp:105-402 | Inside the dead zone a cycle is a queue step: the arrival joins at the back and the front packet is played. |
| ReceiverLossless.SettledIsLossless | src/network/audio_stream_receiver.cpp:236-402 | From a stocked ring in the dead zone, a stream of decodable in-order arrivals of any length is played packet for packet in order, with nothing concealed, stretched or trimmed: the ring behaves as a FIFO queue across every wrap. |
| ReceiverLossless.FreshStreamIsLossless | src/network/audio_stream_receiver.cpp:105-402 | From a new receiver on: packets in sequence, at least the target of them, then one per packet played; every packet from the newest target on is played, each once and in order, and nothing is concealed, stretched or trimmed. |
| ReceiverDecoder.SilentTrimIffLeavesBehind | src/network/audio_stream_receiver.cpp:267-413 | In any state, a packet of playback passes a sequence number that the decoder is not told of if and only if the receiver is playing, has seen every resync, is above the dead zone, and the packet at its cursor is missing or does not decode; of every other turn the decoder is told exactly once. |
| ReceiverDecoder.RunKeepsStep | src/network/audio_stream_receiver.cpp:105-439 | No operation of any run breaks the count of what the decoder was told against the turns and the silent trims. |
| ReceiverDecoder.DecoderInStepIffNoSilentTrim | src/network/audio_stream_receiver.cpp:321-439 | In every reachable state the decoder has been told of all sequence numbers the cursor passed but those of silent trims, so it is in step if and only if no latency trim ever fell on a packet that was missing or did not decode; it has produced a packet for all of those but the concealments it had nothing to offer for. |
| ReceiverDecoder.GapTrimSkipsDecoder | src/network/audio_stream_receiver.cpp:314-332 | A trim over a missing packet takes one sequence number for which the decoder is never called. |
| ReceiverDecoder.BurstLossDesynchronises | src/network/audio_stream_receiver.cpp:314-332 | Losing target + 2 packets in a row while drained is one way to get there: the next pull trims over a missing packet. |
| ReceiverDecoder.OutageRunsOutOfStep | src/network/audio_stream_receiver.cpp:105-343 | A run of four operations from a new receiver, with three packets lost, that ends with the decoder one packet behind, whatever its first sequence number, packets and timing. |
| ReceiverDecoder.SpoiltPacketRunsOutOfStep | src/network/audio_stream_receiver.cpp:105-413 | A run with no packet lost that ends so too: one packet played, four more arrive of which the first does not decode, and the next pull trims it. |
| ReceiverLimits.OccupiedSlotRefusesUnlessPassed | src/network/audio_stream_receiver.cpp:209-224 | A packet that is not late and meets another one in its slot takes it over, and its occupant is reclaimed, if and only if the receiver is playing and its cursor has passed that occupant; otherwise the arrival is dropped and nothing else changes. |
| ReceiverLimits.StaleStampKeepsItsSlot | src/network/audio_stream_receiver.cpp:209-332 | Through any arrivals and any packets of playback, resyncs and primings included, an old stamp keeps its slot until the cursor has passed it. |
| ReceiverLimits.FiledPacketIsSpent | src/network/audio_stream_receiver.cpp:201-402 | As long as there is no resync, a filed packet ahead of the cursor is never lost: through any arrivals and packets of playback it stays in its slot with its bytes until the cursor comes to it, and the turn with its number spends exactly it. |
| ReceiverLimits.AcceptedPacketIsSpent | src/network/audio_stream_receiver.cpp:201-402 | So every packet accepted while playing, in whatever order packets arrive, is spent by the turn of its own number once playout has got that far, unless a resync comes first. |
| ReceiverLimits.FateOfASubmission | src/network/audio_stream_receiver.cpp:105-233 | Each submission is counted in exactly one of late (behind the cursor), duplicate (its number is waiting in the ring), accepted (its slot is empty or holds a packet the cursor has passed; as reordered too if a newer one came before during playback) and dropped (invalid, or its slot is taken), and only an accepted one touches the ring. |
| ReceiverLimits.NumberingFollows | src/network/audio_stream_receiver.cpp:116-139 | The first packet starts the numbering; one more than half a ring from the newest either way restarts it, with a new epoch and a resync counted; a newer one becomes the newest; anything else changes nothing of it. |
| ReceiverLimits.StartsIffEnough | src/network/audio_stream_receiver.cpp:267-362 | A receiver that is not playing, or has to start again after a resync, starts if and only if the packets from the first of the numbering to the newest are at least the target, and then exactly that many before the end. |
| AudioStreamReceiver.Receiver.Submit | src/network/audio_stream_receiver.cpp:105-234 | The method on slots and fields does exactly the submission step of the model, for every payload. |
| AudioStreamReceiver.Receiver.TrackSequence | src/network/audio_stream_receiver.cpp:116-139 | First packet, jump beyond half a ring either way (rebase and resync), ordinary advance. |
| AudioStreamReceiver.Receiver.MeasureJitter | src/network/audio_stream_receiver.cpp:141-174 | Smoothed deviation and the moving timing anchor. |
| AudioStreamReceiver.Receiver.AdjustTarget | src/network/audio_stream_receiver.cpp:176-199 | Grow at once, shrink one packet after a full hold, clamped to the configured depths. |
| AudioStreamReceiver.Receiver.FileIntoSlot | src/network/audio_stream_receiver.cpp:201-233 | Late, duplicate, dropped, reclaimed or stored. |
| AudioStreamReceiver.Receiver.Pull | src/network/audio_stream_receiver.cpp:236-265 | The destination array, returned live count and new state are those of the model pull of that length. |
| AudioStreamReceiver.Receiver.BeginPacket | src/network/audio_stream_receiver.cpp:267-344 | Re-prime on a new epoch, refuse when starved, otherwise regulate: the model step, with the refusal leaving the offset alone. |
| AudioStreamReceiver.Receiver.TryPrime | src/network/audio_stream_receiver.cpp:346-362 | Primes exactly when enough packets span the target, at target packets behind the newest. |
| AudioStreamReceiver.Receiver.TakeRealPacket | src/network/audio_stream_receiver.cpp:364-402 | Plays the slot at the cursor, or hands an undecodable packet on to concealment with the slot already spent. |
| AudioStreamReceiver.Receiver.ConcealPacket | src/network/audio_stream_receiver.cpp:415-507 | With playout: one decoder concealment, cursor moved, burst counted. Without: a stretch that touches neither. |
| AudioStreamReceiver.Receiver.TrimOne | src/network/audio_stream_receiver.cpp:321-332 | One latency trim of the model. |
| AudioStreamReceiver.Receiver.PlayCursor | src/network/audio_stream_receiver.cpp:335-343 | One sequence number played, concealed or found undecodable. |
| AudioStreamReceiver.Receiver.RegulatePacket | src/network/audio_stream_receiver.cpp:281-343 | Stretch below the dead zone, trim and play above it, play inside it. |
| AudioStreamReceiver.Receiver.ConfigureDepth | src/network/audio_stream_receiver.cpp:648-663 | Accepts exactly the settings the source accepts and leaves the rest of the state alone. |
| AudioStreamReceiver.Receiver.Reset | src/network/audio_stream_receiver.cpp:665-716 | Every field, slot and counter returns to the start; the configured depths stay. |
| SpscInterleaving.StepKeepsInvariant | include/jamlink/audio/spsc_audio_ring.hpp:36-80 | Each load, single-cell copy and publish of either side, in any order the two threads allow, keeps the protocol invariant. |
| SpscInterleaving.RunKeepsInvariant | include/jamlink/audio/spsc_audio_ring.hpp:36-80 | Every state of every interleaving satisfies it. |
| SpscInterleaving.RunIsBoundedQueue | include/jamlink/audio/spsc_audio_ring.hpp:36-80 | In every interleaving 0 <= write - read <= capacity, what was delivered is a prefix of the concatenation of accepted blocks, and every unread frame is in its cell. |
| SpscInterleaving.CopiesNeverCollide | include/jamlink/audio/spsc_audio_ring.hpp:126-166 | While both sides are copying, no cell the producer writes is one the consumer may read. |
| SpscInterleaving.LoadsDecideExactly | include/jamlink/audio/spsc_audio_ring.hpp:36-66 | The write is refused exactly when the block exceeds the space free at the load; the read takes the smaller of what is asked and what is there at the load. |
| SpscInterleaving.StepsHandOver | include/jamlink/audio/spsc_audio_ring.hpp:36-80 | What each step hands over and counts: a block is accepted when it is published, frames are delivered in order when a read is published, a refused block is one overrun and a short read one underrun, and nothing else is. |
| SpscInterleaving.WritingIsWaitFree | include/jamlink/audio/spsc_audio_ring.hpp:36-54 | A write never waits: in any state it has a step it can take, each brings it one nearer to its end, and no step of the reader takes it away from that; so it ends after at most two steps more than it has frames. |
| SpscInterleaving.ReadingIsWaitFree | include/jamlink/audio/spsc_audio_ring.hpp:57-80 | Nor does a read: it ends after at most two steps more than it asked for frames, whatever the writer does. |
| SpscAudioRing.TwoPieces | include/jamlink/audio/spsc_audio_ring.hpp:126-166 | The piece up to the end of the storage and the piece from its start together are the consecutive cells of the ring. |
| SpscAudioRing.FillExtends | include/jamlink/audio/spsc_audio_ring.hpp:36-54 | Filling the cells after the unread ones extends the unread content by exactly the block. |
| SpscAudioRing.Ring.Write | include/jamlink/audio/spsc_audio_ring.hpp:36-54 | A ragged block is ignored, a block larger than the free space is refused whole and counted as an overrun, any other is appended to the contents. |
| SpscAudioRing.Ring.CopyIntoRing | include/jamlink/audio/spsc_audio_ring.hpp:126-145 | The two-piece copy stores the block in its ring cells and touches no other cell. |
| SpscAudioRing.Ring.ReadAndZeroFill | include/jamlink/audio/spsc_audio_ring.hpp:57-80 | Removes the longest available prefix of the contents into the destination, zero-fills the rest, counts one underrun when short; a ragged destination is only zeroed. |
| SpscAudioRing.Ring.ReadFrames | include/jamlink/audio/spsc_audio_ring.hpp:60-79 | The same for a whole number of frames. |
| SpscAudioRing.Ring.CopyFromRing | include/jamlink/audio/spsc_audio_ring.hpp:147-166 | The two-piece copy delivers the consecutive unread cells. |
| SpscAudioRing.Ring.Clear | include/jamlink/audio/spsc_audio_ring.hpp:101-108 | Empties the ring and its counters. |
| StableSorting.SortSorts | src/audio/audio_route_graph.cpp:96-102 | The sorted list is in key order and has the same elements with multiplicity. |
| StableSorting.SortIsStable | src/audio/audio_route_graph.cpp:96-102 | Elements of equal key keep their order. |
| StableSorting.StableSortIsUnique | src/audio/audio_route_graph.cpp:96-102 | Order and stability leave exactly one possible result, so any stable sort gives it. |
| RouteMixing.PassSolves | src/audio/audio_route_graph.cpp:132-151 | One in-place pass in a sources-first order leaves every finitely injected sample equal to what was injected plus gain x final source level over all its incoming routes. |
| RouteMixing.SolutionIsUnique | src/audio/audio_route_graph.cpp:132-151 | Those equations have one solution when the routes climb a ranking and the injected samples are finite. |
| RouteMixing.PassCleans | src/audio/audio_route_graph.cpp:143-149 | After the pass a sample is finite exactly when it was injected finite or any route feeds it. |
| RouteMixing.NonFiniteInputCostsOneArrival | src/audio/audio_route_graph.cpp:143-149 | A non-finite injected sample becomes the sum of its arrivals without the first one: exactly what the scrub loses. |
| RouteMixing.ByRankIsSourcesFirst | src/audio/audio_route_graph.cpp:96-102 | Stable sorting by the rank of the source bus yields an order in which no route writes a bus already read. |
| RouteMixing.ListingOrderIsIrrelevant | src/audio/audio_route_graph.cpp:96-151 | Two listings of the same routes, each sorted by its own valid ranking, mix every injected frame alike. |
| RouteOrdering.Order | src/audio/audio_route_graph.cpp:67-94 | The returned order lists distinct buses; it lists all of them if and only if the route graph has no directed cycle, and then every route goes forward in it. |
| RouteOrdering.Tally | src/audio/audio_route_graph.cpp:67-72 | In-degrees and target lists are the exact counts of the routes. |
| RouteOrdering.Seed | src/audio/audio_route_graph.cpp:73-80 | The queue starts with exactly the buses nothing feeds. |
| RouteOrdering.Release | src/audio/audio_route_graph.cpp:81-90 | Taking a bus off the queue lowers each target once per route and queues exactly the ones that reach zero. |
| RouteOrdering.TopologicalIsAcyclic | src/audio/audio_route_graph.cpp:67-94 | A graph with a topological order has no cycle. |
| RouteOrdering.StuckIsCyclic | src/audio/audio_route_graph.cpp:92-94 | If the queue runs dry with buses left, there is a cycle among them. |
| AudioRouteGraph.AllocateBuses | src/audio/audio_route_graph.cpp:19-48 | Accepts exactly the valid bus lists, gives each bus its own silent buffer of its own size, and otherwise names a rejection that holds of the definitions. |
| AudioRouteGraph.CompileRoutes | src/audio/audio_route_graph.cpp:50-65 | Compiles exactly the valid route lists, route for route. |
| AudioRouteGraph.BusesFineMeans | src/audio/audio_route_graph.cpp:23-48 | A list of buses is fine if and only if each has a channel and a buffer that can be addressed, all ids differ, and a private soundcheck has no bus that sends to, receives from or plays somebody else. |
| AudioRouteGraph.RoutesFineMeans | src/audio/audio_route_graph.cpp:50-65 | A list of routes is fine if and only if each leads from a channel of a bus there is to a channel of a bus there is with a finite gain; it is compiled to just those. |
| AudioRouteGraph.Build | src/audio/audio_route_graph.cpp:19-103 | Construction succeeds if and only if bounds, buses, routes and acyclicity are all in order; the graph is silent, its routes are the stable sort by topological rank; a rejection names a fault that is really there. |
| AudioRouteGraph.PassIsTheMeaning | src/audio/audio_route_graph.cpp:132-151 | For a compiled graph and finite injected samples, any levels that satisfy the recursive equations are the ones the single pass leaves. |
| AudioRouteGraph.ListingsMixAlike | src/audio/audio_route_graph.cpp:50-151 | Route definitions listed in any order compile to graphs that mix alike. |
| AudioRouteGraph.Graph.BeginBlock | src/audio/audio_route_graph.cpp:105-112 | Silences exactly the active frames of every bus and reports whether the block fitted. |
| AudioRouteGraph.Graph.MixRoute | src/audio/audio_route_graph.cpp:132-151 | One route mixed over the buffers changes exactly its destination channel in the active frames. |
| AudioRouteGraph.Graph.ProcessRoutes | src/audio/audio_route_graph.cpp:132-151 | The in-place pass over the buffers leaves every active frame solving its own recursive equations, and every frame beyond them as it was. |
| ResamplerModel.AfterWriteSound | include/jamlink/audio/async_mono_resampler.hpp:60-91 | Whatever is written, the unread frames stay within capacity less the guard; an oversized block is refused whole. |
| ResamplerModel.AfterReadSound | include/jamlink/audio/async_mono_resampler.hpp:93-135 | Whatever is read, the cursor stays within the ring and never moves back; it ends less than one step past the last frame that can be interpolated, or, if nothing was produced, where it was or at the working fill. |
| ResamplerModel.RunStaysInRing | include/jamlink/audio/async_mono_resampler.hpp:60-135 | After any run of writes and reads written - floor(cursor) <= capacity - 2 and the write cursor counts exactly the accepted frames. |
| ResamplerModel.StepNearNominal | include/jamlink/audio/async_mono_resampler.hpp:95-119 | A read steps within 500 parts per million of the nominal rate ratio. |
| ResamplerModel.ProducedFits | include/jamlink/audio/async_mono_resampler.hpp:121-135 | A read stops exactly at the first position whose right neighbour has not been written, and never before. |
| ResamplerModel.ProducesAll | include/jamlink/audio/async_mono_resampler.hpp:121-135 | A read fills its destination if and only if the position of its last sample has both neighbours written. |
| ResamplerModel.InterpolatedBetween | include/jamlink/audio/async_mono_resampler.hpp:121-133 | Each output lies between the two frames it interpolates. |
| ResamplerControl.StepFollowsBacklog | include/jamlink/audio/async_mono_resampler.hpp:100-120 | The step of a primed read departs from nominal by a thousandth of the relative error of the backlog against the working fill, at most half a thousandth; an unprimed one starts a working fill behind the newest frame at the nominal step, or not at all with fewer than two frames more waiting. |
| ResamplerControl.LinesAreReproduced | include/jamlink/audio/async_mono_resampler.hpp:122-138 | A straight line in the stream comes out as the same line, at every position. |
| ResamplerControl.StepGoesTheRightWay | include/jamlink/audio/async_mono_resampler.hpp:115-118 | A primed read runs fast exactly over a backlog above the working fill and slow exactly over one below it. |
| ResamplerControl.LargerBacklogReadsFaster | include/jamlink/audio/async_mono_resampler.hpp:115-118 | And never slower over a larger backlog. |
| ResamplerControl.SteadyStreamClosesIn | include/jamlink/audio/async_mono_resampler.hpp:66-138 | With one read's span written for every read, over any number of cycles nothing is lost and the backlog closes in on the working fill: the error never grows and never changes sign. |
| ResamplerControl.SteadyStreamArrives | include/jamlink/audio/async_mono_resampler.hpp:66-138 | And it gets there: for any tolerance, after as many cycles as the least correction at that tolerance goes into the first error, the backlog is within it. |
| ResamplerControl.WriteDropsLeast | include/jamlink/audio/async_mono_resampler.hpp:66-97 | A block is taken at the cost of the oldest frames, whole ones and no more than leave the guard free, or refused if it is as large as the ring; a loss of either kind is counted once, and displaced frames have the reader start afresh. |
| ResamplerControl.ReadCounts | include/jamlink/audio/async_mono_resampler.hpp:99-138 | A read stays primed exactly if it delivers all it was asked for, and otherwise is counted once; the correction shown is the one applied. |
| ResamplerControl.EveryLossIsCounted | include/jamlink/audio/async_mono_resampler.hpp:66-138 | Over every run the two counters are exactly the reads that came short and the blocks that cost something. |
| ResamplerControl.ClearedIsEmpty | include/jamlink/audio/async_mono_resampler.hpp:54-64 | Clearing leaves nothing waiting and nothing counted, at the same rates. |
| AsyncMonoResampler.Resampler.TryConfigure | include/jamlink/audio/async_mono_resampler.hpp:35-46 | Accepts exactly the supported rates, clearing the stream; otherwise nothing changes. |
| AsyncMonoResampler.Resampler.Write | include/jamlink/audio/async_mono_resampler.hpp:60-91 | The ring refines an unbounded stream: an accepted block is appended to it with non-finite frames cleaned, displaced frames only move the cursor. |
| AsyncMonoResampler.Resampler.Read | include/jamlink/audio/async_mono_resampler.hpp:93-135 | Every output is the interpolation of the absolute frames floor(r) and floor(r) + 1 of the accepted stream at consecutive positions r; the rest is zero. |
| AsyncMonoResampler.Resampler.Interpolate | include/jamlink/audio/async_mono_resampler.hpp:121-135 | The loop produces the longest run of positions the written frames allow. |
| PacerModel.AcceptKeepsSane | include/jamlink/network/outgoing_audio_pacer.hpp:101-108 | Accepting any block keeps the converter within its ring and at the pacer's rates. |
| PacerModel.ReleaseKeepsSane | include/jamlink/network/outgoing_audio_pacer.hpp:113-159 | So does any release. |
| PacerGuard.PrimedFills | include/jamlink/network/outgoing_audio_pacer.hpp:140-150 | A primed converter holding what the guard asks for always fills the packet, under any drift correction. |
| PacerGuard.UnprimedFills | include/jamlink/audio/async_mono_resampler.hpp:106-135 | An unprimed converter fills the packet if and only if it may prime and its working fill reaches past the last position. |
| PacerGuard.GuardHolds | include/jamlink/network/outgoing_audio_pacer.hpp:140-150 | Under the guard condition, whenever the guard opens the whole packet is read, primed or not. |
| PacerGuard.GuardBreaks | include/jamlink/network/outgoing_audio_pacer.hpp:140-150 | Outside the condition a new converter with exactly the required backlog falls short. |
| PacerGuard.GuardSufficesExactly | include/jamlink/network/outgoing_audio_pacer.hpp:135-155 | The guard is sufficient for every converter state if and only if the condition on packet size, rates and backlog limit holds. |
| PacerGuard.RoomySessionsSuffice | include/jamlink/network/outgoing_audio_pacer.hpp:178-217 | A packet of at least eight source frames and a backlog limit of at least four packets is enough, and the guard can then open. |
| PacerSchedule.DueReleaseSends | include/jamlink/network/outgoing_audio_pacer.hpp:131-159 | Under the guard condition a release sends if and only if it is due and the backlog is there, and one that does not send loses no audio. |
| PacerSchedule.FirstReleaseFallsShort | include/jamlink/network/outgoing_audio_pacer.hpp:140-159 | Outside the condition, accepting exactly the required backlog into a new pacer makes a due release fail. |
| PacerSchedule.ReadMakesProgress | include/jamlink/network/outgoing_audio_pacer.hpp:249-261 | A packet read under the guard always shortens the backlog. |
| PacerSchedule.TrimReachesTarget | include/jamlink/network/outgoing_audio_pacer.hpp:241-263 | Discarding counts exactly the frames that go, in every configuration; where the guard suffices it ends at or under its target. |
| PacerSchedule.AcceptBoundsBacklog | include/jamlink/network/outgoing_audio_pacer.hpp:101-108 | After accepting, the discard counter says exactly how many frames went; where the guard suffices, the backlog is within the limit or was cut to twice the requirement. |
| PacerSchedule.BurstIsBounded | include/jamlink/network/outgoing_audio_pacer.hpp:113-159 | Any number of releases at one instant send at most maximumDeficit / interval + 1 packets. |
| PacerSchedule.PollMovesDeadline | include/jamlink/network/outgoing_audio_pacer.hpp:113-159 | One poll of a running schedule moves the deadline by exactly the deficit beyond the limit, an interval if it sends and an eighth of one if it drains. |
| PacerSchedule.DeadlineLedger | include/jamlink/network/outgoing_audio_pacer.hpp:79-159 | Over every run on a forward clock, rate changes and resets included, a running deadline = start + interval x packets released + deficit beyond the limit at each poll - interval / 8 x drains; it is at most one interval ahead of the clock, and each clock reading drains at most once. |
| PacerSchedule.NeverAheadOfTheClock | include/jamlink/network/outgoing_audio_pacer.hpp:113-207 | So the packets released never exceed the elapsed time plus one interval plus an eighth of one for each drain, with at most one drain for each different instant polled. |
| PacerSchedule.EveryRunIsAccounted | include/jamlink/network/outgoing_audio_pacer.hpp:79-207 | Both hold of every run of a new pacer on a forward clock. |
| PacerSchedule.StarvedKeepsDeadline | include/jamlink/network/outgoing_audio_pacer.hpp:117-159 | A due release that is starved leaves the deadline alone and counts; a sent one moves it by exactly one interval; before that only a clock that went back or a deficit beyond the limit moves it. |
| PacerLaws.ResetIsNew | include/jamlink/network/outgoing_audio_pacer.hpp:91-98 | A pacer that is reset is a new one at the same rate. |
| PacerLaws.RateChangeRestarts | include/jamlink/network/outgoing_audio_pacer.hpp:79-89 | Another supported rate restarts converter and schedule and keeps the counts; the same one or an unsupported one changes nothing. |
| PacerLaws.NothingWithoutARate | include/jamlink/network/outgoing_audio_pacer.hpp:101-115 | Until it is given a rate a pacer takes nothing in and sends nothing. |
| PacerLaws.RingIsLeastThatHolds | include/jamlink/network/outgoing_audio_pacer.hpp:176-184 | The converter's ring is the least of 64, 128, 256, ... that holds the permitted backlog twice. |
| PacerLaws.OneFrameLessIsTooFew | include/jamlink/network/outgoing_audio_pacer.hpp:213-217 | The required backlog is not generous: for 128-frame packets from 44.1 to 48 kHz an unprimed converter with one frame less gives nothing. |
| PacerLaws.PacketsAreConsecutive | include/jamlink/network/outgoing_audio_pacer.hpp:113-159 | A packet that is sent is a whole read, the next one starts exactly where it ended, and only a converter that was not primed skips anything before one. |
| PacerLaws.UncountedIsOnePacket | include/jamlink/network/outgoing_audio_pacer.hpp:219-236 | Of the frames a sent packet takes, all but those of one packet and two to spare are counted as discarded, and if any are, all but exactly those of one packet. |
| PacerLaws.LossOnArrivalIsCountedIff | include/jamlink/network/outgoing_audio_pacer.hpp:101-108 | What comes in is waiting afterwards or counted as discarded if and only if the converter's ring did not overrun. |
| OutgoingAudioPacer.ConverterCapacity | include/jamlink/network/outgoing_audio_pacer.hpp:178-184 | The doubling loop stops at the first of 64, 128, 256, ... that holds twice the backlog limit. |
| OutgoingAudioPacer.Sender.SetSourceRate | include/jamlink/network/outgoing_audio_pacer.hpp:79-89 | Same rate: nothing; supported rate: reconfigured and restarted; otherwise refused. |
| OutgoingAudioPacer.Sender.Reset | include/jamlink/network/outgoing_audio_pacer.hpp:91-98 | Back to a new pacer at the same rate. |
| OutgoingAudioPacer.Sender.Accept | include/jamlink/network/outgoing_audio_pacer.hpp:101-108 | The model step on the real converter and scratch buffer. |
| OutgoingAudioPacer.Sender.Release | include/jamlink/network/outgoing_audio_pacer.hpp:113-159 | The model step; a sent packet is a faithful run of interpolated positions of the captured stream, and the captured stream itself never changes. |
| OutgoingAudioPacer.Sender.DrainStandingBacklog | include/jamlink/network/outgoing_audio_pacer.hpp:196-207 | Pulls the deadline in only with a standing backlog and at most once per clock reading. |
| OutgoingAudioPacer.Sender.DiscardBacklogBeyondLimit | include/jamlink/network/outgoing_audio_pacer.hpp:241-263 | The loop of packet-sized reads of the model. |
| LevelMeter.TotalsDescribeTheStream | include/jamlink/audio/level_meter.hpp:82-138 | After any block the totals are counts over the whole stream since the last reset: clipped samples, clipping runs, invalid samples, peak, latest clip position, latches. |
| LevelMeter.ClearedDescribesNothing | include/jamlink/audio/level_meter.hpp:57-69 | A reset leaves totals that describe the empty stream. |
| LevelMeter.BlockPeaks | include/jamlink/audio/level_meter.hpp:76-93 | The block peak is the greatest finite magnitude in the block. |
| LevelMeter.BlockMarks | include/jamlink/audio/level_meter.hpp:82-118 | A block is marked clipped exactly when it holds a sample at the threshold or a non-finite one. |
| LevelMeter.BlockSizeIsIrrelevant | include/jamlink/audio/level_meter.hpp:54-138 | Scanning two blocks leaves the same totals as scanning their concatenation. |
| LevelMeter.MeanSquareIsMean | include/jamlink/audio/level_meter.hpp:132-142 | The published mean square times the block's size is the sum of the squares of its finite samples; it lies between nothing and the square of the block's peak, and is nothing for an empty block. |
| LevelMeter.ReadingShowsTheStream | include/jamlink/audio/level_meter.hpp:132-160 | What a block publishes shows the stream since the last reset: clipped samples, runs, the last one's position, invalid samples, the loudest and the headroom warning. |
| LevelMeter.SilenceIsAnEmptyBlock | include/jamlink/audio/level_meter.hpp:140-160 | Before the first block a meter shows what an empty block after a reset would. |
| LevelMeter.LatchesExclude | include/jamlink/audio/level_meter.hpp:116-130 | A hard clip puts out headroom warning and self test, a headroom warning in the block puts out the self test, and a block latches exactly if it clips, warns or was asked for a self test. |
| LevelMeter.Meter.Process | include/jamlink/audio/level_meter.hpp:54-159 | Observes requests, scans, and publishes exactly the reading of the block, with a new clip generation exactly when it latches; afterwards a clip shows exactly if one showed before or the block latched. |
| LevelMeter.Meter.ScanSample | include/jamlink/audio/level_meter.hpp:82-114 | One sample's branches: non-finite, clipped, near full scale. |
| LevelMeter.Meter.FinishBlock | include/jamlink/audio/level_meter.hpp:116-138 | Latch precedence of hard clip over risk over self-test. |
| LevelMeter.Meter.ClearClipLatch | include/jamlink/audio/level_meter.hpp:208-213 | No clip shows any more and the next block starts its totals again. |
| LevelMeter.Meter.RequestClipSelfTest | include/jamlink/audio/level_meter.hpp:218-220 | The next block latches. |
| LevelMeterPublication.RunKeepsInvariant | include/jamlink/audio/level_meter.hpp:140-213 | Every interleaving of word stores, word loads and latch clears keeps the protocol invariant. |
| LevelMeterPublication.SnapshotsAreCoherent | include/jamlink/audio/level_meter.hpp:140-187 | A returned snapshot has all its words from one completed block, as long as fewer than 2^31 blocks were published while it was being taken. |
| LevelMeterPublication.ClipShowsExactly | include/jamlink/audio/level_meter.hpp:143-213 | A coherent snapshot shows clipped if and only if some block latched between the last one the clear had seen and the one shown, whichever of the two came first. |
| LevelMeterPublication.ClipShowsUntilCleared | include/jamlink/audio/level_meter.hpp:143-213 | A coherent snapshot that no clear overlaps shows clipped if and only if some block latched after those the last clear had seen, up to the one shown. |
| LevelMeterPublication.ClearDuringSnapshotShowsClip | include/jamlink/audio/level_meter.hpp:163-213 | The overlap matters: a run in which a clear during the snapshot of a silent block makes it show as clipped. |
| LevelMeterPublication.TornAfterWrap | include/jamlink/audio/level_meter.hpp:163-187 | The bound is exact: with 2^31 blocks during one snapshot the 32-bit guard returns to its value and the snapshot matches no block. |
| RateWindow.AskDecides | services/directory/jamlink_directory.py:164-172 | The pruned queue allows a request if and only if fewer than limit acceptances of the whole history lie within the window. |
| RateWindow.NoBurst | services/directory/jamlink_directory.py:164-172 | Acceptances spaced this way never put more than limit of them into any closed window of 60 s. |
| RateWindow.QueuesDecideLikeHistories | services/directory/jamlink_directory.py:164-172 | Over any sequence of questions and expiries, for every peer, queues and full histories give the same answers. |
| RateWindow.LimitHolds | services/directory/jamlink_directory.py:656-660 | So from an empty table, with expiry interleaved, no peer ever has more than limit acceptances in any closed 60 s. |
| PrivateRooms.ExpireKeepsInvariant | services/directory/jamlink_directory.py:634-655 | Expiring rooms and requests keeps every room invariant. |
| PrivateRooms.AdmitKeepsInvariant | services/directory/jamlink_directory.py:570-600 | Admitting one guest, turning the others away and closing admission keeps them. |
| PrivateRooms.RunKeepsInvariant | services/directory/jamlink_directory.py:414-617 | Every run of calls, in any order, at any times, with any tokens, keeps them. |
| PrivateRooms.RoomsAdmitOne | services/directory/jamlink_directory.py:494-600 | In every reachable state each request's room exists, a room has at most one admitted guest and at most 16 waiting, and a closed room has none waiting. |
| PrivateRooms.InviteIsTheAdmittedOnes | services/directory/jamlink_directory.py:602-617 | An invite handed out is that of the very incarnation of the room whose owner admitted that request, and the missing-room branch is never taken. |
| PrivateRooms.AdmissionsAreSingleUse | services/directory/jamlink_directory.py:570-600 | No incarnation of a room ever admits twice. |
| PrivateRooms.OnlyOwnersAdmit | services/directory/jamlink_directory.py:570-600 | The admission record only grows, by one entry if and only if the call approves a request waiting at an open room with the token of that room's owner; the entry records request, incarnation and invite. |
| PrivateRooms.AdmissionsHaveDecisions | services/directory/jamlink_directory.py:570-600 | Every admission of a run was made by one such call of that run. |
| PrivateRooms.InvitesAreApproved | services/directory/jamlink_directory.py:570-617 | Behind every invite there is an earlier call of the same run in which the owner of that very room incarnation approved that very request. |
| PrivateRooms.ListingIsWhole | services/directory/jamlink_directory.py:550-568 | In every reachable state the listing of a room holds each request waiting there exactly once and nothing else. |
| PrivateRooms.FiledIsListedLast | services/directory/jamlink_directory.py:494-548 | A newly filed request joins the end of its own room's listing and leaves every other listing as it was. |
| PrivateRoomLaws.TokenOpens | services/directory/jamlink_directory.py:386-395 | What opens a hash is the bearer header of a token of 64 lower-case hexadecimal digits with that digest, and nothing else. |
| PrivateRoomLaws.OnlyOwnersTouchRooms | services/directory/jamlink_directory.py:414-600 | Whoever calls what, a live room is as it was afterwards, and an absent one absent, unless the call carries the token of its owner or opens it. |
| PrivateRoomLaws.OnlyOwnersDecide | services/directory/jamlink_directory.py:414-617 | And a live request is as it was unless its room's owner makes the call. |
| PrivateRoomLaws.OwnerProlongs | services/directory/jamlink_directory.py:466-477 | With the owner's token a heartbeat gives the room ninety more seconds and nothing else; each refusal names what was wrong. |
| PrivateRoomLaws.OwnerRemoves | services/directory/jamlink_directory.py:479-492 | With the owner's token a removal takes the room and exactly the requests to it. |
| PrivateRoomLaws.OpeningIsFreeOrOwn | services/directory/jamlink_directory.py:414-464 | A room is opened if and only if the offer is valid and its code free or the caller's own; it is then open to guests for ninety seconds under the new token, with nobody waiting. |
| PrivateRoomLaws.AskIsFiledIffPermitted | services/directory/jamlink_directory.py:494-548 | A request is filed if and only if its room is there and open, the guest's build is the room's, the body is valid and fewer than sixteen wait; each refusal names the first of these that fails; what is filed waits for two minutes under the digest of its token. |
| PrivateRoomLaws.GuestsAreCompatible | services/directory/jamlink_directory.py:501-512 | In every reachable state each request was made with exactly the build of the room incarnation it joined. |
| PrivateRoomLaws.InvitedGuestIsCompatible | services/directory/jamlink_directory.py:501-617 | And so was that of every guest that is handed an invite. |
| PrivateRoomLaws.RequestsWereFiled | services/directory/jamlink_directory.py:494-548 | Every request of a run was there before it or was filed by a call of it, with the build, the guest and the token that it has. |
| PrivateRoomLaws.DecisionIsMadeIffPermitted | services/directory/jamlink_directory.py:570-600 | A decision is made if and only if the request is live at that live room, the token is the owner's, the request still waits and, for an approval, the room is open; each refusal names the first of these that fails. |
| PrivateRoomLaws.DecisionTakesEffect | services/directory/jamlink_directory.py:586-600 | What a decision does to each request and each room: the chosen one, everyone else waiting there, and nothing else. |
| PrivateRoomLaws.StatusIsToldToItsOwner | services/directory/jamlink_directory.py:602-617 | The state of a request is told to the holder of its own token and to nobody else. |
| PrivateRoomLaws.ListIsReadByTheOwner | services/directory/jamlink_directory.py:550-568 | The waiting list is read by the owner of a live room and by nobody else. |
| PrivateRoomLaws.UntendedRoomLivesItsTime | services/directory/jamlink_directory.py:414-655 | Over any run of calls, a room that its owner leaves alone is there, unchanged, until its time has come and gone with the first call from then on. |
| PrivateRoomLaws.UndecidedRequestLivesItsTime | services/directory/jamlink_directory.py:414-655 | And a request until its own time or its room's, whichever comes first. |
| DirectoryState.Directory.RateAllowed | services/directory/jamlink_directory.py:164-172 | The popping loop and append of the model window. |
| DirectoryState.Directory.Expire | services/directory/jamlink_directory.py:634-664 | Presences, lobbies and rooms past their time, then requests past theirs or without a room, then rate windows; the result says exactly whether one of the first four tables changed. |
| DirectoryState.Directory.CreatePrivateRoom | services/directory/jamlink_directory.py:414-464 | Every refusal and the success of the source, as a step of the model. |
| DirectoryState.Directory.HeartbeatPrivateRoom | services/directory/jamlink_directory.py:466-477 | Prolongs exactly the owner's room. |
| DirectoryState.Directory.RemovePrivateRoom | services/directory/jamlink_directory.py:479-492 | Removes exactly the owner's room with its requests. |
| DirectoryState.Directory.RequestPrivateRoom | services/directory/jamlink_directory.py:494-548 | Missing, closed, incompatible, full or filed, as the source orders the checks. |
| DirectoryState.Directory.ListPrivateRequests | services/directory/jamlink_directory.py:550-568 | Lists the waiting requests of the owner's room in the order they were filed. |
| DirectoryState.Directory.DecidePrivateRequest | services/directory/jamlink_directory.py:570-600 | Approval admits one, denies the other waiting ones and closes the room; denial touches one request. |
| DirectoryState.Directory.PrivateRequestStatus | services/directory/jamlink_directory.py:602-617 | The status reply, with the invite only for the admitted. |
| RoomRuns.CapabilityAlgebra | include/jamlink/control/room_authority.hpp:51-67 | Setting or clearing a capability bit changes that capability and no other, on 32-bit words. |
| RoomRuns.RolesEndRoom | src/control/room_authority.cpp:36-58 | The host role has every capability; no other role has the one that ends the room. |
| RoomRuns.DecisionsChangeOne | src/control/room_authority.cpp:104-232 | A successful decision changes exactly one participant and gives it a fresh revision; a refused one changes nothing. |
| RoomRuns.ReapFromKeepsActive | src/control/room_authority.cpp:234-247 | Removal in place while scanning keeps exactly the active participants in their order. |
| RoomRuns.RunKeepsInvariant | src/control/room_authority.cpp:60-247 | Over every run place 0 is the same host, the only Host, admitted with every capability; ids are distinct and at most twelve; revisions are distinct and below the next one. |
| RoomRuns.OnlyTheHostEndsTheRoom | src/control/room_authority.cpp:249-257 | In every reachable room EndRoom is authorised for the host id and for nobody else. |
| RoomRuns.OnlyManagersGiveRoles | src/control/room_authority.cpp:283-295 | A role is only ever given by an admitted host, or by an admitted co-host to someone who is not one and not the co-host role, and it comes with exactly its capabilities. |
| RoomRuns.ResumeRestores | src/control/room_authority.cpp:193-232 | A resume after any undisturbed run needs the token and time given at the disconnect and restores role, capabilities and name with a newer revision. |
| RoomRuns.ResumesNeverOutnumberDisconnects | src/control/room_authority.cpp:193-232 | Over any run a participant's resumes never outnumber its disconnects, so each disconnect allows at most one. |
| RoomLaws.RolesAreNested | src/control/room_authority.cpp:36-58 | A role starts with a capability exactly if it is at least the role that needs it, so each role has all that the ones below have. |
| RoomLaws.EveryRoomStands | src/control/room_authority.cpp:60-247 | In every room from its opening on who waits or was turned away has no role and may do nothing, who is in has a role, and who dropped out has a token of proper length and a time to come back by. |
| RoomLaws.AdmittedIffPermitted | src/control/room_authority.cpp:104-126 | A waiting participant is let in if and only if the actor is in, may admit users and manages the role given; a performer also takes the right to make performers. Only that entry changes. |
| RoomLaws.RoleChangesIffPermitted | src/control/room_authority.cpp:144-168 | A role changes if and only if the target is in and the actor manages both roles, with its own right for making and for unmaking a performer. Only that entry changes. |
| RoomLaws.DeniedIffPermitted | src/control/room_authority.cpp:128-142 | A waiting participant is turned away if and only if the actor may admit users, in or not, and then may do nothing. |
| RoomLaws.CapabilitySwitchesIffPermitted | src/control/room_authority.cpp:170-191 | One capability of someone who is in and not the host is switched if and only if the actor may manage the room and it is not that of ending the room; every other capability stays. |
| RoomLaws.DropsIffIn | src/control/room_authority.cpp:193-209 | One drops out if and only if one is in, not the host, with a token of 32 to 128 characters and a time. |
| RoomLaws.ReturnsIffTokenIsGood | src/control/room_authority.cpp:211-232 | One comes back if and only if the very token is given before its time, with a proper successor that is good for longer than now. |
| RoomLaws.AskedIffThereIsRoom | src/control/room_authority.cpp:76-102 | One asks to be let in if and only if id and name are of proper length, the id is new, and one of the twelve places is free or held by someone turned away; the first of those leaves whatever comes of it. |
| RoomLaws.ReapTakesTheInactive | src/control/room_authority.cpp:234-247 | The reaper takes exactly those turned away and those whose time to come back is over. |
| RoomLaws.OnlyThoseInAreAuthorised | src/control/room_authority.cpp:249-257 | One is authorised for exactly what one's capabilities say while one is in, and for nothing otherwise. |
| RoomLaws.CapabilitiesFollowRoles | src/control/room_authority.cpp:60-247 | As long as no capability is switched by itself, everyone's are exactly those of their role, through waiting, roles, disconnects and returns. |
| RoomLaws.AbsentCoHostStillDenies | src/control/room_authority.cpp:128-142 | A run at whose end a co-host that has dropped out, and is no longer authorised, still turns a guest away, though it can let nobody in. |
| RoomAuthority.Authority.RequestAdmission | src/control/room_authority.cpp:76-102 | Empty or known id, reuse of a denied place, full room, or a new waiting entry. |
| RoomAuthority.Authority.Admit | src/control/room_authority.cpp:104-126 | The model step on the fixed array. |
| RoomAuthority.Authority.Deny | src/control/room_authority.cpp:128-142 | The model step on the fixed array. |
| RoomAuthority.Authority.SetRole | src/control/room_authority.cpp:144-168 | The model step on the fixed array. |
| RoomAuthority.Authority.SetCapability | src/control/room_authority.cpp:170-191 | The model step on the fixed array. |
| RoomAuthority.Authority.Disconnect | src/control/room_authority.cpp:193-209 | The model step on the fixed array. |
| RoomAuthority.Authority.Resume | src/control/room_authority.cpp:211-232 | The model step on the fixed array. |
| RoomAuthority.Authority.ReapInactive | src/control/room_authority.cpp:234-247 | Removes exactly the denied and the expired disconnected participants, by scanning and shifting in place. |
| RoomAuthority.Authority.RemovePlace | src/control/room_authority.cpp:301-310 | Shifts the later places down, keeping their order. |
| RoomAuthority.Authority.Authorize | src/control/room_authority.cpp:249-257 | The capability test of an admitted participant. |
| RoomAuthority.Authority.WaitingCount | src/control/room_authority.cpp:271-277 | The number of waiting places. |
| IceChecklist.ChecklistIsSorted | src/network/ice_agent.cpp:54-77 | The checklist is a stable priority-sorted permutation of the first maximumPairs of local x remote, all waiting. |
| IceChecklist.RunKeepsInvariant | src/network/ice_agent.cpp:54-128 | Every operation, at any clock values, keeps order, limits, prefix and timing. |
| IceChecklist.ProbesAreBounded | src/network/ice_agent.cpp:79-112 | In every run probed pairs form a prefix until a response, the k-th retry of a pair is never before first + k x interval, and at most probesBeforeFailure probes for each pair on the list are sent, of which there are at most maximumPairs. |
| IceChecklist.SilentOnceConnected | src/network/ice_agent.cpp:79-84 | Once a pair has succeeded no further probe is sent and the connection stays. |
| IceChecklist.ResponseConnects | src/network/ice_agent.cpp:114-128 | A response connects exactly when some pair to that remote has not failed: a late one still counts, so exhaustion is not final. |
| IceChecklist.ActsWhenDue | src/network/ice_agent.cpp:79-112 | Unconnected and not exhausted with no pair too soon to probe, the next action is a probe. |
| IceChecklist.NominatedIsFirstSucceeded | src/network/ice_agent.cpp:130-147 | The nominated pair is the first succeeded one in list order. |
| IceChecklist.NominationIsFirst | src/network/ice_agent.cpp:130-147 | So in every run, and there is one exactly when the agent is connected. |
| IceLaws.WorseHalfDecides | src/network/ice_agent.cpp:13-29 | A pair comes before another if its worse half is of a better kind, or that is equal and its better half is. |
| IceLaws.CandidatesStayListed | src/network/ice_agent.cpp:38-52 | Over every run both candidate lists hold valid candidates, each once. |
| IceLaws.CandidateIsListedOnce | src/network/ice_agent.cpp:38-44 | A candidate joins the end of its list if and only if it has an address and a port and is not there yet. |
| IceLaws.PairsAreTheFirstListed | src/network/ice_agent.cpp:54-70 | The pair of the i-th local and the j-th remote candidate is on the list if and only if i times the remotes plus j is below the maximum: the cut is made before the sorting. |
| IceLaws.BestPairMayBeLeftOut | src/network/ice_agent.cpp:54-77 | So a run can leave the pair of two hosts out in favour of one through a relay that was listed first. |
| IceLaws.BeginningStarts | src/network/ice_agent.cpp:72-77 | Checks begin at the clock reading given, with no probe sent and the candidates as they were; before that nothing is sent and nothing is exhausted. |
| IceLaws.FirstReadyPairIsProbed | src/network/ice_agent.cpp:79-112 | While checks run, what is sent is a probe of the first pair in the list that is open, has a probe left and is due, from its local to its remote end; nothing else moves but pairs without a probe left, which fail; and nothing is sent if no pair is ready or checks are not running. |
| IceLaws.AnswerCountsForItsPairs | src/network/ice_agent.cpp:114-128 | An answer makes exactly the open pairs to that candidate succeed, at the time it came. |
| IceLaws.ExhaustedExactly | src/network/ice_agent.cpp:149-163 | On a forward clock checks have failed if and only if none answered and the time is up or every pair had all its probes. |
| IceLaws.ExhaustionLasts | src/network/ice_agent.cpp:79-163 | Once they have failed, asking and waiting sends nothing and changes nothing. |
| IceAgent.Agent.AddLocalCandidate | src/network/ice_agent.cpp:38-44 | Adds a valid new candidate at the end, otherwise nothing. |
| IceAgent.Agent.AddRemoteCandidate | src/network/ice_agent.cpp:46-52 | The same for the other side. |
| IceAgent.Agent.BeginChecks | src/network/ice_agent.cpp:54-77 | The nested loops and the sort build the model checklist. |
| IceAgent.Agent.NextAction | src/network/ice_agent.cpp:79-112 | The scan in list order: failures marked, first due pair probed. |
| IceAgent.Agent.OnProbeResponse | src/network/ice_agent.cpp:114-128 | Every matching pair that has not failed succeeds. |
| IceAgent.Agent.GetNominated | src/network/ice_agent.cpp:130-147 | The strict-comparison scan. |
| IceAgent.Agent.IsExhausted | src/network/ice_agent.cpp:149-163 | Time out, or every pair given up. |
| IceAgent.Agent.Reset | src/network/ice_agent.cpp:165-171 | Back to a new agent. |
| TextLines.SplitUndoesJoin | src/record/take_manifest.cpp:117-130 | Splitting into lines undoes writing lines, for any lines without a newline. |
| TextLines.ParseUndoesDigits | src/record/take_manifest.cpp:39-48 | Reading a decimal number back gives the number, for every 64-bit value. |
| TakeFormat.FieldInFinds | src/record/take_manifest.cpp:117-182 | A key that is written is recognised as its own field and no other. |
| TakeFormat.StateRoundTrip | src/record/take_manifest.cpp:52-74 | Each state name reads back as its state. |
| TakeRoundTrip.ParseEntry | src/record/take_manifest.cpp:124-180 | Every line the writer makes is read as exactly the assignment it stands for. |
| TakeRoundTrip.ParseUndoesSerialise | src/record/take_manifest.cpp:85-182 | For every manifest with any sources, exclusions and interruptions, parsing what was written gives the manifest with tab, carriage return and newline in its texts replaced by spaces. |
| TakeRoundTrip.RewritingIsStable | src/record/take_manifest.cpp:85-182 | Writing that result again gives the identical text. |
| TakeRoundTrip.ConvertedLineEndingsAreRead | src/record/take_manifest.cpp:117-130 | The text with CR LF line endings reads as the same manifest. |
| TakeLaws.WrittenText | src/record/take_manifest.cpp:85-115 | The text, key by key as it stands in the file: the take's own lines, what was excluded, what interrupted it, and each source under its heading. |
| TakeLaws.HeaderDecides | src/record/take_manifest.cpp:117-182 | A text is a manifest if and only if one of its lines is the header. |
| TakeLaws.OtherLinesAreSkipped | src/record/take_manifest.cpp:124-180 | A line that neither starts a source nor sets a known key is passed over, whatever it says. |
| TakeLaws.LastStateCounts | src/record/take_manifest.cpp:150-156 | The state that is read is the one on the last state line, whatever else the text holds, and one that is not known counts as needing review. |
| TakeLaws.FinishedOnlyIfItSaysSo | src/record/take_manifest.cpp:150-156 | So a take reads as finished only if the last line about its state says exactly that. |
| TakeLaws.SilenceIsBlank | src/record/take_manifest.cpp:117-135 | What no line says is blank: a header alone reads as an empty manifest of that version, and a source line alone as a blank source. |
| TakeManifest.EscapeValue | src/record/take_manifest.cpp:18-29 | The loop replaces exactly tab, carriage return and newline. |
| TakeManifest.ReadNumber | src/record/take_manifest.cpp:39-48 | The digit loop with its stop at the first other character and 64-bit wrap. |
| TakeManifest.Serialise | src/record/take_manifest.cpp:85-115 | The accumulated text is the model text. |
| TakeManifest.Parse | src/record/take_manifest.cpp:117-182 | The line loop reads what the model reads. |
| PreferencesFormat.NamesDiffer | src/preferences/preferences_store.cpp:113-255 | No two settings share a line name. |
| PreferencesRoundTrip.UnquoteUndoesEscape | src/preferences/preferences_store.cpp:42-48 | Quoting with escaped quotes and backslashes is undone exactly, whatever follows. |
| PreferencesRoundTrip.UnclosedIsMissing | src/preferences/preferences_store.cpp:24-48 | A quoted text whose closing quote is gone does not read. |
| PreferencesRoundTrip.RequiredReads | src/preferences/preferences_store.cpp:24-66 | Each required line reads back as the value written, whatever its kind. |
| PreferencesRoundTrip.OptionalReads | src/preferences/preferences_store.cpp:150-253 | Each optional line sets exactly its own setting. |
| PreferencesRoundTrip.OptionalLinesInAnyOrder | src/preferences/preferences_store.cpp:113-320 | Any order, repetition or omission of the optional lines reads as the required values, the optional values present, and defaults for the rest. |
| PreferencesRoundTrip.RoundTripExactly | src/preferences/preferences_store.cpp:68-320 | For every valid preferences value with single-precision gains, parsing what was written gives it back if no text holds a newline, and is refused otherwise. |
| PreferencesRoundTrip.ExactGainsExist | src/preferences/preferences_store.cpp:282-285 | The one hypothesis about gain texts, that single-precision gains read back, is met by some way of printing gains. |
| PreferencesLaws.LoadedIsValid | src/preferences/preferences_store.cpp:68-255 | Whatever text is loaded has the header, a line for each required setting under its name and in order, and after them only empty lines and known settings with values; and every setting loaded is within its limits. |
| PreferencesLaws.DefaultGainsAreNearest | include/jamlink/preferences/user_preferences.hpp:65-66 | The default gains are the single-precision numbers nearest to 0.72 and 0.55. |
| PreferencesStore.WriteFile | src/preferences/preferences_store.cpp:257-320 | The stream of writes produces the model text. |
| PreferencesStore.ReadRequiredLines | src/preferences/preferences_store.cpp:113-150 | The required lines are taken in order, one line each. |
| PreferencesStore.ReadOptionalLines | src/preferences/preferences_store.cpp:150-253 | The remaining lines are taken until the input ends. |
| PreferencesStore.ParseFile | src/preferences/preferences_store.cpp:113-255 | The whole parse is the model parse. |

## Left out

Receiver:

- Submission and packet playback are one atomic step each; the loads and stores inside them are not interleaved.
- Samples, jitter and drift are real numbers; IEEE rounding is not modelled anywhere in the project.
- The decoder and the period search are uninterpreted deterministic functions of their inputs and history, and the
  cross-fade window is a table of weights. A period longer than the history reads silence before its start.
- Whether the decoder can move when it is asked to conceal is its own affair: a stream without a stateful codec has
  nothing to move. `ReceiverDecoder.Told` counts what the receiver says to the decoder, `ReceiverDecoder.Yielded` what
  came of it.
- The history ring is an unbounded sequence, and counters, resync epochs and 64-bit cursors do not wrap. The
  `int32` depth plus one does not wrap at 2^31 - 1.
- A resync does not clear stamps, so no lemma claims that every slot is usable after one;
  `ReceiverLimits.OccupiedSlotRefusesUnlessPassed` and `ReceiverLimits.StaleStampKeepsItsSlot` say which are not.
- ReceiverBacklog.PlayoutNeverPassesNewest: the sign of the 32-bit depth is claimed while fewer submissions were made
  than could put the newest packet 2^31 ahead; beyond that the difference wraps.
- ReceiverLossless.SettledIsLossless: assumes a ring of fewer than 2^31 slots, a target of less than half the ring, and
  payloads that decode to whole packets; a ring that size or larger would cover half the number space.
- ReceiverRegulation.DepthConverges: the target is constant over the run, as the claim says; depths are below 2^31.
- Telemetry reads and `bufferedFrames` only read single fields.

Ring, meter and their threads:

- Interleavings are sequentially consistent; the acquire and release orderings that make the hardware behave so are
  not modelled.
- SpscAudioRing.Ring.Clear: called with neither thread active, as the source asks.
- The constructors' refusals of bad shapes (ring, resampler, pacer, receiver settings) are preconditions.
- The dBFS and root-mean-square display values, functions of one published word each, are not modelled.
- LevelMeterPublication.SnapshotsAreCoherent: bounded as stated above, because the guard wraps; the bound is exact. The
  lemmas about clips carry the same bound.
- LevelMeter.BlockSizeIsIrrelevant: no reset or self-test request arrives between the two halves.

Route graph:

- The accessors that return a bus's span are not modelled; callers are represented by what the buffers hold.
- RouteMixing.SolutionIsUnique: for finite injected samples; with a non-finite one the first arrival depends on the
  order (`RouteMixing.NonFiniteInputCostsOneArrival`).
- RouteMixing.ListingOrderIsIrrelevant: over real numbers and finite injected samples; floating-point sums would
  depend on the order.

Resampler and pacer:

- 64-bit cursors and clock values do not wrap.
- The discard counter is not an exact ledger for captured blocks as large as the converter or for frames displaced by
  an overrun: the source counts neither as discarded.

Directory:

- Payload parsing and validation arrive as a parsed value or a refusal; HTTP, profiles and reports are left
  out.
- Tokens, identifiers and room codes are supplied by the environment, and the digest is an uninterpreted function.
- A call reads the clock once for expiry and once afterwards.
- Room incarnations and the admission record are history added to state the results; the code does not hold them.
- Of presences and lobbies only the expiry is modelled; the calls that register them are left out.

Room authority:

- Token comparison in constant time is equality; timing is not modelled.
- `deny` and `setCapability` do not look at the actor's admission, as in the source, so only `admit` and `setRole`
  appear in `RoomRuns.OnlyManagersGiveRoles`.
- RoomAuthority.Authority.constructor: needs a non-empty host id, which the source takes for granted.

Path finding:

- Exhaustion is not stable, because a late response may still connect (`IceChecklist.ResponseConnects`), so it is not
  claimed to be.
- Sockets and the measurement of round trips are outside the model.

Files:

- The recording journal and file replacement are file output.
- A state value outside the enumeration, which the writer would print as unknown, cannot occur in the model.
- PreferencesRoundTrip.RoundTripExactly: gains are counted in multiples of the smallest single-precision number, and
  their printed form is a parameter assumed to read back for every gain of 24 significant bits, which the nine digits
  the code writes guarantee. Both directions go through a table of settings where the source chains one branch per
  setting.
- PreferencesRoundTrip.ExactGainsExist: shows that the assumption can be met, by a printing of its own; that nine
  significant digits, as the code prints, meet it too is a fact of floating point outside the model.

Other parts of the repository:

- Desktop interface, tools, platform drivers, codecs, sockets, database and cryptography are foreign or display code.
- Bitrate control, metronome, tuner, send limiter, clock domains, roster, key schedule, log redaction, session recorder
  and the preflight decision tables would only add easier members.
