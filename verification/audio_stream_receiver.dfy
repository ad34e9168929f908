/** The jitter buffer in the program's own form: one object updated in place by `submit` on the
    network side and `pull` on the audio side. Each method is proved to take the object's value
    exactly where the functions of `ReceiverModel` say. The program's fields are grouped by the
    side that owns them. */
module AudioStreamReceiver {
  import opened Bounds
  import opened CircularSequence
  import opened ModularArithmetic
  import opened Samples
  import opened ReceiverModel

  class Receiver {
    const environment: Environment
    const settings: Settings
    const slots: array<Slot>

    var producer: Producer
    var depth: Depth
    var consumer: Consumer
    var decoderCalls: seq<DecoderCall>
    var counters: Counters
    ghost var ledger: Ledger

    ghost predicate Valid()
      reads this
    {
      && settings.Valid()
      && slots.Length == settings.slotCount
      && |consumer.currentPacket| == settings.packetFrames
    }

    ghost function Value(): State
      reads this, slots
    {
      State(producer, depth, slots[..], consumer, decoderCalls, counters, ledger)
    }

    constructor (environment: Environment, settings: Settings)
      requires settings.Valid()
      ensures Valid() && fresh(slots) && this.environment == environment && this.settings == settings
      ensures Value() == Initial(settings)
    {
      this.environment, this.settings := environment, settings;
      slots := new Slot[settings.slotCount](_ => Slot(0, []));
      var blank := Initial(settings);
      producer, depth, consumer := blank.producer, blank.depth, blank.consumer;
      decoderCalls, counters, ledger := [], blank.counters, blank.ledger;
      new;
      assert slots[..] == Initial(settings).slots;
    }

    // --------------------------------------------------------------- submit

    method TrackSequence(sequence: Sequence)
      requires Valid()
      modifies this`producer, this`counters
      ensures producer == Rebase(settings, old(producer), sequence)
      ensures counters == old(counters).(resyncs := old(counters).resyncs
                            + if producer.resyncEpoch != old(producer).resyncEpoch then 1 else 0)
    {
      if !producer.hasFirst {
        producer := producer.(first := sequence, highest := sequence, hasFirst := true);
      } else {
        var jump := Distance(sequence, producer.highest);
        if jump > settings.slotCount / 2 || jump < -(settings.slotCount / 2) {
          producer := producer.(first := sequence, highest := sequence, hasPrevious := false);
          counters := counters.(resyncs := counters.resyncs + 1);
          producer := producer.(resyncEpoch := producer.resyncEpoch + 1);
        } else if jump > 0 {
          producer := producer.(highest := sequence);
        }
      }
    }

    method MeasureJitter(sequence: Sequence, arrivalMicroseconds: nat)
      requires Valid()
      modifies this`producer
      ensures producer == Measure(settings, old(producer), sequence, arrivalMicroseconds)
    {
      if producer.hasPrevious {
        var step := Distance(sequence, producer.previousSequence);
        if step > 0 && step < settings.slotCount / 2 {
          var expected := step as real * settings.PacketDuration();
          var actual := arrivalMicroseconds as real - producer.previousArrival as real;
          var deviation := Magnitude(actual - expected);
          producer := producer.(jitter := producer.jitter + (deviation - producer.jitter) / 16.0);
          producer := producer.(previousSequence := sequence, previousArrival := arrivalMicroseconds);
        } else if step >= settings.slotCount / 2 {
          producer := producer.(previousSequence := sequence, previousArrival := arrivalMicroseconds);
        }
      } else {
        producer := producer.(previousSequence := sequence, previousArrival := arrivalMicroseconds,
                              hasPrevious := true);
      }
    }

    method AdjustTarget()
      requires Valid()
      modifies this`depth
      ensures depth == Retarget(settings, old(depth), producer.jitter)
    {
      var desired := DesiredDepth(settings, depth, producer.jitter);
      hide DesiredDepth;
      if desired > depth.target {
        depth := depth.(target := desired, shrinkHold := 0);
      } else if desired < depth.target {
        depth := depth.(shrinkHold := depth.shrinkHold + 1);
        if depth.shrinkHold >= settings.shrinkHoldPackets {
          depth := depth.(target := depth.target - 1, shrinkHold := 0);
        }
      } else {
        depth := depth.(shrinkHold := 0);
      }
    }

    method FileIntoSlot(sequence: Sequence, payload: Payload)
      requires Valid()
      modifies this`counters, this`ledger, slots
      ensures Value() == FilePacket(settings, old(Value()), sequence, payload)
    {
      var playout := consumer.playout;
      var playing := consumer.primed;
      if playing && Before(sequence, playout) {
        counters := counters.(late := counters.late + 1);
        return;
      }
      var slotIndex := SlotOf(settings, sequence);
      var stamp := slots[slotIndex].stamp;
      assert ledger.reclaimed + [] == ledger.reclaimed;
      if stamp != 0 {
        var existing: Sequence := (stamp - 1) % MODULUS;
        if existing == sequence {
          counters := counters.(duplicate := counters.duplicate + 1);
          return;
        }
        if !playing || !Before(existing, playout) {
          counters := counters.(dropped := counters.dropped + 1);
          return;
        }
        ledger := ledger.(reclaimed := ledger.reclaimed + [Packet(existing, slots[slotIndex].bytes)]);
      }
      ledger := ledger.(filed := ledger.filed + [Packet(sequence, payload)]);
      slots[slotIndex] := Slot(sequence + 1, payload);
      counters := counters.(accepted := counters.accepted + 1);
      if playing && Before(sequence, producer.highest) {
        counters := counters.(reordered := counters.reordered + 1);
      }
    }

    method Submit(sequence: Sequence, payload: Payload, arrivalMicroseconds: nat)
      requires Valid()
      modifies this, slots
      ensures Valid()
      ensures Value() == ReceiverModel.Submit(settings, old(Value()), sequence, payload, arrivalMicroseconds)
    {
      hide Rebase, Measure, Retarget, FilePacket, IsPowerOfTwo;
      ledger := ledger.(submits := ledger.submits + 1);
      if payload == [] || |payload| > settings.maximumPacketBytes {
        counters := counters.(dropped := counters.dropped + 1);
        return;
      }
      TrackSequence(sequence);
      MeasureJitter(sequence, arrivalMicroseconds);
      AdjustTarget();
      FileIntoSlot(sequence, payload);
    }

    // ----------------------------------------------------------------- pull

    method AppendHistory(block: seq<Sample>)
      modifies this`consumer
      ensures consumer == old(consumer).(voice := Append(old(consumer).voice, block))
    {
      var v := consumer.voice;
      v := v.(history := v.history + block, realRun := Min(v.realRun + |block|, HISTORY_FRAMES));
      consumer := consumer.(voice := v.(synthesisOffset := 0));
    }

    /** Writes one packet of extrapolation over the current packet. */
    /** Repeats the last period, or runs the last sample down, over one packet. */
    method Repeat(v: Voice, decay: bool) returns (packet: seq<Sample>)
      requires Valid()
      ensures |packet| == settings.packetFrames
      ensures forall j: nat | j < |packet| :: packet[j] == Synthetic(settings, v, consumer.lossBurst, decay, j)
    {
      packet := consumer.currentPacket;
      var startGain := if decay then Decayed(consumer.lossBurst) else 1.0;
      var endGain := if decay then startGain * DECAY_PER_PACKET else 1.0;
      hide Continued, Decayed;
      for index := 0 to settings.packetFrames
        invariant |packet| == settings.packetFrames
        invariant forall j: nat | j < index :: packet[j] == Synthetic(settings, v, consumer.lossBurst, decay, j)
      {
        var position := Part(index, settings.packetFrames);
        var gain := Ramp(startGain, endGain, position);
        packet := packet[index := Continued(v, index, settings.packetFrames) * gain];
      }
    }

    /** Carries the step at the splice over and lets it fade, so that the entry does not click. */
    method SmoothEntry(repeated: seq<Sample>, v: Voice, decay: bool) returns (packet: seq<Sample>)
      requires Valid() && Joins(v, true) && |repeated| == settings.packetFrames
      requires forall j: nat | j < |repeated| :: repeated[j] == Synthetic(settings, v, consumer.lossBurst, decay, j)
      ensures |packet| == settings.packetFrames
      ensures forall j: nat | j < |packet| ::
                packet[j] == Extrapolated(environment, settings, v, consumer.lossBurst, decay, true, j)
    {
      hide Synthetic;
      packet := repeated;
      var residual := LastHeard(v) - repeated[0];
      for index := 0 to FadeFrames(settings)
        invariant |packet| == |repeated|
        invariant forall j: nat | j < |packet| ::
                    packet[j] == if j < index then Extrapolated(environment, settings, v, consumer.lossBurst, decay, true, j)
                                 else repeated[j]
      {
        packet := packet[index := Clamp(packet[index] + residual * (1.0 - environment.window(index)), -1.0, 1.0)];
      }
    }

    method Synthesise(decay: bool)
      requires Valid()
      modifies this`consumer
      ensures consumer == Extrapolate(environment, settings, old(consumer), decay)
    {
      var v := consumer.voice;
      var entering := consumer.concealBurst == 0;
      if entering {
        var period := environment.measurePeriod(v.history, v.realRun, v.cachedPeriod);
        v := v.(concealPeriod := period, cachedPeriod := period, synthesisOffset := 0);
      }
      var packet := Repeat(v, decay);
      if Joins(v, entering) {
        packet := SmoothEntry(packet, v, decay);
      }
      ghost var heard := Extrapolate(environment, settings, consumer, decay).currentPacket;
      assert forall j: nat | j < |packet| ::
               packet[j] == Extrapolated(environment, settings, v, consumer.lossBurst, decay, entering, j) == heard[j] by {
        hide Synthetic;
      }
      assert packet == heard;
      consumer := consumer.(currentPacket := packet);
      consumer := consumer.(voice := v.(realRun := 0, synthesisOffset := v.synthesisOffset + settings.packetFrames));
    }

    /** Fills the current packet for a real gap (`advancePlayout`) or for a stretch. */
    method FillGap(advancePlayout: bool, decay: bool)
      requires Valid() && (advancePlayout ==> decay)
      modifies this`consumer, this`decoderCalls
      ensures decoderCalls == old(decoderCalls) + if advancePlayout then [Conceal] else []
      ensures consumer == if advancePlayout then Cover(environment, settings, old(consumer), old(decoderCalls))
                          else Extrapolate(environment, settings, old(consumer), decay)
    {
      hide Extrapolate;
      if advancePlayout {
        var heard := environment.conceal(decoderCalls);
        decoderCalls := decoderCalls + [Conceal];
        if |heard| == settings.packetFrames {
          consumer := consumer.(currentPacket := heard, voice := consumer.voice.(realRun := 0));
          return;
        }
      }
      Synthesise(decay);
    }

    /** Covers a real gap (`advancePlayout`) or inserts a packet without consuming one. */
    method ConcealPacket(advancePlayout: bool, decay: bool, ghost outcome: Outcome)
      requires Valid() && (advancePlayout ==> decay)
      modifies this
      ensures Valid()
      ensures advancePlayout ==> Value() == CoverLoss(environment, settings, old(Value()), outcome)
      ensures !advancePlayout ==> Value() == Insert(environment, settings, old(Value()), decay)
    {
      hide Extrapolate, Cover, IsPowerOfTwo, TurnTaken;
      FillGap(advancePlayout, decay);
      if advancePlayout {
        ledger := TurnTaken(ledger, consumer.playout, outcome);
        consumer := consumer.(playout := Plus(consumer.playout, 1));
        counters := counters.(concealed := counters.concealed + 1);
      }
      if decay {
        consumer := consumer.(lossBurst := consumer.lossBurst + 1);
      }
      consumer := consumer.(concealBurst := consumer.concealBurst + 1, recoveryPending := true);
      counters := counters.(concealedFrames := counters.concealedFrames + settings.packetFrames);
    }

    /** Fades a decoded packet up over the extrapolation the listener was hearing. */
    method BlendRecovery(decoded: seq<Sample>, v: Voice, burst: nat) returns (packet: seq<Sample>)
      requires |decoded| == settings.packetFrames
      ensures |packet| == |decoded|
      ensures forall j: nat | j < |decoded| ::
                packet[j] == if j < FadeFrames(settings)
                             then Blended(environment, settings, v, burst, decoded, j) else decoded[j]
    {
      packet := decoded;
      var fade := FadeFrames(settings);
      var gain := Decayed(burst);
      hide Continued, Decayed;
      for index := 0 to fade
        invariant |packet| == |decoded|
        invariant forall j: nat | j < |decoded| ::
                    packet[j] == if j < index then Blended(environment, settings, v, burst, decoded, j) else decoded[j]
      {
        var weight := environment.window(index);
        var continued := AtLevel(Continued(v, index, fade), gain);
        packet := packet[index := CrossFaded(continued, packet[index], weight)];
      }
    }

    /** Makes a decoded packet the current one. */
    method AdoptPacket(decoded: seq<Sample>)
      requires Valid() && |decoded| == settings.packetFrames
      modifies this`consumer
      ensures consumer == Recover(environment, settings, old(consumer), decoded)
    {
      ghost var heard := Recover(environment, settings, consumer, decoded).currentPacket;
      if consumer.concealBurst != 0 || consumer.recoveryPending {
        if consumer.concealBurst == 0 {
          consumer := consumer.(voice := consumer.voice.(concealPeriod := consumer.voice.cachedPeriod,
                                                         synthesisOffset := 0));
        }
        var packet := BlendRecovery(decoded, consumer.voice, consumer.lossBurst);
        assert packet == heard;
        consumer := consumer.(currentPacket := packet);
        consumer := consumer.(concealBurst := 0, lossBurst := 0, recoveryPending := false);
      } else {
        consumer := consumer.(currentPacket := decoded);
      }
      AppendHistory(decoded);
    }

    /** Plays the packet in a slot. Fails, with the slot released, if it does not decode. */
    method TakeRealPacket(slotIndex: nat) returns (played: bool)
      requires Valid() && slotIndex == SlotOf(settings, consumer.playout)
      requires Holds(slots[slotIndex], consumer.playout)
      modifies this, slots
      ensures Valid()
      ensures played ==> Value() == PlayNext(environment, settings, old(Value()))
      ensures !played ==> CoverLoss(environment, settings, Value(), Undecodable(old(slots[slotIndex]).bytes))
                          == PlayNext(environment, settings, old(Value()))
    {
      hide CoverLoss, IsPowerOfTwo, SlotOf, Append;
      var bytes := slots[slotIndex].bytes;
      var decoded := environment.decode(decoderCalls, bytes);
      decoderCalls := decoderCalls + [Decode(bytes)];
      if |decoded| != settings.packetFrames {
        slots[slotIndex] := slots[slotIndex].(stamp := 0);
        counters := counters.(dropped := counters.dropped + 1);
        return false;
      }
      ledger := TurnTaken(ledger, consumer.playout, Played(bytes));
      consumer := consumer.(playout := Plus(consumer.playout, 1));
      slots[slotIndex] := slots[slotIndex].(stamp := 0);
      AdoptPacket(decoded);
      return true;
    }

    /** Runs the decoder over a packet that will not be played. */
    method DiscardDecoded(slotIndex: nat)
      requires slotIndex < slots.Length
      modifies this`decoderCalls
      ensures decoderCalls == old(decoderCalls) + [Decode(slots[slotIndex].bytes)]
    {
      decoderCalls := decoderCalls + [Decode(slots[slotIndex].bytes)];
    }

    method TryPrime() returns (ok: bool)
      requires Valid()
      modifies this`consumer, this`ledger
      ensures ok == CanPrime(old(Value()))
      ensures Value() == if ok then Prime(old(Value())) else old(Value())
    {
      if !producer.hasFirst {
        return false;
      }
      var span := Distance(producer.highest, producer.first) + 1;
      if span < depth.target {
        return false;
      }
      var playout := Plus(producer.highest, -(depth.target - 1));
      consumer := consumer.(playout := playout, primed := true, concealBurst := 0, recoveryPending := true);
      ledger := ledger.(segment := ledger.segment + 1, origin := playout, segmentTurns := 0);
      return true;
    }

    /** Drops the packet at the cursor to shed latency. */
    method TrimOne()
      requires Valid()
      modifies this, slots
      ensures Valid() && Value() == Trim(environment, settings, old(Value()))
    {
      hide IsPowerOfTwo;
      var playout := consumer.playout;
      var staleIndex := SlotOf(settings, playout);
      ghost var outcome := TrimOutcome(environment, settings, Value());
      hide SlotOf, TrimOutcome;
      if Holds(slots[staleIndex], playout) {
        DiscardDecoded(staleIndex);
        slots[staleIndex] := slots[staleIndex].(stamp := 0);
      }
      ledger := TurnTaken(ledger, playout, outcome);
      consumer := consumer.(playout := Plus(playout, 1));
      counters := counters.(trims := counters.trims + 1);
      consumer := consumer.(recoveryPending := true);
    }

    method PlayCursor()
      requires Valid()
      modifies this, slots
      ensures Valid() && Value() == PlayNext(environment, settings, old(Value()))
    {
      hide IsPowerOfTwo, CoverLoss;
      var playout := consumer.playout;
      var slotIndex := SlotOf(settings, playout);
      ghost var bytes := slots[slotIndex].bytes;
      hide SlotOf;
      if Holds(slots[slotIndex], playout) {
        var played := TakeRealPacket(slotIndex);
        if !played {
          ConcealPacket(true, true, Undecodable(bytes));
        }
      } else {
        ConcealPacket(true, true, Lost);
      }
    }

    method WatchDelivery()
      modifies this`consumer
      ensures Value() == WatchArrivals(old(Value()))
    {
      if producer.highest != consumer.previousHighest {
        consumer := consumer.(previousHighest := producer.highest, stalledPackets := 0);
      } else if consumer.stalledPackets < STALL_LIMIT {
        consumer := consumer.(stalledPackets := consumer.stalledPackets + 1);
      }
    }

    method RegulatePacket()
      requires Valid()
      modifies this, slots
      ensures Valid() && Value() == Regulate(environment, settings, old(Value()))
    {
      hide IsPowerOfTwo, Trim, PlayNext, Insert, WatchArrivals;
      WatchOnlyConsumer(Value());
      WatchDelivery();
      var target := depth.target;
      var available := Distance(producer.highest, consumer.playout) + 1;
      var arriving := consumer.stalledPackets < STALL_LIMIT;
      if available <= 0 || available < target - STRETCH_SLACK {
        ConcealPacket(false, !arriving, Lost);
        counters := counters.(stretches := counters.stretches + 1);
        return;
      }
      if available > target + TRIM_SLACK {
        TrimOne();
      }
      PlayCursor();
    }

    /** Prepares the next packet, if the stream is playing or can start. */
    method BeginPacket() returns (ok: bool)
      requires Valid()
      modifies this, slots
      ensures Valid() && ok == CanBegin(old(Value()))
      ensures Value() == ReceiverModel.BeginPacket(environment, settings, old(Value()))
      ensures !ok ==> consumer.currentOffset == old(consumer).currentOffset
    {
      hide IsPowerOfTwo, Regulate;
      var epoch := producer.resyncEpoch;
      if epoch != consumer.observedEpoch {
        consumer := consumer.(observedEpoch := epoch, primed := false,
                              concealBurst := 0, lossBurst := 0, recoveryPending := false);
      }
      assert Value() == Observe(old(Value()));
      if !consumer.primed {
        var started := TryPrime();
        if !started {
          return false;
        }
      }
      RegulatePacket();
      return true;
    }

    /** Copies the next samples of the current packet to the destination. */
    method CopyChunk(destination: array<Sample>, written: nat, chunk: nat)
      requires Valid() && written + chunk <= destination.Length
      requires consumer.currentOffset + chunk <= settings.packetFrames
      modifies this`consumer, destination
      ensures Valid() && Value() == Advance(old(Value()), chunk)
      ensures destination[..written + chunk] == old(destination[..written]) + Window(old(Value()), chunk)
    {
      ghost var prefix := destination[..written];
      for index := 0 to chunk
        modifies destination
        invariant slots[..] == old(slots[..]) && destination[..written] == prefix
        invariant destination[written..written + index]
               == consumer.currentPacket[consumer.currentOffset..consumer.currentOffset + index]
      {
        destination[written + index] := consumer.currentPacket[consumer.currentOffset + index];
      }
      assert destination[..written + chunk] == destination[..written] + destination[written..written + chunk];
      consumer := consumer.(currentOffset := consumer.currentOffset + chunk);
    }

    /** Fills the rest of the destination with silence, which also enters the history. */
    method FillSilence(destination: array<Sample>, written: nat)
      requires Valid() && written <= destination.Length
      modifies this, destination
      ensures Valid() && Value() == Silence(old(Value()), destination.Length - written)
      ensures destination[..] == old(destination[..written]) + Zeros(destination.Length - written)
    {
      ghost var prefix := destination[..written];
      for index := written to destination.Length
        modifies destination
        invariant slots[..] == old(slots[..]) && destination[..written] == prefix
        invariant forall j | written <= j < index :: destination[j] == 0.0
      {
        destination[index] := 0.0;
      }
      var remaining := destination.Length - written;
      counters := counters.(silentFrames := counters.silentFrames + remaining);
      AppendHistory(Zeros(remaining));
      assert destination[..] == destination[..written] + destination[written..];
      assert destination[written..] == Zeros(remaining);
    }

    /** Makes sure the current packet has samples left, if the stream is playing or can start. */
    method EnsurePacket() returns (ok: bool)
      requires Valid()
      modifies this, slots
      ensures Valid() && PacketSized(settings, old(Value()))
      ensures ok == (old(consumer).currentOffset < settings.packetFrames || CanBegin(old(Value())))
      ensures Value() == if ok then Ready(environment, settings, old(Value()))
                         else ReceiverModel.BeginPacket(environment, settings, old(Value()))
    {
      hide ReceiverModel.BeginPacket, CanBegin, IsPowerOfTwo;
      if consumer.currentOffset < settings.packetFrames {
        return true;
      }
      ok := BeginPacket();
      if ok {
        consumer := consumer.(currentOffset := 0);
      }
    }

    /** One pass of the copying loop: the next stretch of the current packet, or silence to the end. */
    method CopyNext(destination: array<Sample>, written: nat) returns (chunk: nat)
      requires Valid() && written < destination.Length
      modifies this, slots, destination
      ensures Valid() && PacketSized(settings, old(Value()))
      ensures chunk == 0 ==>
                && old(consumer).currentOffset >= settings.packetFrames && !CanBegin(old(Value()))
                && Value() == Silence(ReceiverModel.BeginPacket(environment, settings, old(Value())),
                                      destination.Length - written)
                && destination[..] == old(destination[..written]) + Zeros(destination.Length - written)
      ensures chunk > 0 ==>
                && (old(consumer).currentOffset < settings.packetFrames || CanBegin(old(Value())))
                && chunk == Chunk(environment, settings, old(Value()), destination.Length - written)
                && Value() == Advance(Ready(environment, settings, old(Value())), chunk)
                && destination[..written + chunk]
                   == old(destination[..written]) + Window(Ready(environment, settings, old(Value())), chunk)
    {
      hide ReceiverModel.BeginPacket, CanBegin, IsPowerOfTwo, Zeros, Silence, Ready;
      var ok := EnsurePacket();
      if ok {
        chunk := Min(destination.Length - written, settings.packetFrames - consumer.currentOffset);
        CopyChunk(destination, written, chunk);
      } else {
        chunk := 0;
        FillSilence(destination, written);
      }
    }

    /** Fills the destination completely and returns how many frames were live audio. */
    method Pull(destination: array<Sample>) returns (live: nat)
      requires Valid()
      modifies this, slots, destination
      ensures Valid()
      ensures PacketSized(settings, old(Value()))
      ensures var p := ReceiverModel.Pull(environment, settings, old(Value()), destination.Length);
              Value() == p.state && destination[..] == p.samples && live == p.live
    {
      hide ReceiverModel.Pull, ReceiverModel.BeginPacket, CanBegin, IsPowerOfTwo, Window, Zeros, Silence, Ready, Chunk;
      var written := 0;
      live := 0;
      ghost var whole := ReceiverModel.Pull(environment, settings, Value(), destination.Length);
      ghost var rest := whole;
      while written < destination.Length
        invariant Valid() && 0 <= written <= destination.Length
        invariant rest == ReceiverModel.Pull(environment, settings, Value(), destination.Length - written)
        invariant whole == Pulled(rest.state, destination[..written] + rest.samples, live + rest.live)
      {
        ghost var before := Value();
        ghost var left := destination.Length - written;
        ghost var sofar := destination[..written];
        var chunk := CopyNext(destination, written);
        if chunk == 0 {
          PullStops(environment, settings, before, left);
          return;
        }
        PullUnfold(environment, settings, before, left);
        ghost var window := Window(Ready(environment, settings, before), chunk);
        written := written + chunk;
        live := live + chunk;
        rest := ReceiverModel.Pull(environment, settings, Value(), destination.Length - written);
        assert sofar + (window + rest.samples) == destination[..written] + rest.samples;
      }
      PullStops(environment, settings, Value(), 0);
      assert destination[..] == destination[..written] + [];
    }

    // -------------------------------------------------------------- control

    /** Retunes the latency bounds; out-of-range values are ignored. */
    method ConfigureDepth(minimumPackets: nat, maximumPackets: nat, jitterSafetyFactor: real)
      requires Valid()
      modifies this`depth
      ensures Valid()
      ensures Value() == ReceiverModel.ConfigureDepth(settings, old(Value()), minimumPackets, maximumPackets,
                                                      jitterSafetyFactor)
    {
      if minimumPackets == 0 || minimumPackets > maximumPackets || maximumPackets * 2 >= settings.slotCount
         || !(jitterSafetyFactor >= 1.0) || !(jitterSafetyFactor <= 16.0) {
        return;
      }
      depth := depth.(minimum := minimumPackets, maximum := maximumPackets, safety := jitterSafetyFactor);
      depth := depth.(target := minimumPackets);
    }

    method Reset()
      requires Valid()
      modifies this, slots
      ensures Valid() && Value() == ReceiverModel.Reset(settings, old(Value()))
    {
      decoderCalls := [];
      for index := 0 to slots.Length
        invariant forall j | 0 <= j < index :: slots[j] == Slot(0, [])
        invariant Valid() && depth == old(depth) && decoderCalls == []
      {
        slots[index] := Slot(0, []);
      }
      var blank := Initial(settings);
      consumer, producer, counters := blank.consumer, blank.producer, blank.counters;
      ledger := blank.ledger;
      depth := depth.(target := depth.minimum, shrinkHold := 0);
      assert slots[..] == blank.slots;
    }
  }
}
