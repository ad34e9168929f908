/** The adaptive jitter buffer as a value: what one `submit`, one `beginPacket` and one
    `pull` do to the receiver's whole state. One `submit` and one `beginPacket` are taken as
    atomic steps. Samples are real numbers. The decoder is any deterministic machine: what it
    answers is a function of the calls it has had so far. The pitch search is any function of the
    playback state, and the cross-fade window any table of weights. */
module ReceiverModel {
  import opened Bounds
  import opened CircularSequence
  import opened ModularArithmetic
  import opened Samples

  type Payload = seq<bv8>

  const HISTORY_FRAMES: nat := 4096
  const CROSS_FADE_FRAMES: nat := 64
  const DECAY_PER_PACKET: real := 0.5
  const TRIM_SLACK: int := 2
  const STRETCH_SLACK: int := 1
  const STALL_LIMIT: nat := 4

  datatype DecoderCall = Decode(payload: Payload) | Conceal

  /** The parts of the receiver this model leaves open. `decode` and `conceal` give the samples
      the decoder writes after a history of calls; any length but one packet means "unusable".
      `window` is the weight of the incoming sound in a cross-fade. */
  datatype Environment = Environment(
    decode: (seq<DecoderCall>, Payload) -> seq<Sample>,
    conceal: seq<DecoderCall> -> seq<Sample>,
    measurePeriod: (seq<Sample>, nat, nat) -> nat,
    window: nat -> real)

  datatype Settings = Settings(
    sampleRate: nat, packetFrames: nat, slotCount: nat, minimumDepth: nat, maximumDepth: nat,
    jitterSafetyFactor: real, shrinkHoldPackets: nat, maximumPacketBytes: nat)
  {
    predicate Valid() {
      && 1 <= packetFrames <= 4096
      && 8_000 <= sampleRate <= 384_000
      && slotCount >= 4 && IsPowerOfTwo(slotCount)
      && ValidDepth(minimumDepth, maximumDepth, jitterSafetyFactor)
    }

    predicate ValidDepth(minimum: nat, maximum: nat, safety: real) {
      && minimum != 0 && minimum <= maximum
      && maximum * 2 < slotCount
      && 1.0 <= safety <= 16.0
    }

    function PacketDuration(): (duration: real)
      requires sampleRate > 0
      ensures packetFrames > 0 ==> duration > 0.0
    {
      packetFrames as real * 1_000_000.0 / sampleRate as real
    }
  }

  /** A stamp of zero marks an empty slot; otherwise it is the stored sequence plus one. */
  datatype Slot = Slot(stamp: nat, bytes: Payload)

  /** `sequence & slotMask` for a power-of-two ring. */
  function SlotOf(c: Settings, sequence: Sequence): (index: nat)
    requires c.slotCount > 0
    ensures index < c.slotCount
  {
    sequence % c.slotCount
  }

  predicate Holds(slot: Slot, sequence: Sequence) {
    slot.stamp == sequence + 1
  }

  datatype Packet = Packet(sequence: Sequence, payload: Payload)

  /** Depth limits and the target the producer publishes for the consumer. */
  datatype Depth = Depth(minimum: nat, maximum: nat, safety: real, target: nat, shrinkHold: nat)

  /** What the network worker owns or publishes. */
  datatype Producer = Producer(
    hasFirst: bool, first: Sequence, highest: Sequence, resyncEpoch: nat,
    hasPrevious: bool, previousSequence: Sequence, previousArrival: nat, jitter: real)

  /** The audio the concealment looks back on. `history` is everything ever appended. */
  datatype Voice = Voice(
    history: seq<Sample>, realRun: nat, concealPeriod: nat, cachedPeriod: nat, synthesisOffset: nat)

  /** What the audio callback owns. */
  datatype Consumer = Consumer(
    observedEpoch: nat, primed: bool, playout: Sequence,
    concealBurst: nat, lossBurst: nat, recoveryPending: bool,
    previousHighest: Sequence, stalledPackets: nat,
    currentPacket: seq<Sample>, currentOffset: nat, voice: Voice)

  datatype Counters = Counters(
    accepted: nat, duplicate: nat, reordered: nat, late: nat, dropped: nat,
    concealed: nat, concealedFrames: nat, stretches: nat, trims: nat, resyncs: nat, silentFrames: nat)

  /** What became of one playout position. */
  datatype Outcome =
    | Played(payload: Payload)
    | Trimmed(payload: Payload)
    | TrimmedGap
    | TrimmedUndecodable(payload: Payload)
    | Lost
    | Undecodable(payload: Payload)

  /** One consumed playout position; `segment` counts primings. */
  datatype Turn = Turn(segment: nat, sequence: Sequence, outcome: Outcome)

  /** History the program does not keep: used only to state what a run guarantees. */
  datatype Ledger = Ledger(
    submits: nat, filed: seq<Packet>, reclaimed: seq<Packet>, turns: seq<Turn>, segment: nat,
    origin: Sequence, segmentTurns: nat, undecodable: nat)

  datatype State = State(
    producer: Producer, depth: Depth, slots: seq<Slot>, consumer: Consumer,
    decoderCalls: seq<DecoderCall>, counters: Counters, ledger: Ledger)

  // ------------------------------------------------------------------ start

  predicate PacketSized(c: Settings, s: State) {
    |s.slots| == c.slotCount > 0 && |s.consumer.currentPacket| == c.packetFrames > 0
  }

  function Initial(c: Settings): (s: State)
    ensures c.Valid() ==> PacketSized(c, s)
  {
    State(
      Producer(false, 0, 0, 0, false, 0, 0, 0.0),
      Depth(c.minimumDepth, c.maximumDepth, c.jitterSafetyFactor, c.minimumDepth, 0),
      seq(c.slotCount, _ => Slot(0, [])),
      Consumer(0, false, 0, 0, 0, false, 0, 0, seq(c.packetFrames, _ => 0.0), c.packetFrames,
               Voice([], 0, 0, 0, 0)),
      [],
      Counters(0, 0, 0, 0, 0, 0, 0, 0, 0, 0, 0),
      Ledger(0, [], [], [], 0, 0, 0, 0))
  }

  // ----------------------------------------------------------------- submit

  function Within(x: int, low: nat, high: nat): nat
  {
    if x < low then low else if high < x then high else x
  }

  function Ceiling(x: real): int {
    -((-x).Floor)
  }

  /** Tracks the newest sequence; a jump of more than half the ring starts over. */
  function Rebase(c: Settings, p: Producer, sequence: Sequence): Producer {
    if !p.hasFirst then
      p.(hasFirst := true, first := sequence, highest := sequence)
    else
      var jump := Distance(sequence, p.highest);
      if jump > c.slotCount / 2 || jump < -(c.slotCount / 2) then
        p.(first := sequence, highest := sequence, hasPrevious := false, resyncEpoch := p.resyncEpoch + 1)
      else if jump > 0 then
        p.(highest := sequence)
      else
        p
  }

  /** Updates the arrival-jitter estimate and moves the timing anchor forwards. */
  function Measure(c: Settings, p: Producer, sequence: Sequence, arrival: nat): Producer
    requires c.sampleRate > 0
  {
    var anchored := p.(previousSequence := sequence, previousArrival := arrival, hasPrevious := true);
    if !p.hasPrevious then
      anchored
    else
      var step := Distance(sequence, p.previousSequence);
      if 0 < step < c.slotCount / 2 then
        var expected := step as real * c.PacketDuration();
        var deviation := Magnitude(arrival as real - p.previousArrival as real - expected);
        anchored.(jitter := p.jitter + (deviation - p.jitter) / 16.0)
      else if step >= c.slotCount / 2 then
        anchored
      else
        p
  }

  /** Microseconds of audio to hold against the measured jitter. */
  function Needed(c: Settings, d: Depth, jitter: real): real
    requires c.sampleRate > 0
  {
    jitter * d.safety + c.PacketDuration()
  }

  /** Whole packets that last so long. */
  function PacketsFor(needed: real, duration: real): int
    requires duration > 0.0
  {
    Ceiling(needed / duration)
  }

  /** The depth that would cover the measured jitter, within the configured bounds. */
  function DesiredDepth(c: Settings, d: Depth, jitter: real): nat
    requires c.sampleRate > 0 && c.packetFrames > 0
  {
    Within(PacketsFor(Needed(c, d, jitter), c.PacketDuration()), d.minimum, d.maximum)
  }

  /** Grows the target at once; shrinks it by one after enough quiet packets. */
  function Retarget(c: Settings, d: Depth, jitter: real): Depth
    requires c.sampleRate > 0 && c.packetFrames > 0
  {
    var desired := DesiredDepth(c, d, jitter);
    if desired > d.target then
      d.(target := desired, shrinkHold := 0)
    else if desired < d.target then
      if d.shrinkHold + 1 >= c.shrinkHoldPackets then
        d.(target := d.target - 1, shrinkHold := 0)
      else
        d.(shrinkHold := d.shrinkHold + 1)
    else
      d.(shrinkHold := 0)
  }

  datatype Verdict = Store | Reclaim | Duplicate | Late | Drop

  /** Which of the five fates a packet meets, given the slot its number maps to. */
  function Classify(playing: bool, playout: Sequence, slot: Slot, sequence: Sequence): Verdict {
    if playing && Before(sequence, playout) then Late
    else if slot.stamp == 0 then Store
    else
      var existing: Sequence := (slot.stamp - 1) % MODULUS;
      if existing == sequence then Duplicate
      else if !playing || !Before(existing, playout) then Drop
      else Reclaim
  }

  function FilePacket(c: Settings, s: State, sequence: Sequence, payload: Payload): State
    requires |s.slots| == c.slotCount > 0
  {
    var playing := s.consumer.primed;
    var index := SlotOf(c, sequence);
    var slot := s.slots[index];
    var verdict := Classify(playing, s.consumer.playout, slot, sequence);
    if verdict == Late then s.(counters := s.counters.(late := s.counters.late + 1))
    else if verdict == Duplicate then s.(counters := s.counters.(duplicate := s.counters.duplicate + 1))
    else if verdict == Drop then s.(counters := s.counters.(dropped := s.counters.dropped + 1))
    else
      var early := playing && Before(sequence, s.producer.highest);
      var reclaimed := if verdict == Reclaim
                       then [Packet((slot.stamp - 1) % MODULUS, slot.bytes)] else [];
      s.(slots := s.slots[index := Slot(sequence + 1, payload)],
         counters := s.counters.(accepted := s.counters.accepted + 1,
                                 reordered := s.counters.reordered + if early then 1 else 0),
         ledger := s.ledger.(filed := s.ledger.filed + [Packet(sequence, payload)],
                             reclaimed := s.ledger.reclaimed + reclaimed))
  }

  function CountSubmit(s: State): State {
    s.(ledger := s.ledger.(submits := s.ledger.submits + 1))
  }

  /** The numbering, timing and depth part of a submit. */
  function Track(c: Settings, s: State, sequence: Sequence, arrival: nat): State
    requires c.Valid()
  {
    var rebased := Rebase(c, s.producer, sequence);
    var measured := Measure(c, rebased, sequence, arrival);
    var resynced := rebased.resyncEpoch != s.producer.resyncEpoch;
    s.(producer := measured,
       depth := Retarget(c, s.depth, measured.jitter),
       counters := s.counters.(resyncs := s.counters.resyncs + if resynced then 1 else 0))
  }

  function Submit(c: Settings, s: State, sequence: Sequence, payload: Payload, arrival: nat): (r: State)
    requires c.Valid() && |s.slots| == c.slotCount
    ensures |r.slots| == |s.slots| && r.consumer == s.consumer
  {
    if payload == [] || |payload| > c.maximumPacketBytes then
      CountSubmit(s.(counters := s.counters.(dropped := s.counters.dropped + 1)))
    else
      FilePacket(c, CountSubmit(Track(c, s, sequence, arrival)), sequence, payload)
  }

  // ------------------------------------------------------------------- pull

  function Append(v: Voice, block: seq<Sample>): Voice {
    v.(history := v.history + block,
       realRun := Min(v.realRun + |block|, HISTORY_FRAMES),
       synthesisOffset := 0)
  }

  /** A resync seen for the first time stops playout until the stream is primed again. */
  function Observe(s: State): State {
    if s.producer.resyncEpoch == s.consumer.observedEpoch then s
    else s.(consumer := s.consumer.(observedEpoch := s.producer.resyncEpoch, primed := false,
                                    concealBurst := 0, lossBurst := 0, recoveryPending := false))
  }

  predicate CanPrime(s: State) {
    s.producer.hasFirst && Distance(s.producer.highest, s.producer.first) + 1 >= s.depth.target
  }

  function Prime(s: State): State {
    var playout := Plus(s.producer.highest, -(s.depth.target - 1));
    s.(consumer := s.consumer.(playout := playout, primed := true, concealBurst := 0, recoveryPending := true),
       ledger := s.ledger.(segment := s.ledger.segment + 1, origin := playout, segmentTurns := 0))
  }

  function TurnTaken(l: Ledger, playout: Sequence, outcome: Outcome): Ledger {
    l.(turns := l.turns + [Turn(l.segment, playout, outcome)],
       segmentTurns := l.segmentTurns + 1,
       undecodable := l.undecodable + if outcome.Undecodable? then 1 else 0)
  }

  /** Consumes one playout position. */
  function TakeTurn(s: State, outcome: Outcome): State {
    s.(consumer := s.consumer.(playout := Plus(s.consumer.playout, 1)),
       ledger := TurnTaken(s.ledger, s.consumer.playout, outcome))
  }

  /** Gain after so many packets of loss. */
  function Decayed(packets: nat): real {
    if packets == 0 then 1.0 else DECAY_PER_PACKET * Decayed(packets - 1)
  }

  /** `i` of `n`, as a fraction of the way. */
  function Part(i: nat, n: nat): real {
    if n == 0 then 0.0 else i as real / n as real
  }

  function HistoryAt(history: seq<Sample>, place: int): Sample {
    if 0 <= place < |history| then history[place] else 0.0
  }

  /** The last real sample, or silence. */
  function LastHeard(v: Voice): Sample { HistoryAt(v.history, |v.history| - 1) }

  function AtLevel(sample: Sample, level: real): Sample { sample * level }

  /** The last period of a history, over and over. */
  function Repeated(history: seq<Sample>, period: nat, place: nat): Sample
    requires period > 0
  {
    HistoryAt(history, |history| - period + place % period)
  }

  /** The last period of real sound over and over; with no period, the last sample running down to zero. */
  function Continued(v: Voice, i: nat, length: nat): Sample {
    if v.concealPeriod != 0
    then Repeated(v.history, v.concealPeriod, v.synthesisOffset + i)
    else AtLevel(LastHeard(v), 1.0 - Part(i, length))
  }

  function Ramp(start: real, end: real, position: real): real {
    start + (end - start) * position
  }

  /** Missing audio loses half its level with every packet; a deliberate stretch keeps it. */
  function Gain(burst: nat, decay: bool, position: real): real {
    var start := if decay then Decayed(burst) else 1.0;
    Ramp(start, if decay then start * DECAY_PER_PACKET else 1.0, position)
  }

  function Synthetic(c: Settings, v: Voice, burst: nat, decay: bool, i: nat): Sample {
    Continued(v, i, c.packetFrames) * Gain(burst, decay, Part(i, c.packetFrames))
  }

  /** Frames of a cross-fade. */
  function FadeFrames(c: Settings): nat { Min(CROSS_FADE_FRAMES, c.packetFrames) }

  /** The step at the splice is carried over and faded out. */
  function Joined(e: Environment, v: Voice, first: Sample, i: nat, sample: Sample): Sample {
    Clamp(sample + (LastHeard(v) - first) * (1.0 - e.window(i)), -1.0, 1.0)
  }

  predicate Joins(v: Voice, entering: bool) {
    entering && v.concealPeriod != 0 && v.history != []
  }

  function Extrapolated(e: Environment, c: Settings, v: Voice, burst: nat, decay: bool, entering: bool, i: nat): Sample {
    var sample := Synthetic(c, v, burst, decay, i);
    if Joins(v, entering) && i < FadeFrames(c)
    then Joined(e, v, Synthetic(c, v, burst, decay, 0), i, sample)
    else sample
  }

  /** The receiver's own extrapolation, used when the decoder synthesises nothing. */
  function Extrapolate(e: Environment, c: Settings, k: Consumer, decay: bool): (r: Consumer)
    ensures |r.currentPacket| == c.packetFrames
  {
    var entering := k.concealBurst == 0;
    var v := k.voice;
    var period := if entering then e.measurePeriod(v.history, v.realRun, v.cachedPeriod) else v.cachedPeriod;
    var v := if entering then v.(concealPeriod := period, cachedPeriod := period, synthesisOffset := 0) else v;
    k.(currentPacket := seq(c.packetFrames, (i: nat) => Extrapolated(e, c, v, k.lossBurst, decay, entering, i)),
       voice := v.(realRun := 0, synthesisOffset := v.synthesisOffset + c.packetFrames))
  }

  function CountConcealment(c: Settings, k: Consumer, decay: bool): Consumer {
    k.(lossBurst := k.lossBurst + if decay then 1 else 0,
       concealBurst := k.concealBurst + 1,
       recoveryPending := true)
  }

  /** A packet of extrapolation that consumes no position and that the decoder is not told of. */
  function Insert(e: Environment, c: Settings, s: State, decay: bool): State {
    s.(consumer := CountConcealment(c, Extrapolate(e, c, s.consumer, decay), decay),
       counters := s.counters.(concealedFrames := s.counters.concealedFrames + c.packetFrames))
  }

  /** A deliberate insertion, to let the backlog grow. */
  function Stretch(e: Environment, c: Settings, s: State, decay: bool): State {
    var r := Insert(e, c, s, decay);
    r.(counters := r.counters.(stretches := r.counters.stretches + 1))
  }

  /** What is heard over a real gap: the decoder's own replacement if it makes one. */
  function Cover(e: Environment, c: Settings, k: Consumer, calls: seq<DecoderCall>): (r: Consumer)
    ensures |r.currentPacket| == c.packetFrames
  {
    var heard := e.conceal(calls);
    if |heard| == c.packetFrames
    then k.(currentPacket := heard, voice := k.voice.(realRun := 0))
    else Extrapolate(e, c, k, true)
  }

  /** A real gap: the decoder is told, and one position is consumed. */
  function CoverLoss(e: Environment, c: Settings, s: State, outcome: Outcome): State {
    TakeTurn(
      s.(consumer := CountConcealment(c, Cover(e, c, s.consumer, s.decoderCalls), true),
         decoderCalls := s.decoderCalls + [Conceal],
         counters := s.counters.(concealed := s.counters.concealed + 1,
                                 concealedFrames := s.counters.concealedFrames + c.packetFrames)),
      outcome)
  }

  function Release(s: State, index: nat): State
    requires index < |s.slots|
  {
    s.(slots := s.slots[index := s.slots[index].(stamp := 0)])
  }

  function CrossFaded(going: Sample, coming: Sample, weight: real): Sample {
    going * (1.0 - weight) + coming * weight
  }

  /** A decoded packet rises over the extrapolation that was being heard. */
  function Blended(e: Environment, c: Settings, v: Voice, burst: nat, decoded: seq<Sample>, i: nat): Sample
    requires i < |decoded|
  {
    CrossFaded(AtLevel(Continued(v, i, FadeFrames(c)), Decayed(burst)), decoded[i], e.window(i))
  }

  /** A decoded packet becomes the current one, cross-faded if it follows a splice. The
      history always receives the packet as decoded, never the cross-fade. */
  function Recover(e: Environment, c: Settings, k: Consumer, decoded: seq<Sample>): (r: Consumer)
    requires |decoded| == c.packetFrames
    ensures |r.currentPacket| == c.packetFrames
  {
    if k.concealBurst != 0 || k.recoveryPending then
      var v := if k.concealBurst == 0
               then k.voice.(concealPeriod := k.voice.cachedPeriod, synthesisOffset := 0) else k.voice;
      k.(currentPacket := seq(c.packetFrames,
                              (i: nat) requires i < |decoded| =>
                                if i < FadeFrames(c) then Blended(e, c, v, k.lossBurst, decoded, i) else decoded[i]),
         concealBurst := 0, lossBurst := 0, recoveryPending := false,
         voice := Append(v, decoded))
    else
      k.(currentPacket := decoded, voice := Append(k.voice, decoded))
  }

  /** Plays the position at the playout cursor: its packet if it is there, else concealment. */
  function PlayNext(e: Environment, c: Settings, s: State): (r: State)
    requires PacketSized(c, s)
    ensures PacketSized(c, r)
  {
    var index := SlotOf(c, s.consumer.playout);
    var slot := s.slots[index];
    if Holds(slot, s.consumer.playout) then
      var decoded := e.decode(s.decoderCalls, slot.bytes);
      var s := Release(s.(decoderCalls := s.decoderCalls + [Decode(slot.bytes)]), index);
      if |decoded| == c.packetFrames then
        TakeTurn(s.(consumer := Recover(e, c, s.consumer, decoded)), Played(slot.bytes))
      else
        CoverLoss(e, c, s.(counters := s.counters.(dropped := s.counters.dropped + 1)),
                  Undecodable(slot.bytes))
    else
      CoverLoss(e, c, s, Lost)
  }

  /** What a trim at the cursor makes of its sequence number. */
  function TrimOutcome(e: Environment, c: Settings, s: State): Outcome
    requires |s.slots| == c.slotCount > 0
  {
    var slot := s.slots[SlotOf(c, s.consumer.playout)];
    if !Holds(slot, s.consumer.playout) then TrimmedGap
    else if |e.decode(s.decoderCalls, slot.bytes)| == c.packetFrames then Trimmed(slot.bytes)
    else TrimmedUndecodable(slot.bytes)
  }

  /** Throws one position away to shed latency; a packet found there is still handed to the decoder. */
  function Trim(e: Environment, c: Settings, s: State): (r: State)
    requires PacketSized(c, s)
    ensures PacketSized(c, r)
  {
    var index := SlotOf(c, s.consumer.playout);
    var slot := s.slots[index];
    var outcome := TrimOutcome(e, c, s);
    var trimmed :=
      if Holds(slot, s.consumer.playout)
      then TakeTurn(Release(s.(decoderCalls := s.decoderCalls + [Decode(slot.bytes)]), index), outcome)
      else TakeTurn(s, outcome);
    trimmed.(consumer := trimmed.consumer.(recoveryPending := true),
             counters := trimmed.counters.(trims := trimmed.counters.trims + 1))
  }

  /** Packets between the playout cursor and the newest arrival, inclusive. */
  function DepthOf(s: State): int {
    Distance(s.producer.highest, s.consumer.playout) + 1
  }

  function WatchArrivals(s: State): State {
    if s.producer.highest != s.consumer.previousHighest then
      s.(consumer := s.consumer.(previousHighest := s.producer.highest, stalledPackets := 0))
    else if s.consumer.stalledPackets < STALL_LIMIT then
      s.(consumer := s.consumer.(stalledPackets := s.consumer.stalledPackets + 1))
    else
      s
  }

  lemma WatchOnlyConsumer(s: State)
    ensures var w := WatchArrivals(s);
            && w == s.(consumer := s.consumer.(previousHighest := w.consumer.previousHighest,
                                               stalledPackets := w.consumer.stalledPackets))
  {
  }

  predicate TooShallow(s: State) {
    DepthOf(s) <= 0 || DepthOf(s) < s.depth.target - STRETCH_SLACK
  }

  predicate TooDeep(s: State) {
    DepthOf(s) > s.depth.target + TRIM_SLACK
  }

  /** What a primed receiver does to produce its next packet. */
  function Regulate(e: Environment, c: Settings, s: State): (r: State)
    requires PacketSized(c, s)
    ensures PacketSized(c, r)
  {
    var s := WatchArrivals(s);
    if TooShallow(s) then Stretch(e, c, s, s.consumer.stalledPackets >= STALL_LIMIT)
    else if TooDeep(s) then PlayNext(e, c, Trim(e, c, s))
    else PlayNext(e, c, s)
  }

  predicate CanBegin(s: State) {
    Observe(s).consumer.primed || CanPrime(Observe(s))
  }

  function BeginPacket(e: Environment, c: Settings, s: State): (r: State)
    requires PacketSized(c, s)
    ensures PacketSized(c, r)
  {
    var s := Observe(s);
    if s.consumer.primed then Regulate(e, c, s)
    else if CanPrime(s) then Regulate(e, c, Prime(s))
    else s
  }

  datatype Pulled = Pulled(state: State, samples: seq<Sample>, live: nat)

  function Silence(s: State, frames: nat): State {
    s.(consumer := s.consumer.(voice := Append(s.consumer.voice, Zeros(frames))),
       counters := s.counters.(silentFrames := s.counters.silentFrames + frames))
  }

  /** Fills `frames` samples: packet by packet, or with silence once no packet can begin. */
  function Pull(e: Environment, c: Settings, s: State, frames: nat): (r: Pulled)
    requires PacketSized(c, s)
    ensures PacketSized(c, r.state)
    decreases frames
  {
    if frames == 0 then Pulled(s, [], 0)
    else if s.consumer.currentOffset >= c.packetFrames && !CanBegin(s) then
      Pulled(Silence(BeginPacket(e, c, s), frames), Zeros(frames), 0)
    else
      var ready := Ready(e, c, s);
      var chunk := Min(frames, c.packetFrames - ready.consumer.currentOffset);
      var rest := Pull(e, c, Advance(ready, chunk), frames - chunk);
      Pulled(rest.state, Window(ready, chunk) + rest.samples, chunk + rest.live)
  }

  /** The state with unread samples in its current packet. */
  function Ready(e: Environment, c: Settings, s: State): (r: State)
    requires PacketSized(c, s)
    requires s.consumer.currentOffset < c.packetFrames || CanBegin(s)
    ensures PacketSized(c, r) && r.consumer.currentOffset < c.packetFrames
  {
    if s.consumer.currentOffset >= c.packetFrames
    then var b := BeginPacket(e, c, s); b.(consumer := b.consumer.(currentOffset := 0))
    else s
  }

  function Advance(s: State, chunk: nat): State {
    s.(consumer := s.consumer.(currentOffset := s.consumer.currentOffset + chunk))
  }

  function Window(s: State, chunk: nat): seq<Sample>
    requires s.consumer.currentOffset + chunk <= |s.consumer.currentPacket|
  {
    s.consumer.currentPacket[s.consumer.currentOffset..s.consumer.currentOffset + chunk]
  }

  /** The next stretch of samples `Pull` copies from one packet. */
  function Chunk(e: Environment, c: Settings, s: State, frames: nat): (chunk: nat)
    requires PacketSized(c, s) && frames > 0
    requires s.consumer.currentOffset < c.packetFrames || CanBegin(s)
    ensures 0 < chunk <= frames && Ready(e, c, s).consumer.currentOffset + chunk <= c.packetFrames
  {
    Min(frames, c.packetFrames - Ready(e, c, s).consumer.currentOffset)
  }

  /** One turn of the copying loop. */
  lemma PullUnfold(e: Environment, c: Settings, s: State, frames: nat)
    requires PacketSized(c, s) && frames > 0
    requires s.consumer.currentOffset < c.packetFrames || CanBegin(s)
    ensures var ready := Ready(e, c, s);
            var chunk := Chunk(e, c, s, frames);
            var rest := Pull(e, c, Advance(ready, chunk), frames - chunk);
            Pull(e, c, s, frames) == Pulled(rest.state, Window(ready, chunk) + rest.samples, chunk + rest.live)
  {
    hide CanBegin, BeginPacket, Ready, Silence, Zeros, Window;
  }

  lemma PullStops(e: Environment, c: Settings, s: State, frames: nat)
    requires PacketSized(c, s)
    ensures frames == 0 ==> Pull(e, c, s, frames) == Pulled(s, [], 0)
    ensures frames > 0 && s.consumer.currentOffset >= c.packetFrames && !CanBegin(s) ==>
              Pull(e, c, s, frames) == Pulled(Silence(BeginPacket(e, c, s), frames), Zeros(frames), 0)
  {
    hide CanBegin, BeginPacket, Silence, Zeros;
  }

  // ---------------------------------------------------------------- control

  function ConfigureDepth(c: Settings, s: State, minimum: nat, maximum: nat, safety: real): State {
    if c.ValidDepth(minimum, maximum, safety)
    then s.(depth := s.depth.(minimum := minimum, maximum := maximum, safety := safety, target := minimum))
    else s
  }

  function Reset(c: Settings, s: State): State {
    var blank := Initial(c);
    blank.(depth := s.depth.(target := s.depth.minimum, shrinkHold := 0))
  }
}
