/** How the buffer depth adapts to the network: what the target covers, and when it moves. */
module ReceiverTarget {
  import opened CircularSequence
  import opened ReceiverModel
  import opened ReceiverIntegrity
  import opened ReceiverRegulation
  import opened ReceiverRuns
  import opened Bounds

  // ------------------------------------------------------------------ one submission

  function Lasting(packets: int, duration: real): real { packets as real * duration }

  /** So many packets bridge the jitter that was measured. */
  predicate Covers(c: Settings, d: Depth, jitter: real, packets: int)
    requires c.sampleRate > 0
  {
    jitter * d.safety + c.PacketDuration() <= Lasting(packets, c.PacketDuration())
  }

  /** So many packets bridge it, or are the most that may be used. */
  predicate Suffices(c: Settings, d: Depth, jitter: real, packets: int)
    requires c.sampleRate > 0
  {
    Covers(c, d, jitter, packets) || packets >= d.maximum
  }

  predicate ValidPayload(c: Settings, payload: Payload) {
    payload != [] && |payload| <= c.maximumPacketBytes
  }

  lemma QuotientBound(x: real, duration: real, n: real)
    requires duration > 0.0
    ensures x / duration <= n <==> x <= n * duration
  {
    OrderKept(duration, x / duration, n);
    assert x / duration * duration == x;
  }

  lemma OrderKept(x: real, a: real, b: real)
    requires x > 0.0
    ensures a <= b <==> a * x <= b * x
  {
  }

  /** The smallest number of packets that last long enough. */
  lemma CeilingCovers(x: real, duration: real, n: int)
    requires duration > 0.0
    ensures PacketsFor(x, duration) <= n <==> x <= Lasting(n, duration)
  {
    QuotientBound(x, duration, n as real);
    CeilingBound(x / duration, n);
    hide Ceiling;
  }

  lemma CeilingBound(y: real, n: int)
    ensures Ceiling(y) <= n <==> y <= n as real
  {
  }

  /** The depth wanted is the least within the limits that suffices. */
  lemma DesiredIsLeast(c: Settings, d: Depth, jitter: real, n: int)
    requires c.Valid() && d.minimum <= d.maximum && d.minimum <= n
    ensures DesiredDepth(c, d, jitter) <= n <==> Suffices(c, d, jitter, n)
    ensures d.minimum <= DesiredDepth(c, d, jitter) <= d.maximum
  {
    CeilingCovers(Needed(c, d, jitter), c.PacketDuration(), n);
    assert Covers(c, d, jitter, n) <==> Needed(c, d, jitter) <= Lasting(n, c.PacketDuration());
    hide Settings.PacketDuration, PacketsFor, Needed, Lasting, Covers;
  }

  /** After every valid submission the target is within its limits and covers the jitter as measured then, or is
      at the upper limit. It rises if and only if it did not suffice any more, and then at once to the least that
      does. Otherwise it stays or falls by one, and falls only if one packet less would do. */
  lemma SubmitAdapts(c: Settings, s: State, sequence: Sequence, payload: Payload, arrival: nat)
    requires c.Valid() && PacketSized(c, s) && DepthSound(c, s.depth) && ValidPayload(c, payload)
    ensures var r := Submit(c, s, sequence, payload, arrival);
            var d, jitter := r.depth, r.producer.jitter;
            && d == s.depth.(target := d.target, shrinkHold := d.shrinkHold) && d.minimum <= d.target <= d.maximum
            && Suffices(c, d, jitter, d.target)
            && (d.target > s.depth.target <==> !Suffices(c, d, jitter, s.depth.target))
            && (d.target > s.depth.target ==> !Suffices(c, d, jitter, d.target - 1))
            && d.target >= s.depth.target - 1
            && (d.target < s.depth.target ==> Covers(c, d, jitter, s.depth.target - 1))
  {
    SubmitTracks(c, s, sequence, payload, arrival);
    RetargetAdapts(c, s.depth, Submit(c, s, sequence, payload, arrival).producer.jitter);
    hide Submit, Retarget, Suffices, Covers;
  }

  lemma RetargetAdapts(c: Settings, d: Depth, jitter: real)
    requires c.Valid() && DepthSound(c, d)
    ensures var r := Retarget(c, d, jitter);
            && r == d.(target := r.target, shrinkHold := r.shrinkHold) && r.minimum <= r.target <= r.maximum
            && Suffices(c, r, jitter, r.target)
            && (r.target > d.target <==> !Suffices(c, r, jitter, d.target))
            && (r.target > d.target ==> !Suffices(c, r, jitter, r.target - 1))
            && r.target >= d.target - 1
            && (r.target < d.target ==> Covers(c, r, jitter, d.target - 1))
  {
    var r := Retarget(c, d, jitter);
    LimitsDecide(c, d, r, jitter);
    hide Settings.PacketDuration, Covers;
    DesiredIsLeast(c, d, jitter, d.target);
    DesiredIsLeast(c, d, jitter, r.target);
    if d.target > d.minimum {
      DesiredIsLeast(c, d, jitter, d.target - 1);
    }
    if r.target > d.minimum {
      DesiredIsLeast(c, d, jitter, r.target - 1);
    }
    hide DesiredDepth;
  }

  /** What covers the jitter depends on the safety factor only. */
  lemma LimitsDecide(c: Settings, d: Depth, r: Depth, jitter: real)
    requires c.sampleRate > 0 && r.safety == d.safety
    ensures forall n :: Covers(c, r, jitter, n) == Covers(c, d, jitter, n)
  {
  }

  lemma SubmitTracks(c: Settings, s: State, sequence: Sequence, payload: Payload, arrival: nat)
    requires c.Valid() && PacketSized(c, s) && ValidPayload(c, payload)
    ensures var r := Submit(c, s, sequence, payload, arrival);
            && r.producer == Measure(c, Rebase(c, s.producer, sequence), sequence, arrival)
            && r.depth == Retarget(c, s.depth, r.producer.jitter)
  {
    hide Rebase, Measure, Retarget, Classify, SlotOf;
  }

  // ------------------------------------------------------------------ patience

  /** One packet less would do. */
  predicate Roomy(c: Settings, d: Depth, jitter: real)
    requires c.sampleRate > 0
  {
    d.target > d.minimum && Covers(c, d, jitter, d.target - 1)
  }

  /** The valid submissions of a run, up to its last one, that all found room while the target stayed put. */
  function Patience(e: Environment, c: Settings, ops: seq<Op>): nat
    requires c.Valid()
  {
    if ops == [] then 0
    else
      var front, op := ops[..|ops| - 1], ops[|ops| - 1];
      var s := Run(e, c, Initial(c), front);
      var r := Step(e, c, s, op);
      match op
      case Arrive(_, payload, _) =>
        if !ValidPayload(c, payload) then Patience(e, c, front)
        else if Roomy(c, s.depth, r.producer.jitter) && r.depth.target == s.depth.target then Patience(e, c, front) + 1
        else 0
      case Render(_) => Patience(e, c, front)
      case Retune(minimum, maximum, safety) =>
        if c.ValidDepth(minimum, maximum, safety) then 0 else Patience(e, c, front)
      case Restart => 0
  }

  /** The program's own counter is that number, except after a retuning, when the target is as low as it gets. */
  ghost predicate Patient(c: Settings, s: State, patience: nat) {
    DepthSound(c, s.depth) && (s.depth.shrinkHold == patience || s.depth.target == s.depth.minimum)
  }

  /** The target falls exactly when there is room and has been for long enough. */
  lemma SubmitWaits(c: Settings, s: State, sequence: Sequence, payload: Payload, arrival: nat, patience: nat)
    requires c.Valid() && PacketSized(c, s) && ValidPayload(c, payload) && Patient(c, s, patience)
    ensures var r := Submit(c, s, sequence, payload, arrival);
            var roomy := Roomy(c, s.depth, r.producer.jitter);
            && (r.depth.target < s.depth.target <==> roomy && patience + 1 >= c.shrinkHoldPackets)
            && Patient(c, r, if roomy && r.depth.target == s.depth.target then patience + 1 else 0)
  {
    var r := Submit(c, s, sequence, payload, arrival);
    var d, jitter := s.depth, r.producer.jitter;
    SubmitTracks(c, s, sequence, payload, arrival);
    hide Submit, Settings.PacketDuration;
    DesiredIsLeast(c, d, jitter, d.target);
    if d.target > d.minimum {
      DesiredIsLeast(c, d, jitter, d.target - 1);
    }
    hide DesiredDepth, Covers;
  }

  lemma PullKeepsDepth(e: Environment, c: Settings, s: State, frames: nat)
    requires PacketSized(c, s)
    ensures Pull(e, c, s, frames).state.depth == s.depth
  {
    hide BeginPacket, Pull, Silence, AtOffset;
    forall t: State | PacketSized(c, t) && t.depth == s.depth ensures BeginPacket(e, c, t).depth == s.depth {
      BeginKeepsDepth(e, c, t);
    }
    forall t: State, offset: nat | t.depth == s.depth && offset <= c.packetFrames ensures AtOffset(t, offset).depth == s.depth {
      OffsetKeepsDepth(t, offset);
    }
    forall t: State, n: nat | t.depth == s.depth ensures Silence(t, n).depth == s.depth {
      SilenceKeepsDepth(t, n);
    }
    PullKeeps(e, c, s, frames, (t: State) => t.depth == s.depth);
  }

  lemma OffsetKeepsDepth(s: State, offset: nat)
    ensures AtOffset(s, offset).depth == s.depth
  {
  }

  lemma SilenceKeepsDepth(s: State, n: nat)
    ensures Silence(s, n).depth == s.depth
  {
  }

  lemma BeginKeepsDepth(e: Environment, c: Settings, s: State)
    requires PacketSized(c, s)
    ensures BeginPacket(e, c, s).depth == s.depth
  {
    hide Regulate;
    var o := Observe(s);
    if o.consumer.primed {
      RegulateKeepsDepth(e, c, o);
    } else if CanPrime(o) {
      RegulateKeepsDepth(e, c, Prime(o));
    }
  }

  lemma RegulateKeepsDepth(e: Environment, c: Settings, s: State)
    requires PacketSized(c, s)
    ensures Regulate(e, c, s).depth == s.depth
  {
    var w := WatchArrivals(s);
    PlayConsumes(e, c, w);
    TrimConsumes(e, c, w);
    PlayConsumes(e, c, Trim(e, c, w));
    hide PlayNext, Trim, SlotOf, Carried, CallsFor, NextOutcome, TrimOutcome;
  }

  lemma StepWaits(e: Environment, c: Settings, ops: seq<Op>)
    requires c.Valid() && ops != [] && Patient(c, Run(e, c, Initial(c), ops[..|ops| - 1]), Patience(e, c, ops[..|ops| - 1]))
    ensures Patient(c, Run(e, c, Initial(c), ops), Patience(e, c, ops))
  {
    var front, op := ops[..|ops| - 1], ops[|ops| - 1];
    var s := Run(e, c, Initial(c), front);
    hide Submit, Pull, Roomy, DepthSound;
    match op {
      case Arrive(sequence, payload, at) =>
        if ValidPayload(c, payload) {
          SubmitWaits(c, s, sequence, payload, at, Patience(e, c, front));
        } else {
          RefusedKeepsDepth(c, s, sequence, payload, at);
        }
      case Render(frames) => PullKeepsDepth(e, c, s, frames);
      case Retune(minimum, maximum, safety) => RetuneWaits(c, s, minimum, maximum, safety, Patience(e, c, front));
      case Restart => RestartWaits(c, s, Patience(e, c, front));
    }
  }

  lemma RefusedKeepsDepth(c: Settings, s: State, sequence: Sequence, payload: Payload, arrival: nat)
    requires c.Valid() && PacketSized(c, s) && !ValidPayload(c, payload)
    ensures Submit(c, s, sequence, payload, arrival).depth == s.depth
  {
  }

  lemma RetuneWaits(c: Settings, s: State, minimum: nat, maximum: nat, safety: real, patience: nat)
    requires Patient(c, s, patience)
    ensures var r := ConfigureDepth(c, s, minimum, maximum, safety);
            Patient(c, r, if c.ValidDepth(minimum, maximum, safety) then 0 else patience)
  {
  }

  lemma RestartWaits(c: Settings, s: State, patience: nat)
    requires Patient(c, s, patience)
    ensures Patient(c, Reset(c, s), 0)
  {
  }

  lemma {:induction false} RunWaits(e: Environment, c: Settings, ops: seq<Op>)
    requires c.Valid()
    ensures Patient(c, Run(e, c, Initial(c), ops), Patience(e, c, ops))
    decreases |ops|
  {
    if ops != [] {
      RunWaits(e, c, ops[..|ops| - 1]);
      StepWaits(e, c, ops);
    }
  }

  /** In every run a valid submission lowers the target if and only if one packet less would do and the packets
      before it, `shrinkHoldPackets` of them counting this one, found that too since the target last moved or was
      set; so it falls at most once in so many packets. */
  lemma TargetFallsIffPatient(e: Environment, c: Settings, ops: seq<Op>, sequence: Sequence, payload: Payload, arrival: nat)
    requires c.Valid() && ValidPayload(c, payload)
    ensures var s := Run(e, c, Initial(c), ops);
            var r := Submit(c, s, sequence, payload, arrival);
            && (r.depth.target < s.depth.target
                <==> Roomy(c, s.depth, r.producer.jitter) && Patience(e, c, ops) + 1 >= c.shrinkHoldPackets)
            && r.depth.target >= s.depth.target - 1
  {
    RunWaits(e, c, ops);
    hide Run, Submit, Patience, Roomy, Step;
    var s := Run(e, c, Initial(c), ops);
    SubmitWaits(c, s, sequence, payload, arrival, Patience(e, c, ops));
    SubmitAdapts(c, s, sequence, payload, arrival);
  }

  /** Depth settings are taken over if and only if they make sense for the ring; the target then starts at the least
      depth. Any others change nothing. */
  lemma RetuneIsAcceptedIff(c: Settings, s: State, minimum: nat, maximum: nat, safety: real)
    ensures var r := ConfigureDepth(c, s, minimum, maximum, safety);
            if 1 <= minimum <= maximum && 2 * maximum < c.slotCount && 1.0 <= safety <= 16.0 then
              && r == s.(depth := r.depth) && r.depth.minimum == r.depth.target == minimum
              && r.depth.maximum == maximum && r.depth.safety == safety && r.depth.shrinkHold == s.depth.shrinkHold
            else r == s
  {
  }

  // ------------------------------------------------------------------ what is measured

  /** What a valid submission does to the jitter estimate: a packet after the newest, less than half a ring on,
      moves it a sixteenth of the way to its own deviation from the pace of the packets between; a wider gap only
      moves the anchor; one that is not newer leaves both alone. */
  lemma JitterFollowsArrivals(c: Settings, s: State, sequence: Sequence, payload: Payload, arrival: nat)
    requires c.Valid() && PacketSized(c, s) && ValidPayload(c, payload) && Anchored(s.producer) && s.producer.hasFirst
    ensures var p, r := s.producer, Submit(c, s, sequence, payload, arrival).producer;
            var step := Distance(sequence, p.highest);
            var late := arrival as real - p.previousArrival as real - step as real * c.PacketDuration();
            && (0 < step < c.slotCount / 2 ==> 16.0 * r.jitter == 15.0 * p.jitter + Magnitude(late))
            && (!(0 < step < c.slotCount / 2) ==> r.jitter == p.jitter)
            && (-(c.slotCount / 2) <= step <= 0 ==> r.previousArrival == p.previousArrival)
            && (!(-(c.slotCount / 2) <= step <= 0) ==> r.previousArrival == arrival)
  {
    SubmitTracks(c, s, sequence, payload, arrival);
    hide Submit, Settings.PacketDuration, Distance, Retarget;
  }

  /** Packets in order, each so many microseconds after the one before. */
  function Stream(c: Settings, s: State, payloads: seq<Payload>, start: nat, gap: nat): (r: State)
    requires c.Valid() && PacketSized(c, s)
    ensures PacketSized(c, r)
    decreases payloads
  {
    if payloads == [] then s
    else
      Stream(c, SubmitNext(c, s, Arrival(payloads[0], start + gap)), payloads[1..], start + gap, gap)
  }

  /** What is left of an error once so many packets have each taken a sixteenth of it away. */
  function Remaining(error: real, packets: nat): real
    decreases packets
  {
    if packets == 0 then error else Remaining(error * 15.0 / 16.0, packets - 1)
  }

  /** A stream that keeps a steady pace is learnt: the error of the estimate against the true deviation of its pace
      shrinks by a sixteenth with every packet. */
  lemma {:induction false} SteadyPaceIsLearnt(c: Settings, s: State, payloads: seq<Payload>, gap: nat)
    requires c.Valid() && PacketSized(c, s) && Anchored(s.producer) && s.producer.hasFirst
    requires forall p | p in payloads :: ValidPayload(c, p)
    ensures Stream(c, s, payloads, s.producer.previousArrival, gap).producer.jitter - Deviation(c, gap)
            == Remaining(s.producer.jitter - Deviation(c, gap), |payloads|)
    decreases payloads
  {
    hide SubmitNext, Deviation, Anchored, ValidPayload, Settings.Valid, PacketSized;
    if payloads != [] {
      var next := SubmitNext(c, s, Arrival(payloads[0], s.producer.previousArrival + gap));
      PacedKeepsAnchor(c, s, payloads[0], gap);
      PacedMovesJitter(c, s, payloads[0], gap);
      StreamOne(c, s, payloads, s.producer.previousArrival, gap);
      hide Stream;
      SteadyPaceIsLearnt(c, next, payloads[1..], gap);
    }
  }

  /** How far packets that come this often are from the pace they are played at. */
  function Deviation(c: Settings, gap: nat): real
    requires c.sampleRate > 0
  {
    Magnitude(gap as real - c.PacketDuration())
  }

  lemma StreamOne(c: Settings, s: State, payloads: seq<Payload>, start: nat, gap: nat)
    requires c.Valid() && PacketSized(c, s) && payloads != []
    ensures var next := SubmitNext(c, s, Arrival(payloads[0], start + gap));
            Stream(c, s, payloads, start, gap) == Stream(c, next, payloads[1..], start + gap, gap)
  {
    hide SubmitNext;
  }

  lemma PacedKeepsAnchor(c: Settings, s: State, payload: Payload, gap: nat)
    requires c.Valid() && PacketSized(c, s) && Anchored(s.producer) && s.producer.hasFirst && ValidPayload(c, payload)
    ensures var p := SubmitNext(c, s, Arrival(payload, s.producer.previousArrival + gap)).producer;
            Anchored(p) && p.hasFirst
  {
    var next, arrival := Plus(s.producer.highest, 1), s.producer.previousArrival + gap;
    SubmitTracks(c, s, next, payload, arrival);
    SubmitKeepsAnchor(c, s.producer, next, arrival);
    hide Submit, Plus, Rebase, Measure, Retarget, Anchored;
  }

  lemma PacedMovesJitter(c: Settings, s: State, payload: Payload, gap: nat)
    requires c.Valid() && PacketSized(c, s) && Anchored(s.producer) && s.producer.hasFirst && ValidPayload(c, payload)
    ensures var p := SubmitNext(c, s, Arrival(payload, s.producer.previousArrival + gap)).producer;
            && p.previousArrival == s.producer.previousArrival + gap
            && p.jitter - Deviation(c, gap) == (s.producer.jitter - Deviation(c, gap)) * 15.0 / 16.0
  {
    var next, arrival := Plus(s.producer.highest, 1), s.producer.previousArrival + gap;
    DistanceOfPlus(s.producer.highest, 1, 0);
    assert Distance(next, s.producer.highest) == 1;
    JitterFollowsArrivals(c, s, next, payload, arrival);
    hide Submit, Settings.PacketDuration, Distance, Plus, Anchored, Magnitude;
    assert 1 as real * c.PacketDuration() == c.PacketDuration();
  }
}
