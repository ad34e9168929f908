/** The stateful decoder against the cursor: when a sequence number goes by that the decoder is not told of. */
module ReceiverDecoder {
  import opened CircularSequence
  import opened ReceiverModel
  import opened ReceiverIntegrity
  import opened ReceiverRegulation
  import opened ReceiverLossless
  import opened ReceiverPlayout
  import opened ReceiverRuns

  // ------------------------------------------------------ what a call tells the decoder

  /** A call tells the decoder of one sequence number if it hands over a packet that decodes whole or says
      that one is missing. A packet that does not decode tells it nothing. */
  predicate Tells(e: Environment, c: Settings, before: seq<DecoderCall>, call: DecoderCall) {
    match call
    case Decode(payload) => |e.decode(before, payload)| == c.packetFrames
    case Conceal => true
  }

  function Told(e: Environment, c: Settings, calls: seq<DecoderCall>): nat {
    if calls == [] then 0
    else
      var before := calls[..|calls| - 1];
      Told(e, c, before) + if Tells(e, c, before, calls[|calls| - 1]) then 1 else 0
  }

  /** A call that produces a whole packet. */
  predicate Yields(e: Environment, c: Settings, before: seq<DecoderCall>, call: DecoderCall) {
    match call
    case Decode(payload) => |e.decode(before, payload)| == c.packetFrames
    case Conceal => |e.conceal(before)| == c.packetFrames
  }

  function Yielded(e: Environment, c: Settings, calls: seq<DecoderCall>): nat {
    if calls == [] then 0
    else
      var before := calls[..|calls| - 1];
      Yielded(e, c, before) + if Yields(e, c, before, calls[|calls| - 1]) then 1 else 0
  }

  /** Concealments that the decoder has nothing to offer for. */
  function Fruitless(e: Environment, c: Settings, calls: seq<DecoderCall>): nat {
    if calls == [] then 0
    else
      var before := calls[..|calls| - 1];
      Fruitless(e, c, before)
      + if calls[|calls| - 1].Conceal? && !Yields(e, c, before, Conceal) then 1 else 0
  }

  lemma {:induction false} ToldYieldsOrIsFruitless(e: Environment, c: Settings, calls: seq<DecoderCall>)
    ensures Told(e, c, calls) == Yielded(e, c, calls) + Fruitless(e, c, calls)
  {
    if calls != [] {
      ToldYieldsOrIsFruitless(e, c, calls[..|calls| - 1]);
    }
  }

  lemma ToldAppend(e: Environment, c: Settings, calls: seq<DecoderCall>, call: DecoderCall)
    ensures Told(e, c, calls + [call]) == Told(e, c, calls) + if Tells(e, c, calls, call) then 1 else 0
  {
    assert (calls + [call])[..|calls|] == calls;
  }

  // ------------------------------------------------------ one turn

  function SilentTrims(s: State): nat { Count(s.ledger.turns, IsSilentTrim) }

  /** Turns that are not silent trims, and sequence numbers that the decoder was told of. */
  predicate InStep(e: Environment, c: Settings, s: State) {
    Told(e, c, s.decoderCalls) == |s.ledger.turns| - SilentTrims(s)
  }

  /** The outcome says what the decoder makes of the packet after these calls. */
  predicate Agrees(e: Environment, c: Settings, calls: seq<DecoderCall>, outcome: Outcome) {
    match outcome
    case Played(p) => |e.decode(calls, p)| == c.packetFrames
    case Trimmed(p) => |e.decode(calls, p)| == c.packetFrames
    case Undecodable(p) => |e.decode(calls, p)| != c.packetFrames
    case TrimmedUndecodable(p) => |e.decode(calls, p)| != c.packetFrames
    case _ => true
  }

  lemma CallsTell(e: Environment, c: Settings, calls: seq<DecoderCall>, outcome: Outcome)
    requires Agrees(e, c, calls, outcome)
    ensures Told(e, c, calls + CallsFor(outcome)) == Told(e, c, calls) + if IsSilentTrim(outcome) then 0 else 1
  {
    hide Told;
    match outcome {
      case Played(p) => ToldAppend(e, c, calls, Decode(p));
      case Trimmed(p) => ToldAppend(e, c, calls, Decode(p));
      case TrimmedGap => assert calls + [] == calls;
      case TrimmedUndecodable(p) => ToldAppend(e, c, calls, Decode(p));
      case Lost => ToldAppend(e, c, calls, Conceal);
      case Undecodable(p) =>
        ToldAppend(e, c, calls, Decode(p));
        ToldAppend(e, c, calls + [Decode(p)], Conceal);
        assert calls + [Decode(p)] + [Conceal] == calls + CallsFor(outcome);
    }
  }

  /** `r` follows `s` with so many silent trims, and the decoder told of every other turn. */
  predicate Follows(e: Environment, c: Settings, s: State, r: State, silent: nat) {
    && SilentTrims(r) == SilentTrims(s) + silent
    && Told(e, c, r.decoderCalls) - Told(e, c, s.decoderCalls) == |r.ledger.turns| - |s.ledger.turns| - silent
  }

  lemma TurnFollows(e: Environment, c: Settings, s: State, r: State, outcome: Outcome)
    requires |s.slots| == c.slotCount > 0 && Consumes(c, s, r, outcome) && Agrees(e, c, s.decoderCalls, outcome)
    ensures Follows(e, c, s, r, if IsSilentTrim(outcome) then 1 else 0)
  {
    CountAppend(s.ledger.turns, Turn(s.ledger.segment, s.consumer.playout, outcome), IsSilentTrim);
    CallsTell(e, c, s.decoderCalls, outcome);
    hide Count, Told, CallsFor, SlotOf;
  }

  // ------------------------------------------------------ one packet of playback

  /** The decoder gets nothing out of the sequence number at the cursor: its packet is missing, or it is there
      and does not decode. */
  predicate Mute(e: Environment, c: Settings, s: State)
    requires PacketSized(c, s)
  {
    var slot := s.slots[SlotOf(c, s.consumer.playout)];
    Holds(slot, s.consumer.playout) ==> |e.decode(s.decoderCalls, slot.bytes)| != c.packetFrames
  }

  predicate DeepMute(e: Environment, c: Settings, s: State)
    requires PacketSized(c, s)
  {
    DepthOf(s) > HighDepth(s.depth.target) && Mute(e, c, s)
  }

  /** A playing receiver that has seen every resync, is too far behind the newest packet, and has nothing at
      its cursor that decodes. */
  predicate LeavesBehind(e: Environment, c: Settings, s: State)
    requires PacketSized(c, s)
  {
    s.consumer.primed && s.consumer.observedEpoch == s.producer.resyncEpoch && DeepMute(e, c, s)
  }

  lemma PlayFollows(e: Environment, c: Settings, s: State)
    requires PacketSized(c, s)
    ensures Follows(e, c, s, PlayNext(e, c, s), 0)
  {
    PlayConsumes(e, c, s);
    TurnFollows(e, c, s, PlayNext(e, c, s), NextOutcome(e, c, s));
    hide PlayNext, Consumes, Follows;
  }

  lemma TrimFollows(e: Environment, c: Settings, s: State)
    requires PacketSized(c, s)
    ensures Follows(e, c, s, Trim(e, c, s), if Mute(e, c, s) then 1 else 0)
  {
    TrimConsumes(e, c, s);
    TurnFollows(e, c, s, Trim(e, c, s), TrimOutcome(e, c, s));
    hide Trim, Consumes, Follows;
  }

  lemma RegulateFollows(e: Environment, c: Settings, s: State)
    requires PacketSized(c, s)
    ensures Follows(e, c, s, Regulate(e, c, s), if DeepMute(e, c, s) then 1 else 0)
  {
    var w := WatchArrivals(s);
    WatchOnlyConsumer(s);
    hide PlayNext, Trim, SlotOf, Distance, Count, Told, WatchArrivals;
    assert DeepMute(e, c, w) <==> DeepMute(e, c, s);
    if TooDeep(w) {
      TrimFollows(e, c, w);
      PlayFollows(e, c, Trim(e, c, w));
    } else if !TooShallow(w) {
      PlayFollows(e, c, w);
    }
  }

  lemma PrimedDepth(s: State)
    requires 1 <= s.depth.target < HALF
    ensures DepthOf(Prime(s)) == s.depth.target
  {
    PlusZero(s.producer.highest);
    DistanceOfPlus(s.producer.highest, 0, 1 - s.depth.target);
  }

  /** A packet of playback passes a sequence number that the decoder is not told of if and only if it leaves the
      decoder behind: the guard of the trimming branch over a packet that is missing or does not decode, which
      can be read off beforehand. Of every other turn it takes the decoder is told exactly once. */
  lemma SilentTrimIffLeavesBehind(e: Environment, c: Settings, s: State)
    requires PacketSized(c, s) && 1 <= s.depth.target < HALF
    ensures var silent, r := if LeavesBehind(e, c, s) then 1 else 0, BeginPacket(e, c, s);
            && SilentTrims(r) == SilentTrims(s) + silent
            && Told(e, c, r.decoderCalls) - Told(e, c, s.decoderCalls)
               == |r.ledger.turns| - |s.ledger.turns| - silent
  {
    var o := Observe(s);
    if o.consumer.primed {
      RegulateFollows(e, c, o);
    } else if CanPrime(o) {
      PrimedDepth(o);
      RegulateFollows(e, c, Prime(o));
    }
    hide Regulate, Count, SlotOf, Distance, Plus, Told;
  }

  // ------------------------------------------------------ whole runs

  lemma BeginKeepsStep(e: Environment, c: Settings, s: State)
    requires PacketSized(c, s) && InStep(e, c, s)
    ensures InStep(e, c, BeginPacket(e, c, s))
  {
    hide Regulate, Count, Told, DeepMute;
    var o := Observe(s);
    if o.consumer.primed {
      RegulateFollows(e, c, o);
    } else if CanPrime(o) {
      RegulateFollows(e, c, Prime(o));
    }
  }

  lemma SubmitKeepsCalls(c: Settings, s: State, sequence: Sequence, payload: Payload, arrival: nat)
    requires c.Valid() && PacketSized(c, s)
    ensures var r := Submit(c, s, sequence, payload, arrival);
            r.decoderCalls == s.decoderCalls && r.ledger.turns == s.ledger.turns
  {
    hide Rebase, Measure, Retarget, SlotOf, Classify;
  }

  /** Being in step depends on the calls made and the turns taken only. */
  lemma SameStep(e: Environment, c: Settings, s: State, r: State)
    requires InStep(e, c, s) && r.decoderCalls == s.decoderCalls && r.ledger.turns == s.ledger.turns
    ensures InStep(e, c, r)
  {
  }

  lemma PullKeepsStep(e: Environment, c: Settings, s: State, frames: nat)
    requires PacketSized(c, s) && InStep(e, c, s)
    ensures InStep(e, c, Pull(e, c, s, frames).state)
  {
    hide InStep, Pull, BeginPacket;
    forall t | PacketSized(c, t) && InStep(e, c, t) ensures InStep(e, c, BeginPacket(e, c, t)) {
      BeginKeepsStep(e, c, t);
    }
    forall t, offset: nat | InStep(e, c, t) && offset <= c.packetFrames ensures InStep(e, c, AtOffset(t, offset)) {
      SameStep(e, c, t, AtOffset(t, offset));
    }
    forall t, n: nat | InStep(e, c, t) ensures InStep(e, c, Silence(t, n)) {
      SameStep(e, c, t, Silence(t, n));
    }
    hide AtOffset, Silence;
    PullKeeps(e, c, s, frames, t => InStep(e, c, t));
  }

  lemma StepKeepsStep(e: Environment, c: Settings, s: State, op: Op)
    requires c.Valid() && PacketSized(c, s) && InStep(e, c, s)
    ensures InStep(e, c, Step(e, c, s, op))
  {
    hide Submit, Pull, Told;
    match op {
      case Arrive(sequence, payload, at) => SubmitKeepsCalls(c, s, sequence, payload, at);
      case Render(frames) => PullKeepsStep(e, c, s, frames);
      case Retune(minimum, maximum, safety) => SameStep(e, c, s, ConfigureDepth(c, s, minimum, maximum, safety));
      case Restart => FreshInStep(e, c, Reset(c, s));
    }
  }

  lemma FreshInStep(e: Environment, c: Settings, s: State)
    requires s.decoderCalls == [] && s.ledger.turns == []
    ensures InStep(e, c, s)
  {
  }

  lemma {:induction false} RunKeepsStep(e: Environment, c: Settings, s: State, ops: seq<Op>)
    requires c.Valid() && PacketSized(c, s) && InStep(e, c, s)
    ensures InStep(e, c, Run(e, c, s, ops))
    decreases ops
  {
    hide Step, InStep;
    if ops != [] {
      RunKeepsStep(e, c, s, ops[..|ops| - 1]);
      StepKeepsStep(e, c, Run(e, c, s, ops[..|ops| - 1]), ops[|ops| - 1]);
    }
  }

  /** In every run the decoder has been told of as many sequence numbers as turns were taken, less the silent
      trims: it is in step exactly when no trim ever fell on a packet that was missing or did not decode. Of
      what it was told it has moved by all but the concealments for which it had nothing to offer. */
  lemma DecoderInStepIffNoSilentTrim(e: Environment, c: Settings, s: State)
    requires Reachable(e, c, s)
    ensures var told, turns := Told(e, c, s.decoderCalls), |s.ledger.turns|;
            && told == turns - SilentTrims(s)
            && (told == turns <==> SilentTrims(s) == 0)
    ensures var yielded, turns := Yielded(e, c, s.decoderCalls), |s.ledger.turns|;
            && yielded == turns - SilentTrims(s) - Fruitless(e, c, s.decoderCalls)
            && (yielded == turns <==> SilentTrims(s) == 0 && Fruitless(e, c, s.decoderCalls) == 0)
  {
    var ops :| s == Run(e, c, Initial(c), ops);
    FreshInStep(e, c, Initial(c));
    RunKeepsStep(e, c, Initial(c), ops);
    ToldYieldsOrIsFruitless(e, c, s.decoderCalls);
    hide Run, Reachable, Told, Yielded, Fruitless, Count;
  }

  // ------------------------------------------------------ trimming over a gap

  /** Above the dead zone, a missing packet at the cursor is skipped without a decoder call, so the
      only calls made are those of the packet played after it. */
  lemma GapTrimSkipsDecoder(e: Environment, c: Settings, s: State)
    requires Settled(c, s) && DepthOf(s) > HighDepth(s.depth.target)
    requires !Holds(s.slots[SlotOf(c, s.consumer.playout)], s.consumer.playout)
    ensures var r := Regulate(e, c, s);
            var w := WatchArrivals(s);
            && |r.ledger.turns| == |s.ledger.turns| + 2
            && r.ledger.turns[|s.ledger.turns|].outcome == TrimmedGap
            && r.decoderCalls == s.decoderCalls + CallsFor(r.ledger.turns[|s.ledger.turns| + 1].outcome)
  {
    var w := WatchArrivals(s);
    WatchOnly(c, s);
    var t := Trim(e, c, w);
    TrimConsumes(e, c, w);
    assert Settled(c, t) by { TrimMoves(e, c, w); }
    PlayConsumes(e, c, t);
    hide PlayNext, Trim, WatchArrivals, NextOutcome, SlotOf;
    assert Regulate(e, c, s) == PlayNext(e, c, t);
    assert s.decoderCalls + [] == s.decoderCalls;
  }

  /** So the decoder does fall out of step. All packets so far have been played; then enough are
      lost in a row that the next arrival lies above the dead zone. Playout takes two turns and the
      decoder is called for the second only. */
  lemma BurstLossDesynchronises(e: Environment, c: Settings, s: State, a: Arrival)
    requires Stocked(c, s) && DepthOf(s) == 0 && Fits(c, a)
    requires var jump := HighDepth(s.depth.target) + 1;
             && jump <= c.slotCount / 2
             && Submit(c, s, Plus(s.producer.highest, jump), a.payload, a.microseconds).depth.target == s.depth.target
    ensures var late := Plus(s.producer.highest, HighDepth(s.depth.target) + 1);
            var t := Submit(c, s, late, a.payload, a.microseconds);
            var r := BeginPacket(e, c, t);
            && Settled(c, t) && t.ledger.turns == s.ledger.turns && LeavesBehind(e, c, t)
            && |r.ledger.turns| == |t.ledger.turns| + 2
            && r.ledger.turns[|t.ledger.turns|].outcome == TrimmedGap
            && r.decoderCalls == t.decoderCalls + CallsFor(r.ledger.turns[|t.ledger.turns| + 1].outcome)
  {
    var jump := HighDepth(s.depth.target) + 1;
    var late := Plus(s.producer.highest, jump);
    var t := Submit(c, s, late, a.payload, a.microseconds);
    SubmitAhead(c, s, jump, a);
    CursorMissing(c, s, jump);
    AheadDepth(s, t, jump);
    BeginSettled(e, c, t);
    hide Submit, BeginPacket, Regulate, Stocked, Settled, SlotOf, DepthOf;
    GapTrimSkipsDecoder(e, c, t);
  }

  // ------------------------------------------------------ runs that end out of step

  /** With one depth to choose from, the target is that depth. */
  lemma TargetStays(c: Settings, s: State, sequence: Sequence, payload: Payload, arrival: nat)
    requires c.Valid() && PacketSized(c, s) && s.depth.minimum == s.depth.maximum == s.depth.target == 1
    ensures var d := Submit(c, s, sequence, payload, arrival).depth;
            d.minimum == d.maximum == d.target == 1
  {
    hide Rebase, Measure, SlotOf, Classify, Ceiling;
  }

  lemma OffsetKeepsStocked(c: Settings, s: State, offset: nat)
    requires Stocked(c, s)
    ensures Stocked(c, AtOffset(s, offset))
  {
    hide SlotOf, Distance, Filled, Occupied;
  }

  /** The receiver after its first packet of playback. */
  lemma FirstPlayed(e: Environment, c: Settings, s: State, first: Sequence, a: Arrival)
    requires Filling(c, s, first, 1) && Unplayed(s) && s.depth.target == 1
    requires PayloadsFrom(c, s.slots, first, 1) == Payloads([a]) && Decodable(e, c, a.payload)
    ensures PacketSized(c, s) && CanBegin(s)
    ensures var r := BeginPacket(e, c, s);
            && Stocked(c, r) && DepthOf(r) == 0 && r.depth == s.depth && r.producer.highest == first && SilentTrims(r) == 0
  {
    hide Filled, Occupied, Stocked, PayloadsFrom, Distance, Plus, PlayedTurns, Regulate;
    FirstPacket(e, c, s, first, [a]);
    BeginPrimes(e, c, s, first, 1);
    FillingPrimes(c, s, first, 1);
    StockedSizes(c, Prime(s));
    BeginCoasts(e, c, Prime(s));
    PlusPlus(s.producer.highest, 1, -1);
    PlusPlus(first, 1, -1);
    PlusZero(s.producer.highest);
    PlusZero(first);
    OneTurn(1, Plus(first, 0), a.payload);
    hide BeginPacket, DepthOf;
    assert Payloads([a])[0] == a.payload;
    var turns := [Turn(1, Plus(first, 0), Played(a.payload))];
    assert BeginPacket(e, c, s).ledger.turns == turns && turns[..0] == [] && Count(turns[..0], IsSilentTrim) == 0;
  }

  /** The state after the first packet has been pulled. */
  lemma FirstPulled(e: Environment, c: Settings, first: Sequence, a: Arrival) returns (s: State)
    requires SmallRing(c) && c.minimumDepth == c.maximumDepth == 1 && Fits(c, a) && Decodable(e, c, a.payload)
    ensures c.Valid()
    ensures s == Pull(e, c, Submit(c, Initial(c), first, a.payload, a.microseconds), c.packetFrames).state
    ensures Stocked(c, s) && DepthOf(s) == 0 && s.depth.minimum == s.depth.maximum == s.depth.target == 1
    ensures s.producer.highest == first && SilentTrims(s) == 0 && s.consumer.currentOffset == c.packetFrames
  {
    SmallRingHasSlots(c);
    var s1 := Submit(c, Initial(c), first, a.payload, a.microseconds);
    TargetStays(c, Initial(c), first, a.payload, a.microseconds);
    assert [a][..0] == [] && s1 == Opening(c, first, [a]);
    hide Submit, Filling, Stocked, SmallRing, CanBegin, BeginPacket, PayloadsFrom, Pull, Opening;
    OpeningStarts(c, first, [a]);
    FirstPlayed(e, c, s1, first, a);
    PullsOnePacket(e, c, s1);
    OffsetKeepsStocked(c, BeginPacket(e, c, s1), c.packetFrames);
    s := AtOffset(BeginPacket(e, c, s1), c.packetFrames);
  }

  /** A pull that leaves the decoder behind. */
  lemma BehindPulled(e: Environment, c: Settings, s: State)
    requires Settled(c, s) && LeavesBehind(e, c, s) && s.depth.target == 1
    requires SilentTrims(s) == 0 && s.consumer.currentOffset == c.packetFrames
    ensures SilentTrims(Pull(e, c, s, c.packetFrames).state) == 1
  {
    hide BeginPacket, CanBegin, Pull, LeavesBehind, Count;
    BeginSettled(e, c, s);
    PullsOnePacket(e, c, s);
    SilentTrimIffLeavesBehind(e, c, s);
  }

  /** One more step of a run of a new receiver. */
  lemma Then(e: Environment, c: Settings, ops: seq<Op>, s: State, op: Op) returns (r: State)
    requires c.Valid() && s == Run(e, c, Initial(c), ops)
    ensures r == Step(e, c, s, op) == Run(e, c, Initial(c), ops + [op]) && Reachable(e, c, r)
  {
    r := Step(e, c, s, op);
    assert (ops + [op])[..|ops|] == ops;
    hide Step;
  }

  /** One packet arrives and is played, three are lost, the next arrives and a packet is pulled. */
  function Outage(c: Settings, first: Sequence, a: Arrival, b: Arrival): seq<Op> {
    [] + [Arrive(first, a.payload, a.microseconds)] + [Render(c.packetFrames)]
    + [Arrive(Plus(first, 4), b.payload, b.microseconds)] + [Render(c.packetFrames)]
  }

  /** Such a run leaves the decoder one packet behind the cursor, on a ring of eight slots or more with one
      depth to choose from, wherever the stream starts and whatever the packets and their timing. */
  lemma OutageRunsOutOfStep(e: Environment, c: Settings, first: Sequence, a: Arrival, b: Arrival)
    requires SmallRing(c) && c.slotCount >= 8 && c.minimumDepth == c.maximumDepth == 1
    requires Fits(c, a) && Fits(c, b) && Decodable(e, c, a.payload)
    ensures c.Valid()
    ensures var s := Run(e, c, Initial(c), Outage(c, first, a, b));
            SilentTrims(s) == 1 && Told(e, c, s.decoderCalls) == |s.ledger.turns| - 1
  {
    hide Pull, Submit, Stocked, SmallRing, DepthOf, Reachable, Run, Plus, SilentTrims, Told, Settled, LeavesBehind;
    var s2 := FirstPulled(e, c, first, a);
    var start, later := Arrive(first, a.payload, a.microseconds), Arrive(Plus(first, 4), b.payload, b.microseconds);
    RunStarts(e, c);
    var t1 := Then(e, c, [], Initial(c), start);
    var t2 := Then(e, c, [] + [start], t1, Render(c.packetFrames));
    TargetStays(c, s2, Plus(first, 4), b.payload, b.microseconds);
    BurstLossDesynchronises(e, c, s2, b);
    var t3 := Then(e, c, [] + [start] + [Render(c.packetFrames)], t2, later);
    SubmitKeepsTurns(c, s2, Plus(first, 4), b.payload, b.microseconds);
    BehindPulled(e, c, t3);
    var t4 := Then(e, c, [] + [start] + [Render(c.packetFrames)] + [later], t3, Render(c.packetFrames));
    DecoderInStepIffNoSilentTrim(e, c, t4);
  }

  /** One packet arrives and is played, four arrive, of which the first does not decode, and a packet is pulled. */
  function Spoilt(c: Settings, first: Sequence, a: Arrival, b: seq<Arrival>): seq<Op>
    requires |b| == 4
  {
    [] + [Arrive(first, a.payload, a.microseconds)] + [Render(c.packetFrames)]
    + [Next(first, b, 1)] + [Next(first, b, 2)] + [Next(first, b, 3)] + [Next(first, b, 4)]
    + [Render(c.packetFrames)]
  }

  function Next(first: Sequence, b: seq<Arrival>, k: nat): Op
    requires 1 <= k <= |b|
  {
    Arrive(Plus(first, k), b[k - 1].payload, b[k - 1].microseconds)
  }

  /** The decoder makes nothing of this payload, whatever it has been through. */
  ghost predicate Spoils(e: Environment, c: Settings, payload: Payload) {
    forall calls :: |e.decode(calls, payload)| != c.packetFrames
  }

  /** `k` packets are waiting after the first one was played, and nothing else has happened since. */
  ghost predicate Waiting(c: Settings, s: State, first: Sequence, b: seq<Arrival>, k: nat)
    requires k <= |b|
  {
    && Stocked(c, s) && Queue(c, s) == Payloads(b[..k]) && s.producer.highest == Plus(first, k)
    && s.depth.minimum == s.depth.maximum == s.depth.target == 1
    && SilentTrims(s) == 0 && s.consumer.currentOffset == c.packetFrames
  }

  lemma WaitsLonger(c: Settings, s: State, first: Sequence, b: seq<Arrival>, k: nat)
    requires k < |b| <= c.slotCount && Waiting(c, s, first, b, k) && Fits(c, b[k])
    ensures c.Valid() && PacketSized(c, s)
    ensures Waiting(c, Submit(c, s, Plus(first, k + 1), b[k].payload, b[k].microseconds), first, b, k + 1)
  {
    hide Stocked, Submit, SilentTrims, Queue, Plus, DepthOf;
    StockedSizes(c, s);
    SettledSizes(c, s);
    PlusPlus(first, k, 1);
    SubmitQueues(c, s, b[k]);
    SubmitNextTracks(c, s, b[k]);
    TargetStays(c, s, Plus(first, k + 1), b[k].payload, b[k].microseconds);
    SubmitKeepsTurns(c, s, Plus(first, k + 1), b[k].payload, b[k].microseconds);
    assert b[..k + 1] == b[..k] + [b[k]];
    assert Payloads(b[..k + 1]) == Payloads(b[..k]) + [b[k].payload];
  }

  lemma FourWaitBehind(e: Environment, c: Settings, s: State, first: Sequence, b: seq<Arrival>)
    requires |b| == 4 && Waiting(c, s, first, b, 4) && Spoils(e, c, b[0].payload)
    ensures Settled(c, s) && LeavesBehind(e, c, s)
  {
    StockedSizes(c, s);
    hide Occupied, SlotOf, Settled, Distance, Plus, SmallRing;
    PlusZero(s.consumer.playout);
    var index := SlotOf(c, s.consumer.playout);
    assert Queue(c, s)[0] == s.slots[index].bytes && Queue(c, s)[0] == b[0].payload;
    SettledWatches(c, s);
  }

  lemma SettledWatches(c: Settings, s: State)
    requires Settled(c, s)
    ensures s.consumer.primed && s.consumer.observedEpoch == s.producer.resyncEpoch
  {
  }

  /** No packet need be missing: a packet that does not decode, met by a trim, leaves the decoder one packet
      behind the cursor too. */
  lemma SpoiltPacketRunsOutOfStep(e: Environment, c: Settings, first: Sequence, a: Arrival, b: seq<Arrival>)
    requires SmallRing(c) && c.slotCount >= 8 && c.minimumDepth == c.maximumDepth == 1
    requires |b| == 4 && Fits(c, a) && (forall x | x in b :: Fits(c, x))
    requires Decodable(e, c, a.payload) && Spoils(e, c, b[0].payload)
    ensures c.Valid()
    ensures var s := Run(e, c, Initial(c), Spoilt(c, first, a, b));
            SilentTrims(s) == 1 && Told(e, c, s.decoderCalls) == |s.ledger.turns| - 1
  {
    hide Pull, Submit, Stocked, SmallRing, DepthOf, Reachable, Run, Plus, SilentTrims, Told, Settled, LeavesBehind, Fits,
         Queue, Spoils, Decodable;
    var s2 := FirstPulled(e, c, first, a);
    var start, pull := Arrive(first, a.payload, a.microseconds), Render(c.packetFrames);
    RunStarts(e, c);
    var t1 := Then(e, c, [], Initial(c), start);
    var ops := [] + [start];
    var t2 := Then(e, c, ops, t1, pull);
    ops := ops + [pull];
    NoneWaiting(c, s2, first, b);
    WaitsLonger(c, t2, first, b, 0);
    var t3 := Then(e, c, ops, t2, Next(first, b, 1));
    ops := ops + [Next(first, b, 1)];
    WaitsLonger(c, t3, first, b, 1);
    var t4 := Then(e, c, ops, t3, Next(first, b, 2));
    ops := ops + [Next(first, b, 2)];
    WaitsLonger(c, t4, first, b, 2);
    var t5 := Then(e, c, ops, t4, Next(first, b, 3));
    ops := ops + [Next(first, b, 3)];
    WaitsLonger(c, t5, first, b, 3);
    var t6 := Then(e, c, ops, t5, Next(first, b, 4));
    ops := ops + [Next(first, b, 4)];
    FourWaitBehind(e, c, t6, first, b);
    BehindPulled(e, c, t6);
    var t7 := Then(e, c, ops, t6, pull);
    DecoderInStepIffNoSilentTrim(e, c, t7);
  }

  lemma NoneWaiting(c: Settings, s: State, first: Sequence, b: seq<Arrival>)
    requires Stocked(c, s) && DepthOf(s) == 0 && s.producer.highest == first && SilentTrims(s) == 0
    requires s.depth.minimum == s.depth.maximum == s.depth.target == 1 && s.consumer.currentOffset == c.packetFrames
    ensures Waiting(c, s, first, b, 0)
  {
    StockedSizes(c, s);
    PlusZero(first);
    hide Stocked, SilentTrims;
  }

  lemma SubmitKeepsTurns(c: Settings, s: State, sequence: Sequence, payload: Payload, arrival: nat)
    requires c.Valid() && PacketSized(c, s)
    ensures SilentTrims(Submit(c, s, sequence, payload, arrival)) == SilentTrims(s)
  {
    SubmitKeepsCalls(c, s, sequence, payload, arrival);
    hide Submit, Count;
  }

  lemma RunStarts(e: Environment, c: Settings)
    requires c.Valid()
    ensures Run(e, c, Initial(c), []) == Initial(c)
  {
  }

  lemma AheadDepth(s: State, t: State, jump: nat)
    requires DepthOf(s) == 0 && 1 <= jump < HALF
    requires t.consumer.playout == s.consumer.playout && t.producer.highest == Plus(s.producer.highest, jump)
    ensures DepthOf(t) == jump
  {
    hide Plus, Distance;
    PlusZero(s.consumer.playout);
    DistanceShift(s.producer.highest, s.consumer.playout, jump, 0);
  }

  /** A forward jump within half the ring only moves the newest number and fills one slot. */
  lemma SubmitAhead(c: Settings, s: State, jump: nat, a: Arrival)
    requires Settled(c, s) && Fits(c, a) && 1 <= jump <= c.slotCount / 2 && c.slotCount < HALF
    ensures var late := Plus(s.producer.highest, jump);
            var r := Submit(c, s, late, a.payload, a.microseconds);
            && Settled(c, r) && r.consumer == s.consumer && r.decoderCalls == s.decoderCalls
            && r.ledger.turns == s.ledger.turns && r.producer.highest == late
            && (forall i | 0 <= i < c.slotCount && i != SlotOf(c, late) :: r.slots[i] == s.slots[i])
  {
    var late := Plus(s.producer.highest, jump);
    DistanceOfPlus(s.producer.highest, jump, 0);
    assert Rebase(c, s.producer, late) == s.producer.(highest := late);
    MeasureKeeps(c, s.producer.(highest := late), late, a.microseconds);
    hide Measure, Retarget, Rebase, Classify, SlotOf, Plus;
  }

  lemma CursorMissing(c: Settings, s: State, jump: nat)
    requires Stocked(c, s) && DepthOf(s) == 0 && 3 <= jump <= c.slotCount / 2
    ensures !Holds(s.slots[SlotOf(c, s.consumer.playout)], s.consumer.playout)
    ensures SlotOf(c, s.consumer.playout) != SlotOf(c, Plus(s.producer.highest, jump))
  {
    PlusZero(s.consumer.playout);
    NewestPlace(c, s);
    PlusPlus(s.producer.highest, 1, jump - 1);
    PlusPlus(s.consumer.playout, 0, jump - 1);
    if SlotOf(c, s.consumer.playout) == SlotOf(c, Plus(s.producer.highest, jump)) {
      SlotsDistinct(c, s.consumer.playout, 0, jump - 1);
    }
  }
}
