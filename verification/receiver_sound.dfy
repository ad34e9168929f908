/** What is heard: how the samples of a pull come from what the decoder answers. */
module ReceiverSound {
  import opened Bounds
  import opened CircularSequence
  import opened Samples
  import opened ReceiverModel
  import opened ReceiverIntegrity
  import opened ReceiverRegulation
  import opened ReceiverPlayout
  import opened ReceiverLossless
  import opened ReceiverRuns

  // ------------------------------------------------------------------ one packet

  /** What the decoder gave for the last of these calls. */
  function Answer(e: Environment, calls: seq<DecoderCall>): seq<Sample>
    requires calls != []
  {
    var before := calls[..|calls| - 1];
    match calls[|calls| - 1]
    case Decode(payload) => e.decode(before, payload)
    case Conceal => e.conceal(before)
  }

  /** The sound before a packet runs on into it. */
  predicate RunsOn(k: Consumer) {
    k.concealBurst == 0 && !k.recoveryPending
  }

  /** From a frame on, two blocks of the same length are the same. */
  predicate AlikeFrom(a: seq<Sample>, b: seq<Sample>, frame: nat) {
    |a| == |b| && forall i | frame <= i < |a| :: a[i] == b[i]
  }

  lemma AnswerToLast(e: Environment, calls: seq<DecoderCall>, payload: Payload)
    ensures Answer(e, calls + [Decode(payload)]) == e.decode(calls, payload)
    ensures Answer(e, calls + [Conceal]) == e.conceal(calls)
  {
    assert (calls + [Conceal])[..|calls|] == calls && (calls + [Decode(payload)])[..|calls|] == calls;
  }

  /** A turn sounds as the decoder's answer to its last call, if that is a whole packet: a concealment exactly,
      and so a decoded packet that the sound before it runs on into; one after a splice from the end of the
      cross-fade on. */
  lemma TurnSounds(e: Environment, c: Settings, s: State)
    requires PacketSized(c, s)
    ensures var r := PlayNext(e, c, s);
            && r.decoderCalls != []
            && var answer, last := Answer(e, r.decoderCalls), r.decoderCalls[|r.decoderCalls| - 1];
            && (|answer| == c.packetFrames ==>
                  && AlikeFrom(r.consumer.currentPacket, answer, FadeFrames(c))
                  && (RunsOn(s.consumer) || last.Conceal? ==> r.consumer.currentPacket == answer))
            && (last.Decode? ==> |answer| == c.packetFrames)
            && (RunsOn(r.consumer) <==> last.Decode?)
  {
    var slot := s.slots[SlotOf(c, s.consumer.playout)];
    AnswerToLast(e, s.decoderCalls, slot.bytes);
    AnswerToLast(e, s.decoderCalls + [Decode(slot.bytes)], slot.bytes);
    hide SlotOf, Extrapolate, Blended, Append, TurnTaken;
  }

  /** Exactly a played packet leaves nothing to recover from. */
  predicate LastPlayed(s: State, r: State) {
    && |r.ledger.turns| > |s.ledger.turns|
    && r.ledger.turns[|r.ledger.turns| - 1].outcome.Played?
  }

  lemma PlayedLast(e: Environment, c: Settings, s: State)
    requires PacketSized(c, s)
    ensures RunsOn(PlayNext(e, c, s).consumer) <==> LastPlayed(s, PlayNext(e, c, s))
  {
    TurnSounds(e, c, s);
    PlayConsumes(e, c, s);
    hide PlayNext, Answer, AlikeFrom, SlotOf, RunsOn;
  }

  lemma RegulateRunsOn(e: Environment, c: Settings, s: State)
    requires PacketSized(c, s)
    ensures RunsOn(Regulate(e, c, s).consumer) <==> LastPlayed(s, Regulate(e, c, s))
  {
    var w := WatchArrivals(s);
    WatchOnlyConsumer(s);
    if TooShallow(w) {
      hide WatchArrivals, Extrapolate, DepthOf;
    } else {
      var t := if TooDeep(w) then Trim(e, c, w) else w;
      TrimConsumes(e, c, w);
      PlayConsumes(e, c, t);
      PlayedLast(e, c, t);
      hide Trim, PlayNext, WatchArrivals, SlotOf, NextOutcome, TrimOutcome, DepthOf, RunsOn;
    }
  }

  /** Whatever a packet of playback does, the next packet runs on from it if and only if it ended by playing a
      packet. So the cross-fade is taken after a priming, a trim, a loss or a stretch and at no other time. */
  lemma RunsOnIffPlayed(e: Environment, c: Settings, s: State)
    requires PacketSized(c, s) && CanBegin(s)
    ensures RunsOn(BeginPacket(e, c, s).consumer) <==> LastPlayed(s, BeginPacket(e, c, s))
  {
    hide Regulate, RunsOn, CanPrime;
    var o := Observe(s);
    if o.consumer.primed {
      RegulateRunsOn(e, c, o);
    } else {
      RegulateRunsOn(e, c, Prime(o));
    }
  }

  /** The packet at the cursor, if it is there. */
  function AtCursor(c: Settings, s: State): seq<Payload>
    requires PacketSized(c, s)
  {
    var slot := s.slots[SlotOf(c, s.consumer.playout)];
    if Holds(slot, s.consumer.playout) then [slot.bytes] else []
  }

  /** In the dead zone, with the current packet used up, a pull of one packet is: the decoding of the packet at
      the cursor, exactly if the sound before runs on into it and else from the end of the cross-fade on; or what
      the decoder puts in the place of a packet that is missing or does not decode, if that is a whole packet. */
  lemma PullSounds(e: Environment, c: Settings, s: State)
    requires Settled(c, s) && s.consumer.currentOffset >= c.packetFrames
    requires DepthOf(s) > 0 && LowDepth(s.depth.target) <= DepthOf(s) <= HighDepth(s.depth.target)
    ensures var p := Pull(e, c, s, c.packetFrames);
            var packet, calls := AtCursor(c, s), s.decoderCalls;
            && |p.samples| == p.live == c.packetFrames
            && (packet != [] ==>
                  var decoded := e.decode(calls, packet[0]);
                  var covered := e.conceal(calls + [Decode(packet[0])]);
                  if |decoded| == c.packetFrames then
                    && AlikeFrom(p.samples, decoded, FadeFrames(c))
                    && (RunsOn(s.consumer) ==> p.samples == decoded)
                    && RunsOn(p.state.consumer) && p.state.decoderCalls == calls + [Decode(packet[0])]
                  else
                    && (|covered| == c.packetFrames ==> p.samples == covered)
                    && !RunsOn(p.state.consumer) && p.state.decoderCalls == calls + [Decode(packet[0]), Conceal])
            && (packet == [] ==>
                  && (|e.conceal(calls)| == c.packetFrames ==> p.samples == e.conceal(calls))
                  && !RunsOn(p.state.consumer) && p.state.decoderCalls == calls + [Conceal])
  {
    hide Pull, PlayNext, BeginPacket, Settled, SlotOf, WatchArrivals, CanBegin, DepthOf, Answer;
    SettledSizes(c, s);
    var w := WatchArrivals(s);
    WatchOnlyConsumer(s);
    DeadZonePlays(e, c, s);
    BeginSettled(e, c, s);
    PullsOnePacket(e, c, s);
    TurnSounds(e, c, w);
    PlayConsumes(e, c, w);
    if packet: Payload :| AtCursor(c, s) == [packet] {
      AnswerToLast(e, s.decoderCalls, packet);
      AnswerToLast(e, s.decoderCalls + [Decode(packet)], packet);
      assert s.decoderCalls + [Decode(packet)] + [Conceal] == s.decoderCalls + [Decode(packet), Conceal];
    } else {
      AnswerToLast(e, s.decoderCalls, []);
    }
  }

  // ------------------------------------------------------------------ a lossless stream

  /** The decodings of packets handed over in this order, one after the other. */
  function Decodings(e: Environment, calls: seq<DecoderCall>, payloads: seq<Payload>): seq<Sample>
    decreases payloads
  {
    if payloads == [] then []
    else e.decode(calls, payloads[0]) + Decodings(e, calls + [Decode(payloads[0])], payloads[1..])
  }

  /** The next packet in order arrives and one packet is pulled, again and again. */
  function Listen(e: Environment, c: Settings, s: State, arrivals: seq<Arrival>): (r: Pulled)
    requires c.Valid() && PacketSized(c, s)
    ensures PacketSized(c, r.state)
    decreases arrivals
  {
    if arrivals == [] then Pulled(s, [], 0)
    else
      var p := Pull(e, c, SubmitNext(c, s, arrivals[0]), c.packetFrames);
      var rest := Listen(e, c, p.state, arrivals[1..]);
      Pulled(rest.state, p.samples + rest.samples, p.live + rest.live)
  }

  /** Two sounds that agree once a cross-fade of so many frames is over, or from the start if there is none. */
  predicate Agree(c: Settings, clean: bool, a: seq<Sample>, b: seq<Sample>) {
    AlikeFrom(a, b, if clean then 0 else FadeFrames(c))
  }

  lemma AgreeOn(c: Settings, clean: bool, a: seq<Sample>, b: seq<Sample>, x: seq<Sample>, y: seq<Sample>)
    requires Agree(c, clean, a, b) && Agree(c, true, x, y)
    ensures Agree(c, clean, a + x, b + y)
  {
  }

  /** From a stocked ring in the dead zone a packet sounds as the decoding of the packet at the front. */
  lemma StockedSounds(e: Environment, c: Settings, s: State)
    requires Stocked(c, s) && s.consumer.currentOffset == c.packetFrames
    requires LowDepth(s.depth.target) <= DepthOf(s) <= HighDepth(s.depth.target)
    requires Decodable(e, c, Queue(c, s)[0])
    ensures PacketSized(c, s)
    ensures var p := Pull(e, c, s, c.packetFrames);
            var decoded := e.decode(s.decoderCalls, Queue(c, s)[0]);
            && p.state == BeginPacket(e, c, s) && p.live == |decoded| == c.packetFrames
            && RunsOn(p.state.consumer) && Agree(c, RunsOn(s.consumer), p.samples, decoded)
  {
    StockedSizes(c, s);
    hide Pull, BeginPacket, Settled, DepthOf, Stocked, RunsOn, Queue, SmallRing, CanBegin;
    QueueFront(e, c, s);
    PullSounds(e, c, s);
    BeginSettled(e, c, s);
    PullsOnePacket(e, c, s);
    PlayDequeues(e, c, s);
  }

  /** One cycle of a stocked ring sounds as the decoding of the packet at the front. */
  lemma CycleSounds(e: Environment, c: Settings, s: State, a: Arrival, target: nat)
    requires Stocked(c, s) && Fits(c, a) && 2 * target < c.slotCount
    requires SubmitNext(c, s, a).depth.target == target
    requires LowDepth(target) <= NextDepth(s) <= HighDepth(target)
    requires Decodable(e, c, (Queue(c, s) + [a.payload])[0])
    requires s.consumer.currentOffset == c.packetFrames
    ensures c.Valid() && PacketSized(c, s)
    ensures var p := Pull(e, c, SubmitNext(c, s, a), c.packetFrames);
            var decoded := e.decode(s.decoderCalls, (Queue(c, s) + [a.payload])[0]);
            && p.state == Cycle(e, c, s, a) && p.live == |decoded| == c.packetFrames
            && RunsOn(p.state.consumer)
            && Agree(c, RunsOn(s.consumer), p.samples, decoded)
  {
    StockedSizes(c, s);
    SettledSizes(c, s);
    hide Pull, SubmitNext, BeginPacket, Settled, DepthOf, Stocked, RunsOn, Queue, Agree, Decodable;
    SubmitNextTracks(c, s, a);
    ArrivalDeepens(c, s, a);
    SubmitQueues(c, s, a);
    StockedSounds(e, c, SubmitNext(c, s, a));
  }

  lemma TargetGoesOn(e: Environment, c: Settings, s: State, arrivals: seq<Arrival>, target: nat)
    requires c.Valid() && PacketSized(c, s) && arrivals != [] && TargetHolds(e, c, s, arrivals, target)
    ensures Fits(c, arrivals[0]) && SubmitNext(c, s, arrivals[0]).depth.target == target
    ensures TargetHolds(e, c, Cycle(e, c, s, arrivals[0]), arrivals[1..], target)
  {
    OneCycle(e, c, s, arrivals);
    hide Cycle, SubmitNext;
  }

  lemma ListenOne(e: Environment, c: Settings, s: State, arrivals: seq<Arrival>)
    requires c.Valid() && PacketSized(c, s) && arrivals != []
    ensures var p := Pull(e, c, SubmitNext(c, s, arrivals[0]), c.packetFrames);
            var rest := Listen(e, c, p.state, arrivals[1..]);
            Listen(e, c, s, arrivals) == Pulled(rest.state, p.samples + rest.samples, p.live + rest.live)
  {
    hide Pull, SubmitNext;
  }

  lemma NothingHeard(e: Environment, c: Settings, s: State, calls: seq<DecoderCall>, queue: seq<Payload>, clean: bool)
    requires c.Valid() && PacketSized(c, s)
    ensures SoundsAs(c, clean, Listen(e, c, s, []), Cycles(e, c, s, []), Due(e, calls, queue, []), 0)
  {
    assert (queue + Payloads([]))[..0] == [];
  }

  lemma QueueFront(e: Environment, c: Settings, s: State)
    requires Stocked(c, s) && DepthOf(s) > 0
    ensures PacketSized(c, s) && Settled(c, s)
    ensures AtCursor(c, s) == [Queue(c, s)[0]]
  {
    PlusZero(s.consumer.playout);
    hide Occupied, SlotOf, Settled, Plus, Distance, SmallRing;
    StockedSizes(c, s);
    assert Holds(s.slots[SlotOf(c, Plus(s.consumer.playout, 0))], Plus(s.consumer.playout, 0));
  }

  /** A pull of so many packets that ends in a state and sounds as it is due. */
  ghost predicate SoundsAs(c: Settings, clean: bool, p: Pulled, r: State, due: seq<Sample>, packets: nat) {
    p.state == r && p.live == |due| == packets * c.packetFrames && Agree(c, clean, p.samples, due)
  }

  lemma OneMoreSounds(c: Settings, clean: bool, p: Pulled, decoded: seq<Sample>, h: Pulled, r: State, due: seq<Sample>,
                      packets: nat)
    requires Agree(c, clean, p.samples, decoded) && p.live == |decoded| == c.packetFrames
    requires SoundsAs(c, true, h, r, due, packets)
    ensures SoundsAs(c, clean, Pulled(h.state, p.samples + h.samples, p.live + h.live), r, decoded + due, packets + 1)
  {
    AgreeOn(c, clean, p.samples, decoded, h.samples, due);
    hide Agree;
    assert (packets + 1) * c.packetFrames == packets * c.packetFrames + c.packetFrames;
  }

  /** The decodings of what is due over so many cycles: what is queued, followed by what arrives. */
  function Due(e: Environment, calls: seq<DecoderCall>, queue: seq<Payload>, arrivals: seq<Arrival>): seq<Sample> {
    Decodings(e, calls, (queue + Payloads(arrivals))[..|arrivals|])
  }

  lemma DueOne(e: Environment, calls: seq<DecoderCall>, queue: seq<Payload>, arrivals: seq<Arrival>)
    requires arrivals != []
    ensures var joined := queue + [arrivals[0].payload];
            Due(e, calls, queue, arrivals)
            == e.decode(calls, joined[0]) + Due(e, calls + [Decode(joined[0])], joined[1..], arrivals[1..])
  {
    FrontOf(queue, arrivals);
    var played := (queue + Payloads(arrivals))[..|arrivals|];
    assert played[0] == (queue + [arrivals[0].payload])[0];
  }

  /** So a settled stream sounds as its packets, decoded in order and put end to end: what is pulled, one packet
      for each arrival, is the decodings of what was queued followed by what arrived. Only if the sound before
      does not run on into it is the first cross-fade an exception. */
  lemma {:induction false} SettledSoundsDecoded(e: Environment, c: Settings, s: State, arrivals: seq<Arrival>, target: nat)
    requires Stocked(c, s) && TargetHolds(e, c, s, arrivals, target) && 2 * target < c.slotCount
    requires LowDepth(target) <= NextDepth(s) <= HighDepth(target)
    requires forall p | p in Queue(c, s) + Payloads(arrivals) :: Decodable(e, c, p)
    requires s.consumer.currentOffset == c.packetFrames
    ensures SoundsAs(c, RunsOn(s.consumer), Listen(e, c, s, arrivals), Cycles(e, c, s, arrivals),
                     Due(e, s.decoderCalls, Queue(c, s), arrivals), |arrivals|)
    decreases arrivals
  {
    hide SubmitNext, Decodable, Stocked, Cycle, Queue, DepthOf, Pull, RunsOn, Agree, Settled, SoundsAs, Due, Listen, Cycles;
    StockedSizes(c, s);
    SettledSizes(c, s);
    if arrivals == [] {
      NothingHeard(e, c, s, s.decoderCalls, Queue(c, s), RunsOn(s.consumer));
    } else {
      var a, next := arrivals[0], Cycle(e, c, s, arrivals[0]);
      FrontOf(Queue(c, s), arrivals);
      TargetGoesOn(e, c, s, arrivals, target);
      CycleSounds(e, c, s, a, target);
      CycleIsQueue(e, c, s, a, target);
      StockedSizes(c, next);
      OneCycle(e, c, s, arrivals);
      ListenOne(e, c, s, arrivals);
      DueOne(e, s.decoderCalls, Queue(c, s), arrivals);
      hide Payloads, TargetHolds;
      SettledSoundsDecoded(e, c, next, arrivals[1..], target);
      OneMoreSounds(c, RunsOn(s.consumer), Pull(e, c, SubmitNext(c, s, a), c.packetFrames),
                    e.decode(s.decoderCalls, (Queue(c, s) + [a.payload])[0]), Listen(e, c, next, arrivals[1..]),
                    Cycles(e, c, s, arrivals), Due(e, next.decoderCalls, Queue(c, next), arrivals[1..]), |arrivals| - 1);
    }
  }

  /** The first packet of a stream: what is pulled is its decoding once the cross-fade is over. */
  lemma FirstSounds(e: Environment, c: Settings, s: State, first: Sequence, head: seq<Arrival>)
    requires Filling(c, s, first, |head|) && Unplayed(s) && 1 <= s.depth.target <= |head|
    requires PayloadsFrom(c, s.slots, first, |head|) == Payloads(head)
    requires forall p | p in Payloads(head) :: Decodable(e, c, p)
    requires s.consumer.currentOffset == c.packetFrames
    ensures PacketSized(c, s)
    ensures var p := Pull(e, c, s, c.packetFrames);
            var decoded := e.decode([], Payloads(head)[|head| - s.depth.target]);
            && p.state == BeginPacket(e, c, s) && p.live == |decoded| == c.packetFrames
            && RunsOn(p.state.consumer) && Agree(c, false, p.samples, decoded)
  {
    BeginPrimes(e, c, s, first, |head|);
    FillingPrimes(c, s, first, |head|);
    InDeadZone(s.depth.target);
    var p := Prime(s);
    StockedSizes(c, p);
    hide Filling, Stocked, Queue, Decodable, DepthOf, PayloadsFrom, BeginPacket, Plus, Pull, CanBegin, Settled, Agree, Payloads;
    StockedSounds(e, c, p);
    BeginSettled(e, c, p);
    PullsOnePacket(e, c, p);
    PullsOnePacket(e, c, s);
    FirstPacket(e, c, s, first, head);
  }

  /** And from the first packet on: a new receiver that was given its target of packets in sequence, and then one
      for each packet pulled, sounds as the decodings of the packets from the newest target on, put end to end,
      once the first cross-fade is over. */
  lemma FreshStreamSoundsDecoded(e: Environment, c: Settings, first: Sequence, head: seq<Arrival>, rest: seq<Arrival>,
                                 target: nat)
    requires SmallRing(c) && 1 <= target <= |head| <= c.slotCount && 2 * target < c.slotCount
    requires (forall a | a in head :: Fits(c, a)) && Opening(c, first, head).depth.target == target
    requires TargetHolds(e, c, BeginPacket(e, c, Opening(c, first, head)), rest, target)
    requires forall p | p in Payloads(head) + Payloads(rest) :: Decodable(e, c, p)
    ensures var p := Pull(e, c, Opening(c, first, head), c.packetFrames);
            var h := Listen(e, c, p.state, rest);
            var skipped := |head| - target;
            var due := Decodings(e, [], (Payloads(head) + Payloads(rest))[skipped..skipped + 1 + |rest|]);
            && p.live + h.live == |due| == (1 + |rest|) * c.packetFrames
            && AlikeFrom(p.samples + h.samples, due, FadeFrames(c))
  {
    hide Opening, BeginPacket, Filling, Stocked, Queue, Decodable, DepthOf, SmallRing, PayloadsFrom, Plus, Pull, Listen,
         TargetHolds, Cycles, Settled, LowDepth, HighDepth, RunsOn, FadeFrames, Decodings;
    SmallRingHasSlots(c);
    OpeningFills(c, first, head);
    var s, skipped, all := Opening(c, first, head), |head| - target, Payloads(head) + Payloads(rest);
    FirstPacket(e, c, s, first, head);
    FirstSounds(e, c, s, first, head);
    var b, p := BeginPacket(e, c, s), Pull(e, c, s, c.packetFrames);
    QueueStays(Payloads(head), Payloads(rest), skipped, Queue(c, b));
    InDeadZone(target);
    SettledSoundsDecoded(e, c, b, rest, target);
    var decoded, due := e.decode([], all[skipped]), Due(e, b.decoderCalls, Queue(c, b), rest);
    OneMoreSounds(c, false, p, decoded, Listen(e, c, b, rest), Cycles(e, c, b, rest), due, |rest|);
    DueJoins(e, all, skipped, |rest|);
    assert Queue(c, b) + Payloads(rest) == all[skipped + 1..];
  }

  lemma DueJoins(e: Environment, all: seq<Payload>, skipped: nat, count: nat)
    requires skipped + 1 + count <= |all|
    ensures Decodings(e, [], all[skipped..skipped + 1 + count])
            == e.decode([], all[skipped]) + Decodings(e, [Decode(all[skipped])], all[skipped + 1..][..count])
  {
    var played := all[skipped..skipped + 1 + count];
    assert played[0] == all[skipped] && played[1..] == all[skipped + 1..][..count];
    assert [] + [Decode(all[skipped])] == [Decode(all[skipped])];
  }
}
