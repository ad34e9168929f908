/** A settled jitter buffer is a queue: while packets arrive in order and the depth is inside the
    dead zone, every packet is played, in order, and nothing is concealed. */
module ReceiverLossless {
  import opened CircularSequence
  import opened ModularArithmetic
  import opened ReceiverModel
  import opened ReceiverIntegrity
  import opened ReceiverRegulation

  // ------------------------------------------------ neighbours use different slots

  lemma {:induction false} PowersDivide(n: nat, m: nat)
    requires IsPowerOfTwo(n) && IsPowerOfTwo(m) && 1 <= n <= m
    ensures m % n == 0
    decreases m
  {
    if n > 1 {
      PowersDivide(n / 2, m / 2);
      var q := (m / 2) / (n / 2);
      assert m / 2 == q * (n / 2);
      assert m == q * n;
      MultipleIsZero(q, n);
    }
  }

  lemma SixteenTimes(n: nat)
    requires n >= 1 && IsPowerOfTwo(n)
    ensures IsPowerOfTwo(16 * n)
  {
    hide IsPowerOfTwo;
    Doubles(n);
    Doubles(2 * n);
    Doubles(4 * n);
    Doubles(8 * n);
  }

  lemma Doubles(n: nat)
    requires n >= 1 && IsPowerOfTwo(n)
    ensures IsPowerOfTwo(2 * n)
  {
  }

  lemma RingDividesModulus(n: nat)
    requires IsPowerOfTwo(n) && 1 <= n < HALF
    ensures MODULUS % n == 0
  {
    ModulusIsPower();
    PowersDivide(n, 0x1_0000_0000);
  }

  lemma ModulusIsPower()
    ensures IsPowerOfTwo(0x1_0000_0000)
  {
    SixteenTimes(1);
    SixteenTimes(0x10);
    SixteenTimes(0x100);
    SixteenTimes(0x1000);
    SixteenTimes(0x1_0000);
    SixteenTimes(0x10_0000);
    SixteenTimes(0x100_0000);
    SixteenTimes(0x1000_0000);
  }

  predicate SmallRing(c: Settings) {
    c.Valid() && c.slotCount < HALF
  }

  /** Sequence numbers less than one ring apart never share a slot, even across the wrap at 2^32. */
  lemma SlotsDistinct(c: Settings, p: Sequence, j: int, k: int)
    requires SmallRing(c) && SlotOf(c, Plus(p, j)) == SlotOf(c, Plus(p, k))
    requires j - k < c.slotCount && k - j < c.slotCount
    ensures j == k
  {
    RingDividesModulus(c.slotCount);
    hide Distance, SmallRing, IsPowerOfTwo;
    ResidueOfResidue(p + j, MODULUS, c.slotCount);
    ResidueOfResidue(p + k, MODULUS, c.slotCount);
    SameResidue(p + j, p + k, c.slotCount);
  }

  // ----------------------------------------------------------------- the queue

  /** Occupant `i` lies between `low` and `high` positions from a base number. */
  ghost predicate Occupied(c: Settings, slots: seq<Slot>, base: Sequence, low: int, high: int)
    requires c.slotCount > 0
  {
    forall i | 0 <= i < |slots| && slots[i].stamp != 0 ::
      && slots[i].stamp == Occupant(slots[i]).sequence + 1
      && SlotOf(c, Occupant(slots[i]).sequence) == i
      && low <= Distance(Occupant(slots[i]).sequence, base) < high
  }

  ghost predicate Filled(c: Settings, slots: seq<Slot>, base: Sequence, count: nat)
    requires c.slotCount == |slots| > 0
  {
    forall k | 0 <= k < count :: Holds(slots[SlotOf(c, Plus(base, k))], Plus(base, k))
  }

  function PayloadsFrom(c: Settings, slots: seq<Slot>, base: Sequence, count: nat): seq<Payload>
    requires c.slotCount == |slots| > 0
  {
    seq(count, (k: nat) => slots[SlotOf(c, Plus(base, k))].bytes)
  }

  /** Every packet from the cursor to the newest is in its slot, and no stamp is from elsewhere. */
  ghost predicate Stocked(c: Settings, s: State) {
    && Settled(c, s) && SmallRing(c)
    && 0 <= DepthOf(s) <= c.slotCount
    && Filled(c, s.slots, s.consumer.playout, DepthOf(s))
    && Occupied(c, s.slots, s.consumer.playout, DepthOf(s) - c.slotCount, DepthOf(s))
  }

  function Queue(c: Settings, s: State): seq<Payload>
    requires PacketSized(c, s) && DepthOf(s) >= 0
  {
    PayloadsFrom(c, s.slots, s.consumer.playout, DepthOf(s))
  }

  function Stored(c: Settings, slots: seq<Slot>, sequence: Sequence, payload: Payload): seq<Slot>
    requires c.slotCount == |slots| > 0
  {
    slots[SlotOf(c, sequence) := Slot(sequence + 1, payload)]
  }

  lemma AppendFills(c: Settings, slots: seq<Slot>, base: Sequence, count: nat, payload: Payload)
    requires SmallRing(c) && c.slotCount == |slots| && count < c.slotCount
    requires Filled(c, slots, base, count)
    ensures var r := Stored(c, slots, Plus(base, count), payload);
            && Filled(c, r, base, count + 1)
            && PayloadsFrom(c, r, base, count + 1) == PayloadsFrom(c, slots, base, count) + [payload]
  {
    var index := SlotOf(c, Plus(base, count));
    forall k | 0 <= k < count ensures SlotOf(c, Plus(base, k)) != index {
      if SlotOf(c, Plus(base, k)) == index {
        SlotsDistinct(c, base, k, count);
      }
    }
    hide SlotOf, SmallRing, Plus;
  }

  lemma AppendOccupies(c: Settings, slots: seq<Slot>, base: Sequence, count: nat, payload: Payload)
    requires SmallRing(c) && c.slotCount == |slots| && count < c.slotCount
    requires Occupied(c, slots, base, count - c.slotCount, count)
    ensures var slot := slots[SlotOf(c, Plus(base, count))];
            slot.stamp != 0 ==> Before(Occupant(slot).sequence, base) && Occupant(slot).sequence != Plus(base, count)
    ensures Occupied(c, Stored(c, slots, Plus(base, count), payload), base, count + 1 - c.slotCount, count + 1)
  {
    AheadBy(base, count);
    hide SlotOf, Distance, Plus, SmallRing;
    forall i | 0 <= i < |slots| && slots[i].stamp != 0
      ensures i == SlotOf(c, Plus(base, count))
              <==> Distance(Occupant(slots[i]).sequence, base) == count - c.slotCount
    {
      OccupantPlace(c, slots, base, count, i);
    }
  }

  lemma AheadBy(base: Sequence, count: nat)
    requires count < HALF
    ensures Distance(Plus(base, count), base) == count
  {
    DistanceOfPlus(base, count, 0);
  }

  /** The only occupant in the next packet's slot is the one a whole ring older. */
  lemma OccupantPlace(c: Settings, slots: seq<Slot>, base: Sequence, count: nat, i: nat)
    requires SmallRing(c) && c.slotCount == |slots| && count < c.slotCount && i < |slots| && slots[i].stamp != 0
    requires Occupied(c, slots, base, count - c.slotCount, count)
    ensures i == SlotOf(c, Plus(base, count)) <==> Distance(Occupant(slots[i]).sequence, base) == count - c.slotCount
  {
    var x := Occupant(slots[i]).sequence;
    DistanceSpansModulus(x, base);
    var d := Distance(x, base);
    assert SlotOf(c, Plus(base, d)) == i;
    if d > count - c.slotCount {
      if i == SlotOf(c, Plus(base, count)) {
        SlotsDistinct(c, base, d, count);
      }
    } else {
      RingPeriod(c, base, d);
    }
  }

  lemma RingPeriod(c: Settings, p: Sequence, d: int)
    requires SmallRing(c)
    ensures SlotOf(c, Plus(p, d)) == SlotOf(c, Plus(p, d + c.slotCount))
  {
    var n := c.slotCount;
    RingDividesModulus(n);
    hide Distance, SmallRing, IsPowerOfTwo;
    ResidueOfResidue(p + d, MODULUS, n);
    ResidueOfResidue(p + d + n, MODULUS, n);
    var q, r := (p + d) / n, (p + d) % n;
    assert p + d + n == (q + 1) * n + r;
    ResidueUnique(p + d + n, q + 1, r, n);
  }

  function Emptied(c: Settings, slots: seq<Slot>, sequence: Sequence): seq<Slot>
    requires c.slotCount == |slots| > 0
  {
    slots[SlotOf(c, sequence) := slots[SlotOf(c, sequence)].(stamp := 0)]
  }

  lemma PopFills(c: Settings, slots: seq<Slot>, base: Sequence, count: nat)
    requires SmallRing(c) && c.slotCount == |slots| && 0 < count <= c.slotCount
    requires Filled(c, slots, base, count)
    ensures var r := Emptied(c, slots, base);
            && Holds(slots[SlotOf(c, base)], base)
            && Filled(c, r, Plus(base, 1), count - 1)
            && PayloadsFrom(c, slots, base, count)
               == [slots[SlotOf(c, base)].bytes] + PayloadsFrom(c, r, Plus(base, 1), count - 1)
  {
    PlusZero(base);
    forall k | 0 <= k < count - 1
      ensures Plus(Plus(base, 1), k) == Plus(base, k + 1) && SlotOf(c, Plus(base, k + 1)) != SlotOf(c, base)
    {
      PlusPlus(base, 1, k);
      if SlotOf(c, Plus(base, k + 1)) == SlotOf(c, base) {
        SlotsDistinct(c, base, k + 1, 0);
      }
    }
    hide SlotOf, Plus, SmallRing;
  }

  lemma PopOccupies(c: Settings, slots: seq<Slot>, base: Sequence, count: nat)
    requires SmallRing(c) && c.slotCount == |slots| && 0 < count <= c.slotCount
    requires Holds(slots[SlotOf(c, base)], base) && Occupied(c, slots, base, count - c.slotCount, count)
    ensures Occupied(c, Emptied(c, slots, base), Plus(base, 1), count - 1 - c.slotCount, count - 1)
  {
    var r := Emptied(c, slots, base);
    forall i | 0 <= i < |slots| && r[i].stamp != 0
      ensures Distance(Occupant(r[i]).sequence, Plus(base, 1)) == Distance(Occupant(slots[i]).sequence, base) - 1
    {
      DistanceShift(Occupant(slots[i]).sequence, base, 0, 1);
      PlusZero(Occupant(slots[i]).sequence);
    }
    hide SlotOf, Distance, Plus, SmallRing;
  }

  // ------------------------------------------------------------------ one cycle

  /** The cursor and the newest packet are `DepthOf - 1` apart. */
  lemma NewestPlace(c: Settings, s: State)
    ensures Plus(s.producer.highest, 1) == Plus(s.consumer.playout, DepthOf(s))
  {
    DistanceSpansModulus(s.producer.highest, s.consumer.playout);
    PlusPlus(s.consumer.playout, DepthOf(s) - 1, 1);
  }

  lemma FileNextStores(c: Settings, s: State, payload: Payload)
    requires Stocked(c, s) && DepthOf(s) < c.slotCount
    requires var slot := s.slots[SlotOf(c, Plus(s.consumer.playout, DepthOf(s)))];
             slot.stamp != 0 ==> Before(Occupant(slot).sequence, s.consumer.playout)
                                 && Occupant(slot).sequence != Plus(s.consumer.playout, DepthOf(s))
    ensures FilePacket(c, s, Plus(s.consumer.playout, DepthOf(s)), payload).slots
            == Stored(c, s.slots, Plus(s.consumer.playout, DepthOf(s)), payload)
  {
    AheadBy(s.consumer.playout, DepthOf(s));
    hide Filled, Occupied, SlotOf, Distance;
  }

  /** The next packet in order joins the back of the queue. */
  lemma SubmitQueues(c: Settings, s: State, a: Arrival)
    requires Stocked(c, s) && Fits(c, a) && DepthOf(s) < c.slotCount
    ensures var t := SubmitNext(c, s, a);
            Stocked(c, t) && Queue(c, t) == Queue(c, s) + [a.payload]
  {
    var t := SubmitNext(c, s, a);
    var next := Plus(s.producer.highest, 1);
    NewestPlace(c, s);
    AppendFills(c, s.slots, s.consumer.playout, DepthOf(s), a.payload);
    AppendOccupies(c, s.slots, s.consumer.playout, DepthOf(s), a.payload);
    FileNextStores(c, s, a.payload);
    SubmitNextTracks(c, s, a);
    ArrivalDeepens(c, s, a);
    hide SubmitNext, FilePacket, Filled, Occupied, SlotOf, PayloadsFrom, DepthOf, Settled;
    assert DepthOf(t) == DepthOf(s) + 1;
  }

  /** The decoder turns this payload into one whole packet whatever it has been through. */
  ghost predicate Decodable(e: Environment, c: Settings, payload: Payload) {
    forall calls :: |e.decode(calls, payload)| == c.packetFrames
  }

  /** Playing from the dead zone takes the packet at the front of the queue, and only that. */
  lemma PlayDequeues(e: Environment, c: Settings, s: State)
    requires Stocked(c, s)
    requires LowDepth(s.depth.target) <= DepthOf(s) <= HighDepth(s.depth.target)
    requires Decodable(e, c, Queue(c, s)[0])
    ensures var r := BeginPacket(e, c, s);
            var front := Queue(c, s)[0];
            && Stocked(c, r) && r.depth == s.depth
            && Queue(c, r) == Queue(c, s)[1..]
            && r.ledger.turns == s.ledger.turns + [Turn(s.ledger.segment, s.consumer.playout, Played(front))]
            && r.ledger.segment == s.ledger.segment
            && r.consumer.playout == Plus(s.consumer.playout, 1)
            && r.consumer.currentOffset == s.consumer.currentOffset
            && r.decoderCalls == s.decoderCalls + [Decode(front)]
            && r.counters == s.counters
  {
    var w := WatchArrivals(s);
    var r := PlayNext(e, c, w);
    PlayDecodes(e, c, s);
    PopFills(c, s.slots, s.consumer.playout, DepthOf(s));
    PopOccupies(c, s.slots, s.consumer.playout, DepthOf(s));
    RegulateMoves(e, c, s);
    MovedDepth(c, s, Regulate(e, c, s), Motion(1, 0, 0));
    hide PlayNext, WatchArrivals, Filled, Occupied, SlotOf, Settled, Regulate, BeginPacket, DepthOf, PayloadsFrom;
  }

  lemma PlayDecodes(e: Environment, c: Settings, s: State)
    requires Stocked(c, s)
    requires LowDepth(s.depth.target) <= DepthOf(s) <= HighDepth(s.depth.target)
    requires Decodable(e, c, Queue(c, s)[0])
    ensures var w := WatchArrivals(s);
            && BeginPacket(e, c, s) == PlayNext(e, c, w) == Regulate(e, c, s)
            && PacketSized(c, w)
            && Consumes(c, w, PlayNext(e, c, w), Played(Queue(c, s)[0]))
            && w == s.(consumer := w.consumer) && w.consumer.playout == s.consumer.playout
            && w.consumer.currentOffset == s.consumer.currentOffset
  {
    hide PlayNext, Consumes, WatchArrivals, Filled, Occupied, SlotOf, SmallRing, Settled, Distance, NextOutcome, Queue;
    var w := WatchArrivals(s);
    FrontIsNext(e, c, s);
    WatchKeepsSize(c, s);
    DeadZonePlays(e, c, s);
    PlayConsumes(e, c, w);
  }

  lemma WatchKeepsSize(c: Settings, s: State)
    requires Settled(c, s)
    ensures var w := WatchArrivals(s);
            && PacketSized(c, w) && w == s.(consumer := w.consumer) && w.consumer.playout == s.consumer.playout
            && w.consumer.currentOffset == s.consumer.currentOffset
  {
  }

  /** Within the dead zone a packet is played without stretching or trimming. */
  lemma DeadZonePlays(e: Environment, c: Settings, s: State)
    requires Settled(c, s)
    requires DepthOf(s) > 0 && LowDepth(s.depth.target) <= DepthOf(s) <= HighDepth(s.depth.target)
    ensures BeginPacket(e, c, s) == PlayNext(e, c, WatchArrivals(s)) == Regulate(e, c, s)
  {
    WatchOnly(c, s);
    BeginSettled(e, c, s);
    hide BeginPacket, PlayNext, WatchArrivals, Settled, Distance, IsPowerOfTwo;
  }

  /** The packet at the front of the queue is the one due. */
  lemma FrontIsNext(e: Environment, c: Settings, s: State)
    requires Stocked(c, s) && DepthOf(s) > 0 && Decodable(e, c, Queue(c, s)[0])
    ensures PacketSized(c, WatchArrivals(s)) && NextOutcome(e, c, WatchArrivals(s)) == Played(Queue(c, s)[0])
  {
    hide WatchArrivals, Occupied, SlotOf, Settled, Distance, Plus, SmallRing;
    SettledSizes(c, s);
    WatchKeepsSize(c, s);
    PlusZero(s.consumer.playout);
    var index := SlotOf(c, s.consumer.playout);
    assert Holds(s.slots[index], s.consumer.playout) && Queue(c, s)[0] == s.slots[index].bytes;
    hide Filled, Queue;
  }

  lemma CycleIsQueue(e: Environment, c: Settings, s: State, a: Arrival, target: nat)
    requires Stocked(c, s) && Fits(c, a) && 2 * target < c.slotCount
    requires SubmitNext(c, s, a).depth.target == target
    requires LowDepth(target) <= NextDepth(s) <= HighDepth(target)
    requires Decodable(e, c, (Queue(c, s) + [a.payload])[0])
    ensures var r := Cycle(e, c, s, a);
            var all := Queue(c, s) + [a.payload];
            && Stocked(c, r) && NextDepth(r) == NextDepth(s) && Queue(c, r) == all[1..]
            && r.ledger.turns == s.ledger.turns + [Turn(s.ledger.segment, s.consumer.playout, Played(all[0]))]
            && r.ledger.segment == s.ledger.segment
            && r.consumer.playout == Plus(s.consumer.playout, 1)
            && r.consumer.currentOffset == s.consumer.currentOffset
            && r.decoderCalls == s.decoderCalls + [Decode(all[0])]
            && r.counters.concealed == s.counters.concealed
            && r.counters.stretches == s.counters.stretches && r.counters.trims == s.counters.trims
  {
    var t := SubmitNext(c, s, a);
    SubmitQueues(c, s, a);
    SubmitNextTracks(c, s, a);
    ArrivalDeepens(c, s, a);
    hide SubmitNext, BeginPacket, Decodable, Stocked, DepthOf, Settled;
    StockedSizes(c, s);
    PlayDequeues(e, c, t);
    CycleMoves(e, c, s, a);
  }

  lemma StockedSizes(c: Settings, s: State)
    requires Stocked(c, s)
    ensures Settled(c, s) && PacketSized(c, s) && 0 <= DepthOf(s) == |Queue(c, s)| <= c.slotCount < HALF
  {
    hide Filled, Occupied;
  }

  function Payloads(arrivals: seq<Arrival>): (r: seq<Payload>)
    ensures |r| == |arrivals|
  {
    seq(|arrivals|, (i: nat) requires i < |arrivals| => arrivals[i].payload)
  }

  /** Turn after turn plays the next packet in sequence. */
  function PlayedTurns(segment: nat, playout: Sequence, payloads: seq<Payload>): (r: seq<Turn>)
    ensures |r| == |payloads|
  {
    seq(|payloads|, (i: nat) requires i < |payloads| => Turn(segment, Plus(playout, i), Played(payloads[i])))
  }

  /** One arrival in, one packet out: what is queued and still to come loses its front. */
  lemma FrontOf(queue: seq<Payload>, arrivals: seq<Arrival>)
    requires arrivals != []
    ensures var joined, all := queue + [arrivals[0].payload], queue + Payloads(arrivals);
            && joined[0] == all[0] && joined[1..] + Payloads(arrivals[1..]) == all[1..]
            && all[1..][|arrivals| - 1..] == all[|arrivals|..]
            && all[..|arrivals|][1..] == all[1..][..|arrivals| - 1]
  {
    assert Payloads(arrivals) == [arrivals[0].payload] + Payloads(arrivals[1..]);
    assert queue + Payloads(arrivals) == queue + [arrivals[0].payload] + Payloads(arrivals[1..]);
  }

  /** Settled playback is a lossless queue. With the depth in the dead zone, a constant target and
      in-order arrivals, `k` cycles play exactly the first `k` packets of what was queued followed
      by what arrived, in sequence order; the rest stay queued, and nothing is concealed,
      stretched or trimmed. */
  lemma {:induction false} SettledIsLossless(e: Environment, c: Settings, s: State, arrivals: seq<Arrival>, target: nat)
    requires Stocked(c, s) && TargetHolds(e, c, s, arrivals, target) && 2 * target < c.slotCount
    requires LowDepth(target) <= NextDepth(s) <= HighDepth(target)
    requires forall p | p in Queue(c, s) + Payloads(arrivals) :: Decodable(e, c, p)
    ensures var r := Cycles(e, c, s, arrivals);
            var all := Queue(c, s) + Payloads(arrivals);
            var k := |arrivals|;
            && Stocked(c, r) && Queue(c, r) == all[k..]
            && r.ledger.turns == s.ledger.turns
                                 + PlayedTurns(s.ledger.segment, s.consumer.playout, all[..k])
            && r.consumer.playout == Plus(s.consumer.playout, k)
            && r.counters.concealed == s.counters.concealed
            && r.counters.stretches == s.counters.stretches && r.counters.trims == s.counters.trims
    decreases arrivals
  {
    hide SubmitNext, Decodable, Stocked, Cycle, Queue, DepthOf;
    StockedSizes(c, s);
    if arrivals == [] {
      assert Queue(c, s) + Payloads(arrivals) == Queue(c, s);
      assert s.ledger.turns + PlayedTurns(s.ledger.segment, s.consumer.playout, []) == s.ledger.turns;
    } else {
      hide Plus, PlayedTurns;
      var a, all := arrivals[0], Queue(c, s) + Payloads(arrivals);
      FrontOf(Queue(c, s), arrivals);
      CycleIsQueue(e, c, s, a, target);
      OneCycle(e, c, s, arrivals);
      var next := Cycle(e, c, s, a);
      assert Queue(c, next) + Payloads(arrivals[1..]) == all[1..];
      SettledIsLossless(e, c, next, arrivals[1..], target);
      TurnsShift(s.ledger.segment, s.consumer.playout, all[..|arrivals|]);
      PlusPlus(s.consumer.playout, 1, |arrivals| - 1);
    }
  }

  lemma TurnsShift(segment: nat, playout: Sequence, payloads: seq<Payload>)
    requires payloads != []
    ensures PlayedTurns(segment, playout, payloads)
            == [Turn(segment, playout, Played(payloads[0]))]
               + PlayedTurns(segment, Plus(playout, 1), payloads[1..])
  {
    forall i | 0 <= i < |payloads| - 1 ensures Plus(Plus(playout, 1), i) == Plus(playout, i + 1) {
      PlusPlus(playout, 1, i);
    }
  }

  // ---------------------------------------------------------------- fresh start

  /** Not yet playing: everything from `first` to the newest packet is in its slot, and nothing else is. */
  ghost predicate Filling(c: Settings, s: State, first: Sequence, count: nat) {
    && c.Valid() && SmallRing(c) && PacketSized(c, s)
    && !s.consumer.primed && s.producer.hasFirst && s.consumer.observedEpoch == s.producer.resyncEpoch
    && s.producer.first == first && Plus(s.producer.highest, 1) == Plus(first, count)
    && 1 <= count <= c.slotCount
    && Filled(c, s.slots, first, count) && Occupied(c, s.slots, first, 0, count)
  }

  lemma FirstArrivalFills(c: Settings, d: Depth, first: Sequence, a: Arrival)
    requires SmallRing(c) && Fits(c, a)
    ensures var s := Submit(c, Initial(c).(depth := d), first, a.payload, a.microseconds);
            Filling(c, s, first, 1) && PayloadsFrom(c, s.slots, first, 1) == [a.payload]
  {
    var s := Submit(c, Initial(c).(depth := d), first, a.payload, a.microseconds);
    hide Retarget;
    assert Plus(first, 0) == first;
    assert s.slots == Stored(c, Initial(c).slots, first, a.payload);
    assert Distance(first, first) == 0;
  }

  lemma NextArrivalFills(c: Settings, s: State, first: Sequence, count: nat, a: Arrival)
    requires Filling(c, s, first, count) && count < c.slotCount && Fits(c, a)
    ensures var r := SubmitNext(c, s, a);
            Filling(c, r, first, count + 1)
            && PayloadsFrom(c, r.slots, first, count + 1) == PayloadsFrom(c, s.slots, first, count) + [a.payload]
  {
    assert Occupied(c, s.slots, first, count - c.slotCount, count);
    AppendFills(c, s.slots, first, count, a.payload);
    AppendOccupies(c, s.slots, first, count, a.payload);
    assert Occupied(c, Stored(c, s.slots, Plus(first, count), a.payload), first, 0, count + 1) by {
      AheadBy(first, count);
      hide Distance, SlotOf;
    }
    SubmitNextFillsSlot(c, s, first, count, a);
    PlusPlus(first, count, 1);
    hide SubmitNext, Filled, Occupied, PayloadsFrom, Stored;
  }

  lemma SubmitNextFillsSlot(c: Settings, s: State, first: Sequence, count: nat, a: Arrival)
    requires Filling(c, s, first, count) && count < c.slotCount && Fits(c, a)
    ensures var r := SubmitNext(c, s, a);
            && r.slots == Stored(c, s.slots, Plus(first, count), a.payload)
            && r.consumer == s.consumer && r.producer.hasFirst && r.producer.first == first
            && r.producer.resyncEpoch == s.producer.resyncEpoch
            && r.producer.highest == Plus(first, count)
  {
    var next := Plus(s.producer.highest, 1);
    NextSlotEmpty(c, s.slots, first, count);
    RebaseNext(c, s.producer);
    MeasureKeeps(c, s.producer.(highest := next), next, a.microseconds);
    hide Measure, Retarget, Filled, Occupied, SlotOf, Rebase, Plus, SmallRing;
  }

  lemma NextSlotEmpty(c: Settings, slots: seq<Slot>, first: Sequence, count: nat)
    requires SmallRing(c) && c.slotCount == |slots| && count < c.slotCount
    requires Occupied(c, slots, first, 0, count)
    ensures slots[SlotOf(c, Plus(first, count))].stamp == 0
  {
    var index := SlotOf(c, Plus(first, count));
    assert Occupied(c, slots, first, count - c.slotCount, count);
    if slots[index].stamp != 0 {
      OccupantPlace(c, slots, first, count, index);
      assert false;
    }
  }

  lemma RebaseNext(c: Settings, p: Producer)
    requires c.Valid() && p.hasFirst
    ensures Rebase(c, p, Plus(p.highest, 1)) == p.(highest := Plus(p.highest, 1))
  {
    DistanceOfPlus(p.highest, 1, 0);
  }

  /** The first packet played from a fresh, gapless stream finds the buffer stocked with exactly the
      newest `target` packets. */
  lemma PrimeStocks(c: Settings, s: State, first: Sequence, count: nat)
    requires Filling(c, s, first, count) && CanPrime(s) && 1 <= s.depth.target <= count
    ensures var r := Prime(s);
            && Stocked(c, r) && DepthOf(r) == s.depth.target
            && Queue(c, r) == PayloadsFrom(c, s.slots, first, count)[count - s.depth.target..]
  {
    hide Filled, Occupied, PayloadsFrom, Plus, Distance, IsPowerOfTwo, SlotOf, CanPrime;
    SkipFills(c, s.slots, first, count, count - s.depth.target);
    PrimePlace(s, first, count);
  }

  lemma PrimePlace(s: State, first: Sequence, count: nat)
    requires Plus(s.producer.highest, 1) == Plus(first, count) && 1 <= s.depth.target <= count < HALF
    ensures Prime(s).consumer.playout == Plus(first, count - s.depth.target)
    ensures DepthOf(Prime(s)) == s.depth.target
  {
    var target: int := s.depth.target;
    PlusPlus(s.producer.highest, 1, -target);
    PlusPlus(first, count, -target);
    PlusPlus(s.producer.highest, 1, -1);
    PlusPlus(first, count, -1);
    PlusZero(s.producer.highest);
    hide Plus, Distance;
    DistanceOfPlus(first, count - 1, count - target);
  }

  lemma LaterPlaces(first: Sequence, skipped: nat, k: nat)
    ensures Plus(Plus(first, skipped), k) == Plus(first, skipped + k)
  {
    PlusPlus(first, skipped, k);
  }

  lemma SkipKeepsFilled(c: Settings, slots: seq<Slot>, first: Sequence, count: nat, skipped: nat)
    requires c.slotCount == |slots| > 0 && skipped <= count && Filled(c, slots, first, count)
    ensures Filled(c, slots, Plus(first, skipped), count - skipped)
    ensures PayloadsFrom(c, slots, Plus(first, skipped), count - skipped) == PayloadsFrom(c, slots, first, count)[skipped..]
  {
    hide Plus, SlotOf, Holds;
    forall k | 0 <= k < count - skipped ensures Plus(Plus(first, skipped), k) == Plus(first, skipped + k) {
      LaterPlaces(first, skipped, k);
    }
    forall k | 0 <= k < count - skipped
      ensures Holds(slots[SlotOf(c, Plus(Plus(first, skipped), k))], Plus(Plus(first, skipped), k))
    {
      assert Holds(slots[SlotOf(c, Plus(first, skipped + k))], Plus(first, skipped + k));
    }
  }

  lemma SkipKeepsOccupied(c: Settings, slots: seq<Slot>, first: Sequence, count: nat, skipped: nat)
    requires SmallRing(c) && c.slotCount == |slots| && skipped <= count <= c.slotCount
    requires Occupied(c, slots, first, 0, count)
    ensures Occupied(c, slots, Plus(first, skipped), count - skipped - c.slotCount, count - skipped)
  {
    var later := Plus(first, skipped);
    forall i | 0 <= i < |slots| && slots[i].stamp != 0
      ensures Distance(Occupant(slots[i]).sequence, later) == Distance(Occupant(slots[i]).sequence, first) - skipped
    {
      DistanceShift(Occupant(slots[i]).sequence, first, 0, skipped);
      PlusZero(Occupant(slots[i]).sequence);
    }
    hide Distance, Plus, SlotOf, SmallRing;
  }

  /** Counting from a later packet shortens the queue from the front. */
  lemma SkipFills(c: Settings, slots: seq<Slot>, first: Sequence, count: nat, skipped: nat)
    requires SmallRing(c) && c.slotCount == |slots| && skipped <= count <= c.slotCount
    requires Filled(c, slots, first, count) && Occupied(c, slots, first, 0, count)
    ensures var later := Plus(first, skipped);
            && Filled(c, slots, later, count - skipped)
            && Occupied(c, slots, later, count - skipped - c.slotCount, count - skipped)
            && PayloadsFrom(c, slots, later, count - skipped) == PayloadsFrom(c, slots, first, count)[skipped..]
  {
    hide Filled, Occupied, PayloadsFrom, Plus, Distance;
    SmallRingHasSlots(c);
    SkipKeepsFilled(c, slots, first, count, skipped);
    SkipKeepsOccupied(c, slots, first, count, skipped);
  }

  lemma SmallRingHasSlots(c: Settings)
    requires SmallRing(c)
    ensures c.Valid() && c.slotCount > 0
  {
  }

  /** A fresh receiver after packets in sequence, none of them pulled yet. */
  function Opening(c: Settings, first: Sequence, arrivals: seq<Arrival>): (s: State)
    requires c.Valid()
    ensures PacketSized(c, s) && s.consumer == Initial(c).consumer
  {
    if arrivals == [] then Initial(c)
    else
      var a, before := arrivals[|arrivals| - 1], Opening(c, first, arrivals[..|arrivals| - 1]);
      if |arrivals| == 1 then Submit(c, before, first, a.payload, a.microseconds) else SubmitNext(c, before, a)
  }

  /** Nothing has been played yet. */
  predicate Unplayed(s: State) {
    && s.ledger.turns == [] && s.ledger.segment == 0 && s.decoderCalls == []
    && s.counters.concealed == s.counters.stretches == s.counters.trims == 0
  }

  lemma SubmitKeepsUnplayed(c: Settings, s: State, sequence: Sequence, payload: Payload, arrival: nat)
    requires c.Valid() && PacketSized(c, s) && Unplayed(s)
    ensures Unplayed(Submit(c, s, sequence, payload, arrival))
  {
    hide Rebase, Measure, Retarget, SlotOf, Classify;
  }

  lemma {:induction false} OpeningFills(c: Settings, first: Sequence, arrivals: seq<Arrival>)
    requires SmallRing(c) && 1 <= |arrivals| <= c.slotCount && forall a | a in arrivals :: Fits(c, a)
    ensures var s := Opening(c, first, arrivals);
            && Filling(c, s, first, |arrivals|) && Unplayed(s)
            && PayloadsFrom(c, s.slots, first, |arrivals|) == Payloads(arrivals)
    decreases |arrivals|
  {
    hide SubmitNext, Submit, Filling, SmallRing, PayloadsFrom, Fits;
    SmallRingHasSlots(c);
    var before, a := arrivals[..|arrivals| - 1], arrivals[|arrivals| - 1];
    if |arrivals| == 1 {
      OpeningStarts(c, first, arrivals);
    } else {
      OpeningFills(c, first, before);
      OpeningGrows(c, Opening(c, first, before), first, |before|, a);
      assert Payloads(arrivals) == Payloads(before) + [a.payload];
    }
  }

  lemma OpeningStarts(c: Settings, first: Sequence, arrivals: seq<Arrival>)
    requires SmallRing(c) && |arrivals| == 1 && Fits(c, arrivals[0])
    ensures var s := Opening(c, first, arrivals);
            && Filling(c, s, first, 1) && Unplayed(s) && PayloadsFrom(c, s.slots, first, 1) == Payloads(arrivals)
  {
    assert arrivals[..0] == [] && Initial(c) == Initial(c).(depth := Initial(c).depth);
    FirstArrivalFills(c, Initial(c).depth, first, arrivals[0]);
    SubmitKeepsUnplayed(c, Initial(c), first, arrivals[0].payload, arrivals[0].microseconds);
    hide Submit, Filling, PayloadsFrom;
  }

  lemma OpeningGrows(c: Settings, s: State, first: Sequence, count: nat, a: Arrival)
    requires Filling(c, s, first, count) && Unplayed(s) && count < c.slotCount && Fits(c, a)
    ensures var r := SubmitNext(c, s, a);
            && Filling(c, r, first, count + 1) && Unplayed(r)
            && PayloadsFrom(c, r.slots, first, count + 1) == PayloadsFrom(c, s.slots, first, count) + [a.payload]
  {
    NextArrivalFills(c, s, first, count, a);
    SubmitKeepsUnplayed(c, s, Plus(s.producer.highest, 1), a.payload, a.microseconds);
    hide Submit, PayloadsFrom, Filled, Occupied, Plus;
  }

  lemma FillingPrimes(c: Settings, s: State, first: Sequence, count: nat)
    requires Filling(c, s, first, count) && s.depth.target <= count
    ensures CanPrime(s) && Observe(s) == s
  {
    PlusPlus(first, count, -1);
    PlusPlus(s.producer.highest, 1, -1);
    PlusZero(s.producer.highest);
    PlusZero(first);
    hide Filled, Occupied, Plus, Distance;
    DistanceOfPlus(first, count - 1, 0);
  }

  /** From the first packet on: a new receiver that has been given at least its target of packets in sequence
      starts at the newest `target` of them and then, while the target stays put and a packet arrives for
      each one played, plays every packet from there on, each once and in order. Nothing is concealed,
      stretched or trimmed. */
  lemma FreshStreamIsLossless(e: Environment, c: Settings, first: Sequence, head: seq<Arrival>, rest: seq<Arrival>,
                              target: nat)
    requires SmallRing(c) && 1 <= target <= |head| <= c.slotCount && 2 * target < c.slotCount
    requires (forall a | a in head :: Fits(c, a)) && Opening(c, first, head).depth.target == target
    requires TargetHolds(e, c, BeginPacket(e, c, Opening(c, first, head)), rest, target)
    requires forall p | p in Payloads(head) + Payloads(rest) :: Decodable(e, c, p)
    ensures var r := Cycles(e, c, BeginPacket(e, c, Opening(c, first, head)), rest);
            var skipped, all := |head| - target, Payloads(head) + Payloads(rest);
            var played := skipped + 1 + |rest|;
            && r.ledger.turns == PlayedTurns(1, Plus(first, skipped), all[skipped..played])
            && Stocked(c, r) && Queue(c, r) == all[played..]
            && r.counters.concealed == r.counters.stretches == r.counters.trims == 0
  {
    hide Opening, BeginPacket, Filling, Stocked, Queue, Decodable, DepthOf, SmallRing, PayloadsFrom, PlayedTurns, Plus,
         TargetHolds, Cycles, Settled, LowDepth, HighDepth;
    SmallRingHasSlots(c);
    var s := Opening(c, first, head);
    OpeningFills(c, first, head);
    var skipped, all := |head| - target, Payloads(head) + Payloads(rest);
    FirstPacket(e, c, s, first, head);
    var b := BeginPacket(e, c, s);
    QueueStays(Payloads(head), Payloads(rest), skipped, Queue(c, b));
    InDeadZone(target);
    SettledIsLossless(e, c, b, rest, target);
    TurnsJoin(1, Plus(first, skipped), all, skipped, |rest|);
  }

  lemma OneTurn(segment: nat, start: Sequence, payload: Payload)
    ensures PlayedTurns(segment, start, [payload]) == [Turn(segment, start, Played(payload))]
  {
    PlusZero(start);
  }

  lemma InDeadZone(target: nat)
    requires target >= 1
    ensures LowDepth(target) <= target <= HighDepth(target)
  {
  }

  lemma QueueStays(head: seq<Payload>, rest: seq<Payload>, skipped: nat, queue: seq<Payload>)
    requires skipped < |head| && queue == head[skipped + 1..]
    ensures queue + rest == (head + rest)[skipped + 1..] && head[skipped] == (head + rest)[skipped]
    ensures forall p | p in queue + rest :: p in head + rest
  {
  }

  lemma TurnsJoin(segment: nat, start: Sequence, all: seq<Payload>, skipped: nat, count: nat)
    requires skipped + 1 + count <= |all|
    ensures PlayedTurns(segment, start, all[skipped..skipped + 1 + count])
            == PlayedTurns(segment, start, [all[skipped]])
               + PlayedTurns(segment, Plus(start, 1), all[skipped + 1..][..count])
    ensures all[skipped + 1..][count..] == all[skipped + 1 + count..]
  {
    var played := all[skipped..skipped + 1 + count];
    TurnsShift(segment, start, played);
    assert played[1..] == all[skipped + 1..][..count];
    PlusZero(start);
    hide Plus;
  }

  lemma FirstPacket(e: Environment, c: Settings, s: State, first: Sequence, head: seq<Arrival>)
    requires Filling(c, s, first, |head|) && Unplayed(s) && 1 <= s.depth.target <= |head|
    requires PayloadsFrom(c, s.slots, first, |head|) == Payloads(head)
    requires forall p | p in Payloads(head) :: Decodable(e, c, p)
    ensures var skipped, b := |head| - s.depth.target, BeginPacket(e, c, s);
            && Stocked(c, b) && NextDepth(b) == s.depth.target
            && Queue(c, b) == Payloads(head)[skipped + 1..]
            && b.decoderCalls == [Decode(Payloads(head)[skipped])] && b.consumer.currentOffset == s.consumer.currentOffset
            && b.ledger.turns == PlayedTurns(1, Plus(first, skipped), [Payloads(head)[skipped]])
            && b.ledger.segment == 1 && b.consumer.playout == Plus(Plus(first, skipped), 1)
            && b.counters.concealed == b.counters.stretches == b.counters.trims == 0
  {
    hide Filling, Stocked, Queue, Decodable, DepthOf, PayloadsFrom, BeginPacket, Plus, LowDepth, HighDepth, PlayedTurns;
    BeginPrimes(e, c, s, first, |head|);
    var p, b := Prime(s), BeginPacket(e, c, s);
    StockedSizes(c, p);
    InDeadZone(s.depth.target);
    PlayDequeues(e, c, p);
    StockedSizes(c, b);
    OneTurn(1, Plus(first, |head| - s.depth.target), Payloads(head)[|head| - s.depth.target]);
  }

  lemma BeginPrimes(e: Environment, c: Settings, s: State, first: Sequence, count: nat)
    requires Filling(c, s, first, count) && 1 <= s.depth.target <= count
    ensures PacketSized(c, s)
    ensures var p := Prime(s);
            && Stocked(c, p) && DepthOf(p) == s.depth.target && BeginPacket(e, c, s) == BeginPacket(e, c, p)
            && Queue(c, p) == PayloadsFrom(c, s.slots, first, count)[count - s.depth.target..]
            && p.consumer.playout == Plus(first, count - s.depth.target)
  {
    FillingPrimes(c, s, first, count);
    PrimeStocks(c, s, first, count);
    PrimePlace(s, first, count);
    hide Filled, Occupied, Queue, DepthOf, PayloadsFrom, CanPrime, Regulate, Plus, SmallRing;
    BeginSettled(e, c, Prime(s));
  }
}
