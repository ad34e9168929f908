/** Depth regulation of the jitter buffer with a constant target. */
module ReceiverRegulation {
  import opened Bounds
  import opened CircularSequence
  import opened ReceiverModel
  import opened ReceiverIntegrity

  /** Playing, with every resync seen. */
  predicate Settled(c: Settings, s: State) {
    && c.Valid() && PacketSized(c, s)
    && s.consumer.primed && s.consumer.observedEpoch == s.producer.resyncEpoch
    && s.producer.hasFirst
  }

  datatype Arrival = Arrival(payload: Payload, microseconds: nat)

  predicate Fits(c: Settings, a: Arrival) {
    a.payload != [] && |a.payload| <= c.maximumPacketBytes
  }

  /** The next packet in order arrives. */
  function SubmitNext(c: Settings, s: State, a: Arrival): (r: State)
    requires c.Valid() && PacketSized(c, s)
    ensures PacketSized(c, r)
  {
    Submit(c, s, Plus(s.producer.highest, 1), a.payload, a.microseconds)
  }

  /** What the next packet in order changes, apart from the slot it goes to. */
  lemma SubmitNextTracks(c: Settings, s: State, a: Arrival)
    requires Settled(c, s) && Fits(c, a)
    ensures var r := SubmitNext(c, s, a);
            && Settled(c, r) && r.consumer == s.consumer
            && r.producer.highest == Plus(s.producer.highest, 1)
            && r.ledger.turns == s.ledger.turns && r.decoderCalls == s.decoderCalls
            && r.counters.stretches == s.counters.stretches && r.counters.trims == s.counters.trims
            && r.counters.concealed == s.counters.concealed
  {
    var next := Plus(s.producer.highest, 1);
    hide Track, FilePacket;
    TrackNext(c, s, a.microseconds);
    FileKeeps(c, CountSubmit(Track(c, s, next, a.microseconds)), next, a.payload);
  }

  lemma TrackNext(c: Settings, s: State, arrival: nat)
    requires Settled(c, s)
    ensures var t := Track(c, s, Plus(s.producer.highest, 1), arrival);
            && t == s.(producer := t.producer, depth := t.depth)
            && t.producer.highest == Plus(s.producer.highest, 1) && t.producer.hasFirst
            && t.producer.resyncEpoch == s.producer.resyncEpoch
  {
    var next := Plus(s.producer.highest, 1);
    DistanceOfPlus(s.producer.highest, 1, 0);
    assert Rebase(c, s.producer, next) == s.producer.(highest := next);
    hide Measure, Retarget;
    MeasureKeeps(c, s.producer.(highest := next), next, arrival);
    hide Rebase;
  }

  /** Filing a packet touches one slot, the submission counters and the list of filed packets. */
  lemma FileKeeps(c: Settings, s: State, sequence: Sequence, payload: Payload)
    requires |s.slots| == c.slotCount > 0
    ensures var r := FilePacket(c, s, sequence, payload);
            && |r.slots| == |s.slots|
            && r == s.(slots := r.slots, counters := r.counters, ledger := r.ledger)
            && r.ledger.turns == s.ledger.turns
            && r.counters.stretches == s.counters.stretches && r.counters.trims == s.counters.trims
            && r.counters.concealed == s.counters.concealed
  {
    hide Classify;
  }

  lemma MeasureKeeps(c: Settings, p: Producer, sequence: Sequence, arrival: nat)
    requires c.Valid()
    ensures var r := Measure(c, p, sequence, arrival);
            r.highest == p.highest && r.hasFirst == p.hasFirst && r.resyncEpoch == p.resyncEpoch && r.first == p.first
  {
  }

  lemma BeginSettled(e: Environment, c: Settings, s: State)
    requires Settled(c, s)
    ensures BeginPacket(e, c, s) == Regulate(e, c, s) && CanBegin(s)
  {
    hide Regulate;
  }

  function LowDepth(target: nat): int { Max(1, target - STRETCH_SLACK) }
  function HighDepth(target: nat): int { target + TRIM_SLACK }

  /** `r` follows `s` after `turns` playout positions and so many stretches and trims. */
  ghost predicate Moved(c: Settings, s: State, r: State, turns: nat, stretches: nat, trims: nat) {
    && Settled(c, r) && r.producer == s.producer && r.depth == s.depth
    && r.consumer.playout == Plus(s.consumer.playout, turns)
    && |r.ledger.turns| == |s.ledger.turns| + turns && s.ledger.turns <= r.ledger.turns
    && r.ledger.submits == s.ledger.submits
    && r.counters.stretches == s.counters.stretches + stretches
    && r.counters.trims == s.counters.trims + trims
  }

  lemma PlayMoves(e: Environment, c: Settings, s: State)
    requires Settled(c, s)
    ensures Moved(c, s, PlayNext(e, c, s), 1, 0, 0)
  {
    PlayConsumes(e, c, s);
    hide PlayNext, Consumes, Moved;
  }

  lemma TrimMoves(e: Environment, c: Settings, s: State)
    requires Settled(c, s)
    ensures Moved(c, s, Trim(e, c, s), 1, 0, 1)
  {
    TrimConsumes(e, c, s);
    hide Trim, Consumes, Moved;
  }

  lemma StretchMoves(e: Environment, c: Settings, s: State, decay: bool)
    requires Settled(c, s)
    ensures var r := Stretch(e, c, s, decay);
            && Moved(c, s, r, 0, 1, 0)
            && r.slots == s.slots && r.decoderCalls == s.decoderCalls && r.ledger == s.ledger
  {
    SoundKeepsCursor(e, c, s.consumer, decay, []);
    hide SlotOf;
  }

  /** Playout positions, stretches and trims of one packet of playback at a given depth. */
  datatype Motion = Motion(turns: nat, stretches: nat, trims: nat)

  function MotionAt(depth: int, target: nat): Motion {
    if depth < LowDepth(target) then Motion(0, 1, 0)
    else if depth <= HighDepth(target) then Motion(1, 0, 0)
    else Motion(2, 0, 1)
  }

  /** What one packet of playback does at each depth. Below the dead zone it inserts a packet and
      touches neither playout, slots nor decoder; above it, it sheds one position and plays the
      next; inside it, it plays exactly one. */
  lemma RegulateMoves(e: Environment, c: Settings, s: State)
    requires Settled(c, s)
    ensures var m := MotionAt(DepthOf(s), s.depth.target);
            Moved(c, s, Regulate(e, c, s), m.turns, m.stretches, m.trims)
    ensures DepthOf(s) < LowDepth(s.depth.target) ==>
              var r := Regulate(e, c, s);
              r.slots == s.slots && r.decoderCalls == s.decoderCalls && r.ledger == s.ledger
  {
    hide PlayNext, Trim, Stretch, WatchArrivals, Moved, Settled, Distance;
    SettledSizes(c, s);
    WatchOnly(c, s);
    var w, r := WatchArrivals(s), Regulate(e, c, s);
    if TooShallow(w) {
      StretchMoves(e, c, w, w.consumer.stalledPackets >= STALL_LIMIT);
      SameStart(c, s, w, r, 0, 1, 0);
    } else if TooDeep(w) {
      TrimMoves(e, c, w);
      TrimSettles(c, w, Trim(e, c, w));
      PlayMoves(e, c, Trim(e, c, w));
      Moves2(c, w, Trim(e, c, w), r);
      SameStart(c, s, w, r, 2, 0, 1);
    } else {
      PlayMoves(e, c, w);
      SameStart(c, s, w, r, 1, 0, 0);
    }
  }

  lemma SameStart(c: Settings, s: State, w: State, r: State, turns: nat, stretches: nat, trims: nat)
    requires Moved(c, w, r, turns, stretches, trims)
    requires w == s.(consumer := w.consumer) && w.consumer.playout == s.consumer.playout
    ensures Moved(c, s, r, turns, stretches, trims)
  {
  }

  lemma TrimSettles(c: Settings, s: State, r: State)
    requires Moved(c, s, r, 1, 0, 1)
    ensures Settled(c, r)
  {
  }

  lemma Moves2(c: Settings, s: State, t: State, r: State)
    requires Moved(c, s, t, 1, 0, 1) && Moved(c, t, r, 1, 0, 0)
    ensures Moved(c, s, r, 2, 0, 1)
  {
    PlusPlus(s.consumer.playout, 1, 1);
  }

  lemma MovedDepth(c: Settings, s: State, r: State, m: Motion)
    requires Moved(c, s, r, m.turns, m.stretches, m.trims)
    requires 0 <= DepthOf(s) - m.turns || m.turns == 0
    ensures DepthOf(r) == DepthOf(s) - m.turns
  {
    hide Settled, Distance, Plus;
    DistanceSpansModulus(s.producer.highest, s.consumer.playout);
    PlusZero(s.producer.highest);
    DistanceShift(s.producer.highest, s.consumer.playout, 0, m.turns);
  }

  lemma PlusZero(s: Sequence)
    ensures Plus(s, 0) == s
  {
  }

  lemma WatchOnly(c: Settings, s: State)
    requires Settled(c, s)
    ensures var w := WatchArrivals(s);
            && Settled(c, w)
            && w == s.(consumer := w.consumer) && w.consumer.playout == s.consumer.playout
            && w.consumer.currentOffset == s.consumer.currentOffset
  {
  }

  // ---------------------------------------------------------- steady arrivals

  /** One in-order arrival, then one packet of playback. */
  function Cycle(e: Environment, c: Settings, s: State, a: Arrival): (r: State)
    requires c.Valid() && PacketSized(c, s)
    ensures PacketSized(c, r)
  {
    BeginPacket(e, c, SubmitNext(c, s, a))
  }

  /** The depth the next packet of playback will find. */
  function NextDepth(s: State): int { DepthOf(s) + 1 }

  /** Where the depth is after `k` cycles: one step per packet towards the dead zone, and no further. */
  function Settling(depth: int, target: nat, k: nat): int {
    if depth < LowDepth(target) then Min(depth + k, LowDepth(target))
    else if depth > HighDepth(target) then Max(depth - k, HighDepth(target))
    else depth
  }

  function StretchesIn(depth: int, target: nat, k: nat): nat {
    if depth < LowDepth(target) then Min(k, LowDepth(target) - depth) else 0
  }

  function TrimsIn(depth: int, target: nat, k: nat): nat {
    if depth > HighDepth(target) then Min(k, depth - HighDepth(target)) else 0
  }

  lemma ArrivalDeepens(c: Settings, s: State, a: Arrival)
    requires Settled(c, s) && Fits(c, a) && DepthOf(s) < HALF
    ensures DepthOf(SubmitNext(c, s, a)) == NextDepth(s)
  {
    hide SubmitNext, Settled, Fits, Distance, Plus;
    SubmitNextTracks(c, s, a);
    DistanceSpansModulus(s.producer.highest, s.consumer.playout);
    PlusZero(s.consumer.playout);
    DistanceShift(s.producer.highest, s.consumer.playout, 1, 0);
  }

  lemma CycleMoves(e: Environment, c: Settings, s: State, a: Arrival)
    requires Settled(c, s) && Fits(c, a) && DepthOf(s) < HALF
    ensures var r := Cycle(e, c, s, a);
            var m := MotionAt(NextDepth(s), SubmitNext(c, s, a).depth.target);
            && Settled(c, r) && r.depth.target == SubmitNext(c, s, a).depth.target
            && DepthOf(r) == NextDepth(s) - m.turns
            && r.counters.stretches == s.counters.stretches + m.stretches
            && r.counters.trims == s.counters.trims + m.trims
  {
    var t := SubmitNext(c, s, a);
    SubmitNextTracks(c, s, a);
    ArrivalDeepens(c, s, a);
    hide SubmitNext, BeginPacket, Regulate, Settled;
    BeginSettled(e, c, t);
    RegulateMoves(e, c, t);
    MovedDepth(c, t, Regulate(e, c, t), MotionAt(DepthOf(t), t.depth.target));
  }

  function Cycles(e: Environment, c: Settings, s: State, arrivals: seq<Arrival>): (r: State)
    requires c.Valid() && PacketSized(c, s)
    ensures PacketSized(c, r)
    decreases arrivals
  {
    if arrivals == [] then s
    else
      Cycles(e, c, Cycle(e, c, s, arrivals[0]), arrivals[1..])
  }

  /** Every arrival fits a slot and leaves the target where it is. */
  predicate TargetHolds(e: Environment, c: Settings, s: State, arrivals: seq<Arrival>, target: nat)
    requires c.Valid() && PacketSized(c, s)
    decreases arrivals
  {
    arrivals != [] ==>
      && Fits(c, arrivals[0])
      && SubmitNext(c, s, arrivals[0]).depth.target == target
      && TargetHolds(e, c, Cycles(e, c, s, arrivals[..1]), arrivals[1..], target)
  }

  /** With a constant target and one in-order arrival for each packet played, the depth walks one
      packet per cycle into [max(1, target - 1), target + 2] and stays there; the stretches and
      trims spent are exactly the distance walked, so none happens afterwards. */
  lemma {:induction false} DepthConverges(e: Environment, c: Settings, s: State, arrivals: seq<Arrival>, target: nat)
    requires Settled(c, s) && DepthOf(s) < HALF && TargetHolds(e, c, s, arrivals, target)
    requires HighDepth(target) < HALF
    ensures var r := Cycles(e, c, s, arrivals);
            var k := |arrivals|;
            && Settled(c, r)
            && NextDepth(r) == Settling(NextDepth(s), target, k)
            && r.counters.stretches == s.counters.stretches + StretchesIn(NextDepth(s), target, k)
            && r.counters.trims == s.counters.trims + TrimsIn(NextDepth(s), target, k)
    decreases arrivals
  {
    if arrivals != [] {
      OneCycle(e, c, s, arrivals);
      hide Settled, SubmitNext, Cycle;
      CycleMoves(e, c, s, arrivals[0]);
      DepthConverges(e, c, Cycle(e, c, s, arrivals[0]), arrivals[1..], target);
    }
  }

  /** Packets between a depth and the dead zone. */
  function Away(depth: int, target: nat): nat {
    StretchesIn(depth, target, if depth < LowDepth(target) then LowDepth(target) - depth else 0)
    + TrimsIn(depth, target, if depth > HighDepth(target) then depth - HighDepth(target) else 0)
  }

  /** So after as many cycles as the depth was away from the dead zone it is inside it, and however long
      the stream goes on, that many corrections are all it ever makes. */
  lemma DepthReachesDeadZone(e: Environment, c: Settings, s: State, arrivals: seq<Arrival>, target: nat)
    requires Settled(c, s) && DepthOf(s) < HALF && TargetHolds(e, c, s, arrivals, target)
    requires HighDepth(target) < HALF && |arrivals| >= Away(NextDepth(s), target)
    ensures var r := Cycles(e, c, s, arrivals);
            && LowDepth(target) <= NextDepth(r) <= HighDepth(target)
            && r.counters.stretches + r.counters.trims
               == s.counters.stretches + s.counters.trims + Away(NextDepth(s), target)
  {
    DepthConverges(e, c, s, arrivals, target);
    hide Cycles, Settled, TargetHolds, DepthOf;
  }

  lemma OneCycle(e: Environment, c: Settings, s: State, arrivals: seq<Arrival>)
    requires c.Valid() && PacketSized(c, s) && arrivals != []
    ensures PacketSized(c, Cycle(e, c, s, arrivals[0]))
    ensures Cycles(e, c, s, arrivals[..1]) == Cycle(e, c, s, arrivals[0])
    ensures Cycles(e, c, s, arrivals) == Cycles(e, c, Cycle(e, c, s, arrivals[0]), arrivals[1..])
  {
    hide Cycle;
    assert arrivals[..1][1..] == [];
  }

  // -------------------------------------------------------------- no arrivals

  function Begins(e: Environment, c: Settings, s: State, k: nat): (r: State)
    requires PacketSized(c, s)
    ensures PacketSized(c, r)
    decreases k
  {
    if k == 0 then s
    else
      Begins(e, c, BeginPacket(e, c, s), k - 1)
  }

  /** One packet of playback with no arrival: `r` is the state left by `k` of them. */
  ghost predicate Coasted(c: Settings, s: State, r: State, k: nat) {
    && Settled(c, r) && r.producer == s.producer && r.depth == s.depth
    && Min(0, DepthOf(s)) <= DepthOf(r) <= DepthOf(s)
    && |r.ledger.turns| == |s.ledger.turns| + DepthOf(s) - DepthOf(r)
    && (k >= DepthOf(s) ==> DepthOf(r) < LowDepth(s.depth.target))
    && (DepthOf(s) < LowDepth(s.depth.target) ==>
          && r.consumer.playout == s.consumer.playout && r.slots == s.slots
          && r.decoderCalls == s.decoderCalls && r.ledger == s.ledger
          && r.counters.stretches == s.counters.stretches + k)
  }

  lemma BeginCoasts(e: Environment, c: Settings, s: State)
    requires Settled(c, s)
    ensures var r := BeginPacket(e, c, s);
            && Coasted(c, s, r, 1)
            && (DepthOf(s) >= LowDepth(s.depth.target) ==> DepthOf(r) < DepthOf(s))
  {
    hide Regulate, BeginPacket, Settled, DepthOf, Plus;
    SettledSizes(c, s);
    PlusZero(s.consumer.playout);
    BeginSettled(e, c, s);
    RegulateMoves(e, c, s);
    MovedDepth(c, s, Regulate(e, c, s), MotionAt(DepthOf(s), s.depth.target));
  }

  /** When nothing more arrives, playout does not pass one beyond the newest packet, takes at most
      as many turns as packets were waiting, and is frozen from then on: neither the cursor, the
      slots nor the decoder move, and every further packet is a stretch. */
  lemma {:induction false} PlayoutFreezes(e: Environment, c: Settings, s: State, k: nat)
    requires Settled(c, s)
    ensures Coasted(c, s, Begins(e, c, s, k), k)
    decreases k
  {
    hide BeginPacket, Settled, Coasted, PacketSized, DepthOf;
    SettledSizes(c, s);
    if k == 0 {
      CoastsNone(c, s);
    } else {
      BeginCoasts(e, c, s);
      var next := BeginPacket(e, c, s);
      CoastedMeans(c, s, next);
      PlayoutFreezes(e, c, next, k - 1);
      CoastsOn(c, s, next, Begins(e, c, next, k - 1), k - 1);
    }
  }

  lemma SettledSizes(c: Settings, s: State)
    requires Settled(c, s)
    ensures c.Valid() && PacketSized(c, s)
  {
  }

  lemma CoastsNone(c: Settings, s: State)
    requires Settled(c, s)
    ensures Coasted(c, s, s, 0)
  {
    hide Settled;
  }

  lemma CoastedMeans(c: Settings, s: State, r: State)
    requires Coasted(c, s, r, 1)
    ensures Settled(c, r)
  {
    hide Settled;
  }

  lemma CoastsOn(c: Settings, s: State, t: State, r: State, k: nat)
    requires Coasted(c, s, t, 1) && Coasted(c, t, r, k)
    requires DepthOf(s) >= LowDepth(s.depth.target) ==> DepthOf(t) < DepthOf(s)
    ensures Coasted(c, s, r, k + 1)
  {
    hide Settled;
  }
}
