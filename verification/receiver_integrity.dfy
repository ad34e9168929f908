/** What every run of the jitter buffer keeps: slot integrity, conservation of packets, the
    order in which the decoder sees them, and the counter ledger. */
module ReceiverIntegrity {
  import opened CircularSequence
  import opened Samples
  import opened ReceiverModel

  // ------------------------------------------------------------ the invariant

  function Carried(outcome: Outcome): seq<Payload> {
    match outcome
    case Played(p) => [p]
    case Trimmed(p) => [p]
    case Undecodable(p) => [p]
    case TrimmedGap => []
    case TrimmedUndecodable(p) => [p]
    case Lost => []
  }

  /** The decoder calls one playout position must cause: none only where a trim met a gap. */
  function CallsFor(outcome: Outcome): seq<DecoderCall> {
    match outcome
    case Played(p) => [Decode(p)]
    case Trimmed(p) => [Decode(p)]
    case Undecodable(p) => [Decode(p), Conceal]
    case TrimmedGap => []
    case TrimmedUndecodable(p) => [Decode(p)]
    case Lost => [Conceal]
  }

  function Rendering(turns: seq<Turn>): seq<DecoderCall> {
    if turns == [] then []
    else Rendering(turns[..|turns| - 1]) + CallsFor(turns[|turns| - 1].outcome)
  }

  function Spent(t: Turn): multiset<Packet> {
    if Carried(t.outcome) == [] then multiset{} else multiset{Packet(t.sequence, Carried(t.outcome)[0])}
  }

  function Consumed(turns: seq<Turn>): multiset<Packet> {
    if turns == [] then multiset{}
    else Consumed(turns[..|turns| - 1]) + Spent(turns[|turns| - 1])
  }

  function Occupant(slot: Slot): Packet {
    Packet((slot.stamp - 1) % MODULUS, slot.bytes)
  }

  function Contents(slot: Slot): multiset<Packet> {
    if slot.stamp == 0 then multiset{} else multiset{Occupant(slot)}
  }

  function Slotted(slots: seq<Slot>): multiset<Packet> {
    if slots == [] then multiset{}
    else Slotted(slots[..|slots| - 1]) + Contents(slots[|slots| - 1])
  }

  /** The newest filed packet whose number maps to a slot. */
  function LastFiled(c: Settings, filed: seq<Packet>, index: nat): seq<Packet>
    requires c.slotCount > 0
  {
    if filed == [] then []
    else if SlotOf(c, filed[|filed| - 1].sequence) == index then [filed[|filed| - 1]]
    else LastFiled(c, filed[..|filed| - 1], index)
  }

  function Count(turns: seq<Turn>, kind: Outcome -> bool): nat {
    if turns == [] then 0
    else Count(turns[..|turns| - 1], kind) + if kind(turns[|turns| - 1].outcome) then 1 else 0
  }

  const IsPlayed: Outcome -> bool := (o: Outcome) => o.Played?
  const IsSilentTrim: Outcome -> bool := (o: Outcome) => o.TrimmedGap? || o.TrimmedUndecodable?
  const IsTrim: Outcome -> bool := (o: Outcome) => o.Trimmed? || IsSilentTrim(o)
  const IsConcealed: Outcome -> bool := (o: Outcome) => o.Lost? || o.Undecodable?
  const IsUndecodable: Outcome -> bool := (o: Outcome) => o.Undecodable?

  ghost predicate SlotsSound(c: Settings, slots: seq<Slot>, filed: seq<Packet>)
    requires c.slotCount > 0
  {
    forall i | 0 <= i < |slots| && slots[i].stamp != 0 ::
      && slots[i].stamp <= MODULUS
      && SlotOf(c, Occupant(slots[i]).sequence) == i
      && LastFiled(c, filed, i) == [Occupant(slots[i])]
  }

  ghost predicate Conserved(slots: seq<Slot>, filed: seq<Packet>, turns: seq<Turn>, reclaimed: seq<Packet>) {
    multiset(filed) == Slotted(slots) + Consumed(turns) + multiset(reclaimed)
  }

  ghost predicate Accounted(n: Counters, filed: seq<Packet>, submits: nat, undecodable: nat) {
    && n.accepted == |filed|
    && n.accepted + n.duplicate + n.late + n.dropped == submits + undecodable
  }

  ghost predicate Tallied(n: Counters, turns: seq<Turn>, undecodable: nat) {
    && undecodable == Count(turns, IsUndecodable)
    && n.concealed == Count(turns, IsConcealed)
    && n.trims == Count(turns, IsTrim)
  }

  ghost predicate FramesTallied(c: Settings, n: Counters) {
    n.concealedFrames == c.packetFrames * (n.concealed + n.stretches)
  }

  /** Turns of one priming are consecutive sequence numbers, and primings do not interleave. */
  ghost predicate InOrder(turns: seq<Turn>) {
    forall i, j | 0 <= i < j < |turns| ::
      && turns[i].segment <= turns[j].segment
      && (turns[i].segment == turns[j].segment ==> turns[j].sequence == Plus(turns[i].sequence, j - i))
  }

  /** The last `count` turns are the current segment's, numbered from `origin` up to the cursor. */
  ghost predicate CurrentSegment(playout: Sequence, turns: seq<Turn>, segment: nat, origin: Sequence, count: nat) {
    && count <= |turns|
    && (count > 0 ==> segment > 0)
    && playout == Plus(origin, count)
    && (forall i | 0 <= i < |turns| - count :: turns[i].segment < segment)
    && (forall i | |turns| - count <= i < |turns| ::
          turns[i].segment == segment && turns[i].sequence == Plus(origin, i - (|turns| - count)))
  }

  ghost predicate Ordered(s: State) {
    && InOrder(s.ledger.turns)
    && CurrentSegment(s.consumer.playout, s.ledger.turns, s.ledger.segment, s.ledger.origin, s.ledger.segmentTurns)
  }

  ghost predicate Anchored(p: Producer) {
    && p.hasFirst == p.hasPrevious
    && (p.hasFirst ==> p.previousSequence == p.highest)
    && p.jitter >= 0.0
  }

  ghost predicate DepthSound(c: Settings, d: Depth) {
    && c.ValidDepth(d.minimum, d.maximum, d.safety)
    && d.minimum <= d.target <= d.maximum
  }

  ghost predicate Invariant(c: Settings, s: State) {
    && c.Valid()
    && PacketSized(c, s)
    && s.consumer.currentOffset <= c.packetFrames
    && SlotsSound(c, s.slots, s.ledger.filed)
    && Conserved(s.slots, s.ledger.filed, s.ledger.turns, s.ledger.reclaimed)
    && Accounted(s.counters, s.ledger.filed, s.ledger.submits, s.ledger.undecodable)
    && Tallied(s.counters, s.ledger.turns, s.ledger.undecodable)
    && FramesTallied(c, s.counters)
    && s.decoderCalls == Rendering(s.ledger.turns)
    && Ordered(s)
    && Anchored(s.producer)
    && DepthSound(c, s.depth)
    && s.counters.resyncs == s.producer.resyncEpoch
    && s.consumer.observedEpoch <= s.producer.resyncEpoch
    && (s.consumer.primed ==> s.producer.hasFirst && s.ledger.segment > 0)
    && s.ledger.segment <= s.consumer.observedEpoch + (if s.consumer.primed then 1 else 0)
  }

  // --------------------------------------------------------- one consumed turn

  /** What consuming one playout position changes. */
  ghost predicate Consumes(c: Settings, s: State, r: State, outcome: Outcome)
    requires |s.slots| == c.slotCount > 0
  {
    var k := s.consumer;
    var index := SlotOf(c, k.playout);
    && r.producer == s.producer && r.depth == s.depth
    && r.consumer.playout == Plus(k.playout, 1)
    && r.consumer.primed == k.primed && r.consumer.observedEpoch == k.observedEpoch
    && r.consumer.currentOffset == k.currentOffset
    && r.ledger == s.ledger.(turns := s.ledger.turns + [Turn(s.ledger.segment, k.playout, outcome)],
                             segmentTurns := s.ledger.segmentTurns + 1,
                             undecodable := s.ledger.undecodable + if IsUndecodable(outcome) then 1 else 0)
    && r.decoderCalls == s.decoderCalls + CallsFor(outcome)
    && (if Carried(outcome) == [] then
          !Holds(s.slots[index], k.playout) && r.slots == s.slots
        else
          && Holds(s.slots[index], k.playout) && Carried(outcome) == [s.slots[index].bytes]
          && r.slots == s.slots[index := s.slots[index].(stamp := 0)])
    && r.counters == s.counters.(
         concealed := s.counters.concealed + (if IsConcealed(outcome) then 1 else 0),
         concealedFrames := s.counters.concealedFrames + (if IsConcealed(outcome) then c.packetFrames else 0),
         trims := s.counters.trims + (if IsTrim(outcome) then 1 else 0),
         dropped := s.counters.dropped + (if IsUndecodable(outcome) then 1 else 0))
  }

  lemma TrimConsumes(e: Environment, c: Settings, s: State)
    requires PacketSized(c, s)
    ensures Consumes(c, s, Trim(e, c, s), TrimOutcome(e, c, s))
  {
  }

  /** The fields that regulate playout, as opposed to what is heard. */
  predicate SameCursor(k: Consumer, r: Consumer) {
    && r.playout == k.playout && r.primed == k.primed && r.observedEpoch == k.observedEpoch
    && r.currentOffset == k.currentOffset
    && r.previousHighest == k.previousHighest && r.stalledPackets == k.stalledPackets
  }

  lemma SoundKeepsCursor(e: Environment, c: Settings, k: Consumer, decay: bool, decoded: seq<Sample>)
    ensures SameCursor(k, Extrapolate(e, c, k, decay))
    ensures |decoded| == c.packetFrames ==> SameCursor(k, Recover(e, c, k, decoded))
  {
  }

  function NextOutcome(e: Environment, c: Settings, s: State): Outcome
    requires |s.slots| == c.slotCount > 0
  {
    var slot := s.slots[SlotOf(c, s.consumer.playout)];
    if !Holds(slot, s.consumer.playout) then Lost
    else if |e.decode(s.decoderCalls, slot.bytes)| == c.packetFrames then Played(slot.bytes)
    else Undecodable(slot.bytes)
  }

  lemma LossConsumes(e: Environment, c: Settings, s: State)
    requires PacketSized(c, s) && NextOutcome(e, c, s) == Lost
    ensures Consumes(c, s, PlayNext(e, c, s), Lost)
  {
    SoundKeepsCursor(e, c, s.consumer, true, []);
    hide Extrapolate;
  }

  lemma DecodedConsumes(e: Environment, c: Settings, s: State)
    requires PacketSized(c, s) && NextOutcome(e, c, s).Played?
    ensures Consumes(c, s, PlayNext(e, c, s), NextOutcome(e, c, s))
  {
    var slot := s.slots[SlotOf(c, s.consumer.playout)];
    SoundKeepsCursor(e, c, s.consumer, true, e.decode(s.decoderCalls, slot.bytes));
    hide Recover;
  }

  lemma UndecodableConsumes(e: Environment, c: Settings, s: State)
    requires PacketSized(c, s) && NextOutcome(e, c, s).Undecodable?
    ensures Consumes(c, s, PlayNext(e, c, s), NextOutcome(e, c, s))
  {
    var slot := s.slots[SlotOf(c, s.consumer.playout)];
    SoundKeepsCursor(e, c, s.consumer, true, []);
    assert s.decoderCalls + [Decode(slot.bytes)] + [Conceal] == s.decoderCalls + [Decode(slot.bytes), Conceal];
    hide Extrapolate;
  }

  lemma PlayConsumes(e: Environment, c: Settings, s: State)
    requires PacketSized(c, s)
    ensures Consumes(c, s, PlayNext(e, c, s), NextOutcome(e, c, s))
  {
    hide PlayNext, Consumes;
    match NextOutcome(e, c, s) {
      case Lost => LossConsumes(e, c, s);
      case Played(_) => DecodedConsumes(e, c, s);
      case Undecodable(_) => UndecodableConsumes(e, c, s);
    }
  }

  lemma SlottedAppend(slots: seq<Slot>, slot: Slot)
    ensures Slotted(slots + [slot]) == Slotted(slots) + Contents(slot)
  {
    assert (slots + [slot])[..|slots|] == slots;
  }

  lemma Swapped(a: multiset<Packet>, b: multiset<Packet>, x: multiset<Packet>,
                out: multiset<Packet>, into: multiset<Packet>)
    requires a + out == b + into
    ensures (a + x) + out == (b + x) + into
  {
    assert (a + x) + out == (a + out) + x;
  }

  lemma {:induction false} SlottedUpdate(slots: seq<Slot>, i: nat, slot: Slot)
    requires i < |slots|
    ensures Slotted(slots[i := slot]) + Contents(slots[i]) == Slotted(slots) + Contents(slot)
  {
    hide Slotted, Contents;
    var last := |slots| - 1;
    var front := slots[..last];
    SlottedAppend(front, slots[last]);
    assert front + [slots[last]] == slots;
    if i < last {
      SlottedUpdate(front, i, slot);
      SlottedAppend(front[i := slot], slots[last]);
      assert front[i := slot] + [slots[last]] == slots[i := slot];
      Swapped(Slotted(front[i := slot]), Slotted(front), Contents(slots[last]), Contents(slots[i]), Contents(slot));
    } else {
      SlottedAppend(front, slot);
      assert front + [slot] == slots[i := slot];
    }
  }

  lemma CountAppend(turns: seq<Turn>, t: Turn, kind: Outcome -> bool)
    ensures Count(turns + [t], kind) == Count(turns, kind) + if kind(t.outcome) then 1 else 0
  {
    assert (turns + [t])[..|turns|] == turns;
  }

  lemma RenderingAppend(turns: seq<Turn>, t: Turn)
    ensures Rendering(turns + [t]) == Rendering(turns) + CallsFor(t.outcome)
    ensures Consumed(turns + [t]) == Consumed(turns) + Spent(t)
  {
    assert (turns + [t])[..|turns|] == turns;
  }

  lemma EmptyKeepsSlots(c: Settings, slots: seq<Slot>, index: nat, filed: seq<Packet>)
    requires c.slotCount > 0 && index < |slots| && SlotsSound(c, slots, filed)
    ensures SlotsSound(c, slots[index := slots[index].(stamp := 0)], filed)
  {
    hide SlotOf, LastFiled;
  }

  /** Emptying a slot moves its packet from the ring to the consumed turns. */
  lemma SpendConserves(slots: seq<Slot>, index: nat, filed: seq<Packet>,
                       turns: seq<Turn>, reclaimed: seq<Packet>, t: Turn)
    requires index < |slots| && Conserved(slots, filed, turns, reclaimed)
    requires Holds(slots[index], t.sequence) && Carried(t.outcome) == [slots[index].bytes]
    ensures Conserved(slots[index := slots[index].(stamp := 0)], filed, turns + [t], reclaimed)
  {
    hide Slotted, Consumed, Contents, Spent, Rendering, CallsFor, Carried, Holds;
    var emptied := slots[index := slots[index].(stamp := 0)];
    RenderingAppend(turns, t);
    SlottedUpdate(slots, index, emptied[index]);
    HeldIsSpent(slots[index], t);
    SpentLeaves(multiset(filed), Slotted(slots), Slotted(emptied), Consumed(turns), multiset(reclaimed), Spent(t));
  }

  lemma HeldIsSpent(slot: Slot, t: Turn)
    requires Holds(slot, t.sequence) && Carried(t.outcome) == [slot.bytes]
    ensures Contents(slot) == Spent(t) && Contents(slot.(stamp := 0)) == multiset{}
  {
  }

  lemma SpentLeaves(whole: multiset<Packet>, left: multiset<Packet>, less: multiset<Packet>,
              spent: multiset<Packet>, rest: multiset<Packet>, x: multiset<Packet>)
    requires whole == left + spent + rest && less + x == left + multiset{}
    ensures whole == less + (spent + x) + rest
  {
    assert left == less + x;
  }

  lemma ConsumesKeepsPackets(c: Settings, s: State, r: State, outcome: Outcome)
    requires |s.slots| == c.slotCount > 0 && Consumes(c, s, r, outcome)
    requires SlotsSound(c, s.slots, s.ledger.filed)
    requires Conserved(s.slots, s.ledger.filed, s.ledger.turns, s.ledger.reclaimed)
    requires s.decoderCalls == Rendering(s.ledger.turns)
    ensures SlotsSound(c, r.slots, r.ledger.filed)
    ensures Conserved(r.slots, r.ledger.filed, r.ledger.turns, r.ledger.reclaimed)
    ensures r.decoderCalls == Rendering(r.ledger.turns)
  {
    var t := Turn(s.ledger.segment, s.consumer.playout, outcome);
    RenderingAppend(s.ledger.turns, t);
    if Carried(outcome) != [] {
      EmptyKeepsSlots(c, s.slots, SlotOf(c, s.consumer.playout), s.ledger.filed);
      SpendConserves(s.slots, SlotOf(c, s.consumer.playout), s.ledger.filed,
                     s.ledger.turns, s.ledger.reclaimed, t);
    }
  }

  lemma ConsumesKeepsTallies(c: Settings, s: State, r: State, outcome: Outcome)
    requires |s.slots| == c.slotCount > 0 && Consumes(c, s, r, outcome)
    requires Accounted(s.counters, s.ledger.filed, s.ledger.submits, s.ledger.undecodable)
    requires Tallied(s.counters, s.ledger.turns, s.ledger.undecodable)
    ensures Accounted(r.counters, r.ledger.filed, r.ledger.submits, r.ledger.undecodable)
    ensures Tallied(r.counters, r.ledger.turns, r.ledger.undecodable)
  {
    var t := Turn(s.ledger.segment, s.consumer.playout, outcome);
    CountAppend(s.ledger.turns, t, IsUndecodable);
    CountAppend(s.ledger.turns, t, IsConcealed);
    CountAppend(s.ledger.turns, t, IsTrim);
  }

  lemma OneMorePacket(c: Settings, before: Counters, after: Counters)
    requires FramesTallied(c, before)
    requires after.concealed + after.stretches == before.concealed + before.stretches + 1
    requires after.concealedFrames == before.concealedFrames + c.packetFrames
    ensures FramesTallied(c, after)
  {
    var total := before.concealed + before.stretches;
    assert c.packetFrames * (total + 1) == c.packetFrames * total + c.packetFrames;
  }

  lemma TurnKeepsOrder(playout: Sequence, turns: seq<Turn>, segment: nat, origin: Sequence, count: nat, t: Turn)
    requires InOrder(turns) && CurrentSegment(playout, turns, segment, origin, count)
    requires segment > 0 && t.segment == segment && t.sequence == playout
    ensures InOrder(turns + [t])
    ensures CurrentSegment(Plus(playout, 1), turns + [t], segment, origin, count + 1)
  {
    PlusPlus(origin, count, 1);
    var start := |turns| - count;
    forall i | start <= i < |turns|
      ensures playout == Plus(turns[i].sequence, |turns| - i)
    {
      PlusPlus(origin, i - start, |turns| - i);
    }
  }

  lemma ConsumesKeepsOrder(c: Settings, s: State, r: State, outcome: Outcome)
    requires |s.slots| == c.slotCount > 0 && Consumes(c, s, r, outcome)
    requires Ordered(s) && s.ledger.segment > 0
    ensures Ordered(r)
  {
    TurnKeepsOrder(s.consumer.playout, s.ledger.turns, s.ledger.segment, s.ledger.origin, s.ledger.segmentTurns,
                   Turn(s.ledger.segment, s.consumer.playout, outcome));
  }

  lemma ConsumesKeepsFrames(c: Settings, s: State, r: State, outcome: Outcome)
    requires |s.slots| == c.slotCount > 0 && Consumes(c, s, r, outcome)
    requires FramesTallied(c, s.counters)
    ensures FramesTallied(c, r.counters)
  {
    if IsConcealed(outcome) {
      OneMorePacket(c, s.counters, r.counters);
    }
  }

  lemma ConsumesKeepsInvariant(c: Settings, s: State, r: State, outcome: Outcome)
    requires Invariant(c, s) && s.consumer.primed && Consumes(c, s, r, outcome) && PacketSized(c, r)
    ensures Invariant(c, r)
  {
    hide SlotsSound, Conserved, Accounted, Tallied, FramesTallied, Rendering, CallsFor, Carried, InOrder, CurrentSegment;
    ConsumesKeepsPackets(c, s, r, outcome);
    ConsumesKeepsTallies(c, s, r, outcome);
    ConsumesKeepsOrder(c, s, r, outcome);
    ConsumesKeepsFrames(c, s, r, outcome);
  }

  // -------------------------------------------------------------- the consumer

  lemma StretchKeepsInvariant(e: Environment, c: Settings, s: State, decay: bool)
    requires Invariant(c, s)
    ensures Invariant(c, Stretch(e, c, s, decay))
  {
    OneMorePacket(c, s.counters, Stretch(e, c, s, decay).counters);
  }

  lemma PrimeKeepsInvariant(c: Settings, s: State)
    requires Invariant(c, s) && CanPrime(s) && !s.consumer.primed
    ensures Invariant(c, Prime(s))
  {
    PrimeKeepsOrder(s.consumer.playout, s.ledger.turns, s.ledger.segment, s.ledger.origin, s.ledger.segmentTurns,
                    Prime(s).consumer.playout);
    hide CurrentSegment, InOrder, SlotsSound, Conserved, Accounted, Tallied, FramesTallied, Rendering;
  }

  lemma PrimeKeepsOrder(playout: Sequence, turns: seq<Turn>, segment: nat, origin: Sequence, count: nat, start: Sequence)
    requires CurrentSegment(playout, turns, segment, origin, count)
    ensures CurrentSegment(start, turns, segment + 1, start, 0)
  {
  }

  lemma WatchKeepsInvariant(c: Settings, s: State)
    requires Invariant(c, s)
    ensures Invariant(c, WatchArrivals(s))
  {
  }

  lemma RegulateKeepsInvariant(e: Environment, c: Settings, s: State)
    requires Invariant(c, s) && s.consumer.primed
    ensures Invariant(c, Regulate(e, c, s))
  {
    hide Invariant, Consumes, Trim, PlayNext, WatchArrivals, NextOutcome, TrimOutcome, Stretch, Distance;
    var w := WatchArrivals(s);
    WatchOnlyConsumer(s);
    WatchKeepsInvariant(c, s);
    if TooShallow(w) {
      StretchKeepsInvariant(e, c, w, w.consumer.stalledPackets >= STALL_LIMIT);
    } else {
      var t := if TooDeep(w) then Trim(e, c, w) else w;
      if TooDeep(w) {
        TrimConsumes(e, c, w);
        ConsumesKeepsInvariant(c, w, t, TrimOutcome(e, c, w));
      }
      PlayConsumes(e, c, t);
      ConsumesKeepsInvariant(c, t, PlayNext(e, c, t), NextOutcome(e, c, t));
    }
  }

  lemma BeginKeepsInvariant(e: Environment, c: Settings, s: State)
    requires Invariant(c, s)
    ensures Invariant(c, BeginPacket(e, c, s))
  {
    var o := Observe(s);
    assert Invariant(c, o);
    if o.consumer.primed {
      RegulateKeepsInvariant(e, c, o);
    } else if CanPrime(o) {
      PrimeKeepsInvariant(c, o);
      RegulateKeepsInvariant(e, c, Prime(o));
    }
  }

  lemma SilenceKeepsInvariant(c: Settings, s: State, frames: nat)
    requires Invariant(c, s)
    ensures Invariant(c, Silence(s, frames))
  {
  }

  function AtOffset(s: State, offset: nat): State {
    s.(consumer := s.consumer.(currentOffset := offset))
  }

  lemma OffsetKeepsInvariant(c: Settings, s: State, offset: nat)
    requires Invariant(c, s) && offset <= c.packetFrames
    ensures Invariant(c, AtOffset(s, offset))
  {
  }

  /** Kept by packets, offsets and silence. */
  ghost predicate Kept(e: Environment, c: Settings, keeps: State -> bool) {
    && (forall t | PacketSized(c, t) && keeps(t) :: keeps(BeginPacket(e, c, t)))
    && (forall t, offset: nat | keeps(t) && offset <= c.packetFrames :: keeps(AtOffset(t, offset)))
    && (forall t, n: nat | keeps(t) :: keeps(Silence(t, n)))
  }

  /** What packets, offsets and silence keep, a pull keeps. */
  lemma {:induction false} PullKeeps(e: Environment, c: Settings, s: State, frames: nat, keeps: State -> bool)
    requires PacketSized(c, s) && keeps(s) && Kept(e, c, keeps)
    ensures keeps(Pull(e, c, s, frames).state)
    decreases frames
  {
    hide CanBegin, BeginPacket, Silence, Pull, Window, Kept, Ready, Chunk;
    PullStops(e, c, s, frames);
    if frames == 0 {
    } else if s.consumer.currentOffset < c.packetFrames || CanBegin(s) {
      PullUnfold(e, c, s, frames);
      var chunk := Chunk(e, c, s, frames);
      ChunkKeeps(e, c, s, chunk, keeps);
      PullKeeps(e, c, Advance(Ready(e, c, s), chunk), frames - chunk, keeps);
    } else {
      StopKeeps(e, c, s, frames, keeps);
    }
  }

  lemma ChunkKeeps(e: Environment, c: Settings, s: State, chunk: nat, keeps: State -> bool)
    requires PacketSized(c, s) && keeps(s) && Kept(e, c, keeps)
    requires s.consumer.currentOffset < c.packetFrames || CanBegin(s)
    requires Ready(e, c, s).consumer.currentOffset + chunk <= c.packetFrames
    ensures keeps(Advance(Ready(e, c, s), chunk))
  {
    hide CanBegin, BeginPacket, Silence;
    var ready := Ready(e, c, s);
    assert ready == s || ready == AtOffset(BeginPacket(e, c, s), 0);
    assert Advance(ready, chunk) == AtOffset(ready, ready.consumer.currentOffset + chunk);
  }

  lemma StopKeeps(e: Environment, c: Settings, s: State, frames: nat, keeps: State -> bool)
    requires PacketSized(c, s) && keeps(s) && Kept(e, c, keeps)
    ensures keeps(Silence(BeginPacket(e, c, s), frames))
  {
    hide BeginPacket, Silence, AtOffset;
  }

  lemma PullKeepsInvariant(e: Environment, c: Settings, s: State, frames: nat)
    requires Invariant(c, s) && PacketSized(c, s)
    ensures Invariant(c, Pull(e, c, s, frames).state)
  {
    hide BeginPacket, Invariant, Silence, Pull;
    forall t | PacketSized(c, t) && Invariant(c, t) ensures Invariant(c, BeginPacket(e, c, t)) {
      BeginKeepsInvariant(e, c, t);
    }
    forall t, offset: nat | Invariant(c, t) && offset <= c.packetFrames ensures Invariant(c, AtOffset(t, offset)) {
      OffsetKeepsInvariant(c, t, offset);
    }
    forall t, n: nat | Invariant(c, t) ensures Invariant(c, Silence(t, n)) {
      SilenceKeepsInvariant(c, t, n);
    }
    PullKeeps(e, c, s, frames, t => Invariant(c, t));
  }
}
