/** Limits of the slot ring: what old stamps keep from new packets, and what filed packets can rely on. */
module ReceiverLimits {
  import opened CircularSequence
  import opened ReceiverModel
  import opened ReceiverIntegrity
  import opened ReceiverRegulation

  /** A resync does not clear old stamps. A packet that is not late and meets another one in its slot is stored
      if and only if the receiver is playing and that one lies before the cursor; otherwise it is dropped
      and the ring is unchanged. */
  lemma OccupiedSlotRefusesUnlessPassed(c: Settings, s: State, sequence: Sequence, payload: Payload)
    requires |s.slots| == c.slotCount > 0 && !(s.consumer.primed && Before(sequence, s.consumer.playout))
    requires var slot := s.slots[SlotOf(c, sequence)];
             slot.stamp != 0 && Occupant(slot).sequence != sequence
    ensures var r := FilePacket(c, s, sequence, payload);
            var previous := Occupant(s.slots[SlotOf(c, sequence)]);
            if Passed(s, previous.sequence) then
              r.slots[SlotOf(c, sequence)] == Slot(sequence + 1, payload) && r.ledger.reclaimed == s.ledger.reclaimed + [previous]
            else
              r == s.(counters := s.counters.(dropped := s.counters.dropped + 1))
  {
    hide SlotOf, Distance;
  }

  /** The receiver is playing and its cursor is beyond a sequence number. */
  predicate Passed(s: State, sequence: Sequence) {
    s.consumer.primed && Before(sequence, s.consumer.playout)
  }

  datatype Move = Offer(sequence: Sequence, payload: Payload, arrival: nat) | Packet

  function Play(e: Environment, c: Settings, s: State, move: Move): (r: State)
    requires c.Valid() && PacketSized(c, s)
    ensures PacketSized(c, r)
  {
    match move
    case Offer(sequence, payload, arrival) => Submit(c, s, sequence, payload, arrival)
    case Packet => BeginPacket(e, c, s)
  }

  function PlayAll(e: Environment, c: Settings, s: State, moves: seq<Move>): (r: State)
    requires c.Valid() && PacketSized(c, s)
    ensures PacketSized(c, r)
    decreases moves
  {
    if moves == [] then s else PlayAll(e, c, Play(e, c, s, moves[0]), moves[1..])
  }

  predicate NeverPasses(e: Environment, c: Settings, s: State, moves: seq<Move>, sequence: Sequence)
    requires c.Valid() && PacketSized(c, s)
    decreases moves
  {
    !Passed(s, sequence) && (moves != [] ==> NeverPasses(e, c, Play(e, c, s, moves[0]), moves[1..], sequence))
  }

  lemma OfferSparesSlot(c: Settings, s: State, move: Move, i: nat, old_: Sequence)
    requires c.Valid() && PacketSized(c, s) && move.Offer? && i < c.slotCount
    requires s.slots[i].stamp == old_ + 1 && !Passed(s, old_)
    ensures Submit(c, s, move.sequence, move.payload, move.arrival).slots[i] == s.slots[i]
  {
    hide Rebase, Measure, Retarget, Distance, SlotOf;
  }

  lemma JustPassed(sequence: Sequence, k: nat)
    requires 1 <= k < HALF
    ensures Before(sequence, Plus(sequence, k))
  {
    PlusZero(sequence);
    DistanceOfPlus(sequence, 0, k);
  }

  lemma TurnSpares(c: Settings, s: State, r: State, outcome: Outcome, i: nat)
    requires |s.slots| == c.slotCount > 0 && Consumes(c, s, r, outcome) && i < c.slotCount
    ensures r.slots[i] == s.slots[i] || Holds(s.slots[i], s.consumer.playout)
    ensures r.consumer.playout == Plus(s.consumer.playout, 1) && r.consumer.primed == s.consumer.primed
  {
    hide SlotOf, Plus;
  }

  lemma PlaySpares(e: Environment, c: Settings, s: State, i: nat)
    requires PacketSized(c, s) && i < c.slotCount
    ensures var r := PlayNext(e, c, s);
            && (r.slots[i] == s.slots[i] || Holds(s.slots[i], s.consumer.playout))
            && r.consumer.playout == Plus(s.consumer.playout, 1) && r.consumer.primed == s.consumer.primed
  {
    PlayConsumes(e, c, s);
    TurnSpares(c, s, PlayNext(e, c, s), NextOutcome(e, c, s), i);
    hide PlayNext, Consumes;
  }

  lemma RegulateSparesSlot(e: Environment, c: Settings, s: State, i: nat, old_: Sequence)
    requires c.Valid() && PacketSized(c, s) && s.consumer.primed && i < c.slotCount && s.slots[i].stamp == old_ + 1
    requires !Passed(Regulate(e, c, s), old_)
    ensures Regulate(e, c, s).slots[i] == s.slots[i]
  {
    var w := WatchArrivals(s);
    WatchOnlyConsumer(s);
    JustPassed(old_, 1);
    JustPassed(old_, 2);
    PlusPlus(s.consumer.playout, 1, 1);
    hide PlayNext, Trim, SlotOf, Plus, Before, DepthOf, Consumes, NextOutcome, WatchArrivals;
    if TooDeep(w) {
      var t := Trim(e, c, w);
      TrimConsumes(e, c, w);
      TurnSpares(c, w, t, TrimOutcome(e, c, w), i);
      PlaySpares(e, c, t, i);
    } else if !TooShallow(w) {
      PlaySpares(e, c, w, i);
    }
  }

  /** The run-level consequence: an old stamp keeps its slot through any arrivals and any packets of playback,
      resyncs and primings included, until the cursor has passed it. So every other packet whose number maps
      to that slot is refused until then. */
  lemma {:induction false} StaleStampKeepsItsSlot(e: Environment, c: Settings, s: State, moves: seq<Move>, i: nat,
                                                  old_: Sequence)
    requires c.Valid() && PacketSized(c, s) && i < c.slotCount && s.slots[i].stamp == old_ + 1
    requires NeverPasses(e, c, s, moves, old_)
    ensures PlayAll(e, c, s, moves).slots[i] == s.slots[i]
    decreases moves
  {
    if moves != [] {
      var next := Play(e, c, s, moves[0]);
      if moves[0].Offer? {
        OfferSparesSlot(c, s, moves[0], i, old_);
      } else if Observe(s).consumer.primed {
        RegulateSparesSlot(e, c, Observe(s), i, old_);
      } else if CanPrime(Observe(s)) {
        RegulateSparesSlot(e, c, Prime(Observe(s)), i, old_);
      }
      hide Submit, Regulate, Distance;
      StaleStampKeepsItsSlot(e, c, next, moves[1..], i, old_);
    }
  }

  // ------------------------------------------------------------ filed packets

  /** A packet lies in its slot and the cursor has not passed it. */
  predicate FiledAhead(c: Settings, s: State, sequence: Sequence, payload: Payload)
    requires |s.slots| == c.slotCount > 0
  {
    s.slots[SlotOf(c, sequence)] == Slot(sequence + 1, payload) && Distance(sequence, s.consumer.playout) >= 0
  }

  /** The turn that a sequence number from the cursor on will have, if playout goes on without a new priming. */
  function TurnOf(s: State, sequence: Sequence): int {
    |s.ledger.turns| + Distance(sequence, s.consumer.playout)
  }

  /** A filed packet waits in its slot, or its turn has come and spent exactly it. */
  ghost predicate WaitsOrSpent(c: Settings, s: State, sequence: Sequence, payload: Payload, turn: int)
    requires |s.slots| == c.slotCount > 0
  {
    if turn >= |s.ledger.turns| then FiledAhead(c, s, sequence, payload) && TurnOf(s, sequence) == turn
    else
      && turn >= 0 && s.ledger.turns[turn].sequence == sequence
      && Carried(s.ledger.turns[turn].outcome) == [payload]
  }

  lemma TurnSpends(c: Settings, s: State, r: State, outcome: Outcome, sequence: Sequence, payload: Payload, turn: int)
    requires |s.slots| == c.slotCount > 0 && Consumes(c, s, r, outcome)
    requires WaitsOrSpent(c, s, sequence, payload, turn)
    ensures WaitsOrSpent(c, r, sequence, payload, turn)
  {
    if turn >= |s.ledger.turns| {
      var playout := s.consumer.playout;
      TurnSpares(c, s, r, outcome, SlotOf(c, sequence));
      DistanceSpansModulus(sequence, playout);
      PlusZero(playout);
      if sequence != playout {
        PlusZero(sequence);
        DistanceShift(sequence, playout, 0, 1);
      }
    }
    hide SlotOf, Distance, Plus, Carried;
  }

  lemma PlaySpends(e: Environment, c: Settings, s: State, sequence: Sequence, payload: Payload, turn: int)
    requires PacketSized(c, s) && WaitsOrSpent(c, s, sequence, payload, turn)
    ensures WaitsOrSpent(c, PlayNext(e, c, s), sequence, payload, turn)
  {
    PlayConsumes(e, c, s);
    TurnSpends(c, s, PlayNext(e, c, s), NextOutcome(e, c, s), sequence, payload, turn);
    hide PlayNext, Consumes, WaitsOrSpent;
  }

  lemma RegulateSpends(e: Environment, c: Settings, s: State, sequence: Sequence, payload: Payload, turn: int)
    requires PacketSized(c, s) && WaitsOrSpent(c, s, sequence, payload, turn)
    ensures WaitsOrSpent(c, Regulate(e, c, s), sequence, payload, turn)
  {
    var w := WatchArrivals(s);
    WatchOnlyConsumer(s);
    assert WaitsOrSpent(c, w, sequence, payload, turn);
    hide PlayNext, Trim, SlotOf, Distance, Consumes, NextOutcome, WatchArrivals, Carried;
    if TooDeep(w) {
      var t := Trim(e, c, w);
      TrimConsumes(e, c, w);
      TurnSpends(c, w, t, TrimOutcome(e, c, w), sequence, payload, turn);
      PlaySpends(e, c, t, sequence, payload, turn);
    } else if !TooShallow(w) {
      PlaySpends(e, c, w, sequence, payload, turn);
    }
  }

  lemma OfferSpends(c: Settings, s: State, move: Move, sequence: Sequence, payload: Payload, turn: int)
    requires c.Valid() && PacketSized(c, s) && move.Offer? && WaitsOrSpent(c, s, sequence, payload, turn)
    ensures WaitsOrSpent(c, Submit(c, s, move.sequence, move.payload, move.arrival), sequence, payload, turn)
  {
    OfferKeepsTurns(c, s, move);
    if turn >= |s.ledger.turns| {
      OfferSparesSlot(c, s, move, SlotOf(c, sequence), sequence);
    }
    hide Submit, SlotOf, Distance, Carried;
  }

  lemma OfferKeepsTurns(c: Settings, s: State, move: Move)
    requires c.Valid() && PacketSized(c, s) && move.Offer?
    ensures Submit(c, s, move.sequence, move.payload, move.arrival).ledger.turns == s.ledger.turns
  {
    hide Rebase, Measure, Retarget, SlotOf, Classify;
  }

  /** A move leaves a settled receiver settled unless it is a resync, which raises the epoch. */
  lemma MoveSettles(e: Environment, c: Settings, s: State, move: Move)
    requires Settled(c, s)
    ensures var r := Play(e, c, s, move);
            && s.producer.resyncEpoch <= r.producer.resyncEpoch
            && (r.producer.resyncEpoch == s.producer.resyncEpoch ==> Settled(c, r))
  {
    if move.Offer? {
      if move.payload != [] && |move.payload| <= c.maximumPacketBytes {
        MeasureKeeps(c, Rebase(c, s.producer, move.sequence), move.sequence, move.arrival);
      }
      hide Measure, Retarget, SlotOf, Classify;
    } else {
      BeginSettled(e, c, s);
      RegulateMoves(e, c, s);
      hide Regulate, BeginPacket;
    }
  }

  lemma {:induction false} EpochsRise(e: Environment, c: Settings, s: State, moves: seq<Move>)
    requires c.Valid() && PacketSized(c, s)
    ensures s.producer.resyncEpoch <= PlayAll(e, c, s, moves).producer.resyncEpoch
    decreases moves
  {
    if moves != [] {
      MoveKeepsEpoch(e, c, s, moves[0]);
      EpochsRise(e, c, Play(e, c, s, moves[0]), moves[1..]);
    }
  }

  lemma MoveKeepsEpoch(e: Environment, c: Settings, s: State, move: Move)
    requires c.Valid() && PacketSized(c, s)
    ensures s.producer.resyncEpoch <= Play(e, c, s, move).producer.resyncEpoch
  {
    if move.Offer? {
      MeasureKeeps(c, Rebase(c, s.producer, move.sequence), move.sequence, move.arrival);
      hide Measure, Retarget, SlotOf, Classify;
    } else {
      BeginKeepsProducer(e, c, s);
      hide BeginPacket;
    }
  }

  lemma BeginKeepsProducer(e: Environment, c: Settings, s: State)
    requires PacketSized(c, s)
    ensures BeginPacket(e, c, s).producer == s.producer
  {
    hide Regulate;
    var o := Observe(s);
    if o.consumer.primed {
      RegulateKeepsProducer(e, c, o);
    } else if CanPrime(o) {
      RegulateKeepsProducer(e, c, Prime(o));
    }
  }

  lemma RegulateKeepsProducer(e: Environment, c: Settings, s: State)
    requires PacketSized(c, s)
    ensures Regulate(e, c, s).producer == s.producer
  {
    var w := WatchArrivals(s);
    PlayConsumes(e, c, w);
    TrimConsumes(e, c, w);
    PlayConsumes(e, c, Trim(e, c, w));
    hide PlayNext, Trim, SlotOf, Carried, CallsFor, NextOutcome, TrimOutcome;
  }

  /** While there is no resync, a filed packet is never lost: through any arrivals and packets of playback it
      waits in its slot until the cursor comes to it, and the turn with its number spends exactly it. */
  lemma {:induction false} FiledPacketIsSpent(e: Environment, c: Settings, s: State, moves: seq<Move>, sequence: Sequence,
                                              payload: Payload, turn: int)
    requires Settled(c, s) && c.Valid() && PacketSized(c, s) && WaitsOrSpent(c, s, sequence, payload, turn)
    requires PlayAll(e, c, s, moves).producer.resyncEpoch == s.producer.resyncEpoch
    ensures var r := PlayAll(e, c, s, moves);
            Settled(c, r) && WaitsOrSpent(c, r, sequence, payload, turn)
    decreases moves
  {
    if moves != [] {
      var next := Play(e, c, s, moves[0]);
      MoveSettles(e, c, s, moves[0]);
      EpochsRise(e, c, next, moves[1..]);
      hide Settled, WaitsOrSpent, Submit, BeginPacket, Regulate;
      if moves[0].Offer? {
        OfferSpends(c, s, moves[0], sequence, payload, turn);
      } else {
        BeginSettled(e, c, s);
        RegulateSpends(e, c, s, sequence, payload, turn);
      }
      FiledPacketIsSpent(e, c, next, moves[1..], sequence, payload, turn);
    }
  }

  /** So every packet accepted while playing is spent by the turn of its number, once playout gets there, unless
      the numbering restarts first. */
  lemma AcceptedPacketIsSpent(e: Environment, c: Settings, s: State, offer: Move, moves: seq<Move>)
    requires Settled(c, s) && c.Valid() && PacketSized(c, s) && offer.Offer?
    requires var t := Play(e, c, s, offer);
             && t.counters.accepted > s.counters.accepted
             && PlayAll(e, c, t, moves).producer.resyncEpoch == s.producer.resyncEpoch
    ensures var r := PlayAll(e, c, Play(e, c, s, offer), moves);
            WaitsOrSpent(c, r, offer.sequence, offer.payload, TurnOf(s, offer.sequence))
  {
    var t := Play(e, c, s, offer);
    AcceptedIsFiled(e, c, s, offer);
    MoveSettles(e, c, s, offer);
    EpochsRise(e, c, t, moves);
    hide Settled, WaitsOrSpent, Submit;
    FiledPacketIsSpent(e, c, t, moves, offer.sequence, offer.payload, TurnOf(s, offer.sequence));
  }

  lemma AcceptedIsFiled(e: Environment, c: Settings, s: State, offer: Move)
    requires Settled(c, s) && c.Valid() && PacketSized(c, s) && offer.Offer?
    requires Play(e, c, s, offer).counters.accepted > s.counters.accepted
    ensures WaitsOrSpent(c, Play(e, c, s, offer), offer.sequence, offer.payload, TurnOf(s, offer.sequence))
  {
    OfferKeepsTurns(c, s, offer);
    hide Rebase, Measure, Retarget, SlotOf, Distance;
  }

  // ------------------------------------------------------------ the fate of a submission

  /** The packet with this number is waiting in the ring. */
  ghost predicate InRing(s: State, sequence: Sequence) {
    exists i :: 0 <= i < |s.slots| && Holds(s.slots[i], sequence)
  }

  /** A packet can take its slot: the slot is empty, or holds one that the cursor has passed. */
  predicate SlotFree(c: Settings, s: State, sequence: Sequence)
    requires |s.slots| == c.slotCount > 0
  {
    var slot := s.slots[SlotOf(c, sequence)];
    slot.stamp == 0 || (slot.stamp != sequence + 1 && Passed(s, Occupant(slot).sequence))
  }

  /** Each submission meets one fate and is counted there and nowhere else: invalid ones are dropped; of the others one
      behind the cursor is late, one whose number is waiting in the ring is a duplicate, one whose slot is free is
      accepted, and counted as reordered if playback has begun and a newer one came before; any other is dropped. */
  lemma FateOfASubmission(c: Settings, s: State, sequence: Sequence, payload: Payload, arrival: nat)
    requires Invariant(c, s)
    ensures var n, r := s.counters, Submit(c, s, sequence, payload, arrival);
            var valid := payload != [] && |payload| <= c.maximumPacketBytes;
            var late := valid && Passed(s, sequence);
            var duplicate := valid && !late && InRing(s, sequence);
            var accepted := valid && !late && !duplicate && SlotFree(c, s, sequence);
            && r.counters.late == n.late + (if late then 1 else 0)
            && r.counters.duplicate == n.duplicate + (if duplicate then 1 else 0)
            && r.counters.accepted == n.accepted + (if accepted then 1 else 0)
            && r.counters.dropped == n.dropped + (if late || duplicate || accepted then 0 else 1)
            && r.counters.reordered == n.reordered
               + (if accepted && s.consumer.primed && Before(sequence, r.producer.highest) then 1 else 0)
            && (if accepted then r.slots == s.slots[SlotOf(c, sequence) := Slot(sequence + 1, payload)]
                else r.slots == s.slots)
  {
    InRingIsInItsSlot(c, s, sequence);
    hide Invariant, InRing;
    if payload != [] && |payload| <= c.maximumPacketBytes {
      var t := CountSubmit(Track(c, s, sequence, arrival));
      TrackKeepsRest(c, s, sequence, arrival);
      FiledByFate(c, t, sequence, payload);
      hide Track, FilePacket, SlotOf, Before;
    }
  }

  /** How the numbering follows the packets: the first one starts it; one more than half a ring from the newest either
      way starts it again, counted as a resync and raising the epoch; a newer one becomes the newest. */
  lemma NumberingFollows(c: Settings, s: State, sequence: Sequence, payload: Payload, arrival: nat)
    requires c.Valid() && PacketSized(c, s) && payload != [] && |payload| <= c.maximumPacketBytes
    ensures var p, r := s.producer, Submit(c, s, sequence, payload, arrival);
            var far := Distance(sequence, p.highest);
            var restart := p.hasFirst && (2 * far > c.slotCount || 2 * far + c.slotCount < 0);
            && r.producer.hasFirst
            && r.producer.first == (if p.hasFirst && !restart then p.first else sequence)
            && r.producer.highest == (if p.hasFirst && !restart && far <= 0 then p.highest else sequence)
            && r.producer.resyncEpoch == p.resyncEpoch + (if restart then 1 else 0)
            && r.counters.resyncs == s.counters.resyncs + (if restart then 1 else 0)
  {
    RebaseFollows(c, s.producer, sequence);
    MeasureKeeps(c, Rebase(c, s.producer, sequence), sequence, arrival);
    SubmitCounts(c, s, sequence, payload, arrival);
    hide Submit, Rebase, Measure, Distance;
  }

  lemma RebaseFollows(c: Settings, p: Producer, sequence: Sequence)
    requires c.Valid()
    ensures var r, far := Rebase(c, p, sequence), Distance(sequence, p.highest);
            var restart := p.hasFirst && (2 * far > c.slotCount || 2 * far + c.slotCount < 0);
            && r.hasFirst
            && r.first == (if p.hasFirst && !restart then p.first else sequence)
            && r.highest == (if p.hasFirst && !restart && far <= 0 then p.highest else sequence)
            && r.resyncEpoch == p.resyncEpoch + (if restart then 1 else 0)
  {
    RingIsEven(c);
    hide Distance;
  }

  lemma SubmitCounts(c: Settings, s: State, sequence: Sequence, payload: Payload, arrival: nat)
    requires c.Valid() && PacketSized(c, s) && payload != [] && |payload| <= c.maximumPacketBytes
    ensures var b, r := Rebase(c, s.producer, sequence), Submit(c, s, sequence, payload, arrival);
            && r.producer == Measure(c, b, sequence, arrival)
            && r.counters.resyncs == s.counters.resyncs + (if b.resyncEpoch != s.producer.resyncEpoch then 1 else 0)
  {
    hide Rebase, Measure, Retarget, Classify, SlotOf;
  }

  lemma RingIsEven(c: Settings)
    requires c.Valid()
    ensures c.slotCount == 2 * (c.slotCount / 2)
  {
  }

  /** A receiver that is not playing starts if and only if it has a packet, and the packets from the first of the
      numbering to the newest are at least the target; it then starts that many before the end. */
  lemma StartsIffEnough(e: Environment, c: Settings, s: State)
    requires PacketSized(c, s) && (!s.consumer.primed || s.consumer.observedEpoch != s.producer.resyncEpoch)
    ensures var p := s.producer;
            CanBegin(s) <==> p.hasFirst && Distance(p.highest, p.first) + 1 >= s.depth.target
    ensures var r := BeginPacket(e, c, s);
            if CanBegin(s) then
              && r.consumer.primed && r.ledger.segment == s.ledger.segment + 1
              && r.ledger.origin == Plus(s.producer.highest, 1 - s.depth.target)
            else r == Observe(s) && !r.consumer.primed && r.ledger == s.ledger
  {
    var o := Observe(s);
    hide Regulate, Distance;
    if CanPrime(o) {
      RegulateKeepsStart(e, c, Prime(o));
    }
  }

  lemma RegulateKeepsStart(e: Environment, c: Settings, s: State)
    requires PacketSized(c, s)
    ensures var r := Regulate(e, c, s);
            && r.consumer.primed == s.consumer.primed && r.ledger.segment == s.ledger.segment
            && r.ledger.origin == s.ledger.origin
  {
    var w := WatchArrivals(s);
    if TooShallow(w) {
      SoundKeepsCursor(e, c, w.consumer, w.consumer.stalledPackets >= STALL_LIMIT, []);
      hide Extrapolate, DepthOf;
    } else {
      PlayConsumes(e, c, w);
      TrimConsumes(e, c, w);
      PlayConsumes(e, c, Trim(e, c, w));
      hide PlayNext, Trim, SlotOf, Carried, CallsFor, NextOutcome, TrimOutcome, DepthOf;
    }
  }

  lemma TrackKeepsRest(c: Settings, s: State, sequence: Sequence, arrival: nat)
    requires c.Valid()
    ensures var t := Track(c, s, sequence, arrival);
            t == s.(producer := t.producer, depth := t.depth, counters := s.counters.(resyncs := t.counters.resyncs))
  {
    hide Rebase, Measure, Retarget;
  }

  lemma FiledByFate(c: Settings, s: State, sequence: Sequence, payload: Payload)
    requires |s.slots| == c.slotCount > 0 && s.slots[SlotOf(c, sequence)].stamp <= MODULUS
    ensures var n, r := s.counters, FilePacket(c, s, sequence, payload);
            var duplicate := !Passed(s, sequence) && s.slots[SlotOf(c, sequence)].stamp == sequence + 1;
            var accepted := !Passed(s, sequence) && !duplicate && SlotFree(c, s, sequence);
            && r.producer == s.producer
            && r.counters == n.(late := n.late + (if Passed(s, sequence) then 1 else 0),
                                duplicate := n.duplicate + (if duplicate then 1 else 0),
                                accepted := n.accepted + (if accepted then 1 else 0),
                                dropped := n.dropped + (if Passed(s, sequence) || duplicate || accepted then 0 else 1),
                                reordered := n.reordered + (if accepted && s.consumer.primed
                                                               && Before(sequence, s.producer.highest) then 1 else 0))
            && r.slots == (if accepted then s.slots[SlotOf(c, sequence) := Slot(sequence + 1, payload)] else s.slots)
  {
    hide SlotOf, Distance;
  }

  lemma InRingIsInItsSlot(c: Settings, s: State, sequence: Sequence)
    requires Invariant(c, s)
    ensures c.Valid() && PacketSized(c, s)
    ensures InRing(s, sequence) <==> s.slots[SlotOf(c, sequence)].stamp == sequence + 1
    ensures s.slots[SlotOf(c, sequence)].stamp <= MODULUS
  {
    hide Conserved, Ordered, LastFiled;
    if InRing(s, sequence) {
      var i :| 0 <= i < |s.slots| && Holds(s.slots[i], sequence);
      assert Occupant(s.slots[i]).sequence == sequence;
    }
  }
}
