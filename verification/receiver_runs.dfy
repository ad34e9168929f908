/** Whole runs of the jitter buffer: any interleaving of arrivals, rendering and retuning. */
module ReceiverRuns {
  import opened CircularSequence
  import opened ModularArithmetic
  import opened ReceiverModel
  import opened ReceiverIntegrity

  datatype Op =
    | Arrive(sequence: Sequence, payload: Payload, arrivalMicroseconds: nat)
    | Render(frames: nat)
    | Retune(minimum: nat, maximum: nat, safety: real)
    | Restart

  function Step(e: Environment, c: Settings, s: State, op: Op): (r: State)
    requires c.Valid() && PacketSized(c, s)
    ensures PacketSized(c, r)
  {
    match op
    case Arrive(sequence, payload, at) => Submit(c, s, sequence, payload, at)
    case Render(frames) => Pull(e, c, s, frames).state
    case Retune(minimum, maximum, safety) => ConfigureDepth(c, s, minimum, maximum, safety)
    case Restart => Reset(c, s)
  }

  // ---------------------------------------------------------------- producer

  lemma SubmitKeepsAnchor(c: Settings, p: Producer, sequence: Sequence, arrival: nat)
    requires c.Valid() && Anchored(p)
    ensures var r := Measure(c, Rebase(c, p, sequence), sequence, arrival);
            && Anchored(r) && r.hasFirst
            && p.resyncEpoch <= r.resyncEpoch <= p.resyncEpoch + 1
            && r.resyncEpoch == Rebase(c, p, sequence).resyncEpoch
  {
    DistanceSpansModulus(sequence, p.highest);
    var b := Rebase(c, p, sequence);
    if b.hasPrevious {
      assert Distance(sequence, b.previousSequence) == Distance(sequence, p.highest);
    }
    var duration := c.PacketDuration();
    var r := Measure(c, b, sequence, arrival);
    assert r.jitter >= 0.0;
  }

  lemma RetargetKeepsDepth(c: Settings, d: Depth, jitter: real)
    requires c.Valid() && DepthSound(c, d)
    ensures DepthSound(c, Retarget(c, d, jitter))
  {
  }

  lemma FileKeepsSlots(c: Settings, slots: seq<Slot>, filed: seq<Packet>, p: Packet)
    requires c.slotCount == |slots| > 0 && SlotsSound(c, slots, filed)
    ensures SlotsSound(c, slots[SlotOf(c, p.sequence) := Slot(p.sequence + 1, p.payload)], filed + [p])
  {
    var index := SlotOf(c, p.sequence);
    assert (filed + [p])[..|filed|] == filed;
    var updated := slots[index := Slot(p.sequence + 1, p.payload)];
    assert Occupant(updated[index]) == p;
    forall i | 0 <= i < |slots|
      ensures LastFiled(c, filed + [p], i) == if i == index then [p] else LastFiled(c, filed, i)
    {
    }
    hide SlotOf;
  }

  lemma FileConserves(slots: seq<Slot>, index: nat, filed: seq<Packet>, turns: seq<Turn>,
                      reclaimed: seq<Packet>, gone: seq<Packet>, p: Packet)
    requires index < |slots| && Conserved(slots, filed, turns, reclaimed)
    requires gone == if slots[index].stamp == 0 then [] else [Occupant(slots[index])]
    ensures Conserved(slots[index := Slot(p.sequence + 1, p.payload)], filed + [p], turns, reclaimed + gone)
  {
    var filled := Slot(p.sequence + 1, p.payload);
    assert Contents(filled) == multiset{p};
    assert Contents(slots[index]) == multiset(gone);
    hide Slotted, Contents, Consumed;
    SlottedUpdate(slots, index, filled);
    Replaced(multiset(filed), Slotted(slots), Slotted(slots[index := filled]), Consumed(turns),
             multiset(reclaimed), multiset(gone), multiset{p});
    assert multiset(filed + [p]) == multiset(filed) + multiset{p};
    assert multiset(reclaimed + gone) == multiset(reclaimed) + multiset(gone);
  }

  lemma Replaced(whole: multiset<Packet>, before: multiset<Packet>, after: multiset<Packet>, spent: multiset<Packet>,
                 rest: multiset<Packet>, gone: multiset<Packet>, x: multiset<Packet>)
    requires whole == before + spent + rest && after + gone == before + x
    ensures whole + x == after + spent + (rest + gone)
  {
    assert whole + x == (before + x) + spent + rest;
  }

  ghost predicate PacketsSound(c: Settings, s: State)
    requires c.slotCount > 0
  {
    && SlotsSound(c, s.slots, s.ledger.filed)
    && Conserved(s.slots, s.ledger.filed, s.ledger.turns, s.ledger.reclaimed)
  }

  lemma FileKeepsPackets(c: Settings, s: State, sequence: Sequence, payload: Payload)
    requires |s.slots| == c.slotCount > 0 && PacketsSound(c, s)
    ensures PacketsSound(c, FilePacket(c, s, sequence, payload))
  {
    hide SlotsSound, Conserved, SlotOf;
    var index := SlotOf(c, sequence);
    var slot := s.slots[index];
    var verdict := Classify(s.consumer.primed, s.consumer.playout, slot, sequence);
    if verdict == Store || verdict == Reclaim {
      var p := Packet(sequence, payload);
      FileKeepsSlots(c, s.slots, s.ledger.filed, p);
      FileConserves(s.slots, index, s.ledger.filed, s.ledger.turns, s.ledger.reclaimed,
                    if verdict == Reclaim then [Occupant(slot)] else [], p);
    }
  }

  /** Filing touches the ring and its counters, and adds exactly one to one of four fates. */
  lemma FileCounts(c: Settings, s: State, sequence: Sequence, payload: Payload)
    requires |s.slots| == c.slotCount > 0 && |s.ledger.filed| == s.counters.accepted
    ensures var r := FilePacket(c, s, sequence, payload);
            && |r.slots| == |s.slots| && |r.ledger.filed| == r.counters.accepted
            && r.counters.accepted + r.counters.duplicate + r.counters.late + r.counters.dropped
               == s.counters.accepted + s.counters.duplicate + s.counters.late + s.counters.dropped + 1
            && r == s.(slots := r.slots,
                       ledger := s.ledger.(filed := r.ledger.filed, reclaimed := r.ledger.reclaimed),
                       counters := s.counters.(accepted := r.counters.accepted, duplicate := r.counters.duplicate,
                                               late := r.counters.late, dropped := r.counters.dropped,
                                               reordered := r.counters.reordered))
  {
    hide Classify, SlotOf;
  }

  lemma TrackKeepsInvariant(c: Settings, s: State, sequence: Sequence, arrival: nat)
    requires Invariant(c, s)
    ensures Invariant(c, Track(c, s, sequence, arrival)) && Track(c, s, sequence, arrival).producer.hasFirst
  {
    hide Rebase, Measure, Retarget, SlotsSound, Conserved, InOrder, CurrentSegment, Rendering, Anchored, DepthSound, Count,
         IsPowerOfTwo, Distance;
    SubmitKeepsAnchor(c, s.producer, sequence, arrival);
    RetargetKeepsDepth(c, s.depth, Measure(c, Rebase(c, s.producer, sequence), sequence, arrival).jitter);
  }

  lemma FileKeepsInvariant(c: Settings, s: State, sequence: Sequence, payload: Payload)
    requires Invariant(c, s) && s.producer.hasFirst
    ensures Invariant(c, FilePacket(c, CountSubmit(s), sequence, payload))
  {
    hide FilePacket, SlotsSound, Conserved, InOrder, CurrentSegment, Rendering, Anchored, DepthSound, IsPowerOfTwo, Count;
    FileKeepsPackets(c, CountSubmit(s), sequence, payload);
    FileCounts(c, CountSubmit(s), sequence, payload);
  }

  lemma SubmitKeepsInvariant(c: Settings, s: State, sequence: Sequence, payload: Payload, arrival: nat)
    requires Invariant(c, s)
    ensures Invariant(c, Submit(c, s, sequence, payload, arrival))
  {
    hide Track, FilePacket, SlotsSound, Conserved, InOrder, CurrentSegment, Rendering, Anchored, DepthSound, Count;
    if payload != [] && |payload| <= c.maximumPacketBytes {
      TrackKeepsInvariant(c, s, sequence, arrival);
      FileKeepsInvariant(c, Track(c, s, sequence, arrival), sequence, payload);
    }
  }

  /** A receiver that has seen nothing, with the depths it is configured for. */
  ghost function Started(c: Settings, d: Depth): (s: State)
    requires c.Valid() && DepthSound(c, d)
    ensures Invariant(c, s)
    ensures s == Initial(c).(depth := d)
  {
    var s := Initial(c).(depth := d);
    BlankRing(c.slotCount);
    assert PacketSized(c, s) && SlotsSound(c, s.slots, s.ledger.filed) && Ordered(s);
    s
  }

  lemma {:induction false} BlankRing(n: nat)
    ensures Slotted(seq(n, _ => Slot(0, []))) == multiset{}
  {
    if n > 0 {
      BlankRing(n - 1);
      assert seq(n, _ => Slot(0, []))[..n - 1] == seq(n - 1, _ => Slot(0, []));
    }
  }

  lemma StepKeepsInvariant(e: Environment, c: Settings, s: State, op: Op)
    requires Invariant(c, s) && PacketSized(c, s)
    ensures Invariant(c, Step(e, c, s, op))
  {
    hide Submit, Pull, Invariant;
    match op {
      case Arrive(sequence, payload, at) => SubmitKeepsInvariant(c, s, sequence, payload, at);
      case Render(frames) => PullKeepsInvariant(e, c, s, frames);
      case Retune(minimum, maximum, safety) => RetuneKeepsInvariant(c, s, minimum, maximum, safety);
      case Restart =>
        InvariantSizes(c, s);
        assert Reset(c, s) == Started(c, s.depth.(target := s.depth.minimum, shrinkHold := 0));
    }
  }

  lemma RetuneKeepsInvariant(c: Settings, s: State, minimum: nat, maximum: nat, safety: real)
    requires Invariant(c, s)
    ensures Invariant(c, ConfigureDepth(c, s, minimum, maximum, safety))
  {
  }

  // ------------------------------------------------------------------- runs

  lemma InvariantSizes(c: Settings, s: State)
    requires Invariant(c, s)
    ensures c.Valid() && PacketSized(c, s) && DepthSound(c, s.depth)
  {
  }

  /** The state after a sequence of operations. */
  function Run(e: Environment, c: Settings, s: State, ops: seq<Op>): (r: State)
    requires c.Valid() && PacketSized(c, s)
    ensures PacketSized(c, r)
    decreases ops
  {
    if ops == [] then s else Step(e, c, Run(e, c, s, ops[..|ops| - 1]), ops[|ops| - 1])
  }

  lemma {:induction false} RunKeepsInvariant(e: Environment, c: Settings, s: State, ops: seq<Op>)
    requires c.Valid() && PacketSized(c, s) && Invariant(c, s)
    ensures Invariant(c, Run(e, c, s, ops))
    decreases ops
  {
    hide Invariant, Step;
    if ops != [] {
      RunKeepsInvariant(e, c, s, ops[..|ops| - 1]);
      StepKeepsInvariant(e, c, Run(e, c, s, ops[..|ops| - 1]), ops[|ops| - 1]);
    }
  }

  /** Some run of a new receiver ends in this state. */
  ghost predicate Reachable(e: Environment, c: Settings, s: State) {
    c.Valid() && exists ops :: s == Run(e, c, Initial(c), ops)
  }

  lemma ReachableIsSound(e: Environment, c: Settings, s: State)
    requires Reachable(e, c, s)
    ensures Invariant(c, s)
  {
    hide Invariant;
    var ops :| s == Run(e, c, Initial(c), ops);
    assert Initial(c) == Started(c, Initial(c).depth);
    RunKeepsInvariant(e, c, Initial(c), ops);
  }

  /** Slot integrity and packet conservation: every occupied slot holds the newest packet filed
      under that index, unaltered, and the packets filed so far are exactly those still slotted,
      those consumed by a playout turn, and those reclaimed. So no packet is consumed more often
      than it was filed, and none is invented. */
  lemma PacketsAreConserved(e: Environment, c: Settings, s: State, p: Packet)
    requires Reachable(e, c, s)
    ensures c.slotCount == |s.slots| > 0 && SlotsSound(c, s.slots, s.ledger.filed)
    ensures multiset(s.ledger.filed)
            == Slotted(s.slots) + Consumed(s.ledger.turns) + multiset(s.ledger.reclaimed)
    ensures Consumed(s.ledger.turns)[p] <= multiset(s.ledger.filed)[p]
  {
    ReachableIsSound(e, c, s);
    hide Reachable, SlotsSound, Slotted, Consumed, Accounted, Tallied, FramesTallied, Rendering, Ordered, DepthSound;
  }

  /** After any run that has seen a packet the timing anchor is the newest sequence number, so jitter goes on
      being measured however wide the gaps were; and the target depth is within its bounds. */
  lemma TimingAnchorFollows(e: Environment, c: Settings, s: State)
    requires Reachable(e, c, s)
    ensures s.producer.hasFirst ==> s.producer.hasPrevious && s.producer.previousSequence == s.producer.highest
    ensures s.producer.jitter >= 0.0 && DepthSound(c, s.depth)
  {
    ReachableIsSound(e, c, s);
    hide Reachable, SlotsSound, Conserved, Ordered, Rendering, Tallied, Accounted, FramesTallied, DepthSound;
  }

  // -------------------------------------------------------------- the decoder

  lemma {:induction false} TurnsByKind(turns: seq<Turn>)
    ensures |turns| == Count(turns, IsPlayed) + Count(turns, IsConcealed) + Count(turns, IsTrim)
  {
    if turns != [] {
      TurnsByKind(turns[..|turns| - 1]);
    }
  }

  /** The decoder is called for playout turns only, and in their order. The cursor has advanced by exactly
      the turns taken since the last priming, and there is at most one priming more than there were resyncs.
      Stretches take no turn, so they reach neither the decoder nor the cursor. */
  lemma DecoderFollowsTurns(e: Environment, c: Settings, s: State)
    requires Reachable(e, c, s)
    ensures s.decoderCalls == Rendering(s.ledger.turns)
    ensures s.ledger.segment <= s.counters.resyncs + 1
    ensures s.consumer.playout == Plus(s.ledger.origin, s.ledger.segmentTurns)
  {
    ReachableIsSound(e, c, s);
    hide Reachable, SlotsSound, Conserved, Rendering, Tallied, FramesTallied, Accounted, DepthSound, InOrder;
  }

  /** Later turns belong to the same or a later priming; within one, numbers count up by one each. */
  ghost predicate Consecutive(turns: seq<Turn>, i: nat, j: nat)
    requires i < j < |turns|
  {
    && turns[i].segment <= turns[j].segment
    && (turns[i].segment == turns[j].segment ==>
          && turns[j].sequence == Plus(turns[i].sequence, j - i)
          && (j - i < MODULUS ==> turns[j].sequence != turns[i].sequence))
  }

  /** Turns of one priming carry consecutive numbers, so within it no number is decoded twice or out of
      order; the turns of the current priming are the last ones. */
  lemma TurnsAreConsecutive(e: Environment, c: Settings, s: State, i: nat, j: nat)
    requires Reachable(e, c, s) && i < j < |s.ledger.turns|
    ensures Consecutive(s.ledger.turns, i, j)
    ensures j >= |s.ledger.turns| - s.ledger.segmentTurns <==> s.ledger.turns[j].segment == s.ledger.segment
  {
    ReachableIsSound(e, c, s);
    hide Reachable, SlotsSound, Conserved, Rendering, Tallied, FramesTallied, Accounted, DepthSound;
  }

  /** The counters are an exact ledger of what happened to packets and to playout positions. */
  lemma CountersAreALedger(e: Environment, c: Settings, s: State)
    requires Reachable(e, c, s)
    ensures var n := s.counters;
            && n.accepted + n.duplicate + n.late + n.dropped == s.ledger.submits + s.ledger.undecodable
            && |s.ledger.turns| == Count(s.ledger.turns, IsPlayed) + n.concealed + n.trims
            && n.concealedFrames == c.packetFrames * (n.concealed + n.stretches)
  {
    hide Reachable, Rendering, InOrder, CurrentSegment, Count, SlotsSound, Conserved, DepthSound, Anchored, IsPowerOfTwo;
    ReachableIsSound(e, c, s);
    TurnsByKind(s.ledger.turns);
  }
}
