/** The cursor of a playing receiver never passes one beyond the newest packet, in any run. */
module ReceiverBacklog {
  import opened CircularSequence
  import opened ReceiverModel
  import opened ReceiverIntegrity
  import opened ReceiverRuns
  import opened ReceiverRegulation

  /** The most that so many submissions can put the newest packet ahead of the cursor. */
  function Reach(c: Settings, submits: nat): nat { (submits + 1) * (c.slotCount / 2) }

  lemma ReachGrows(c: Settings, submits: nat)
    ensures Reach(c, submits + 1) == Reach(c, submits) + c.slotCount / 2
    ensures Reach(c, submits) >= c.slotCount / 2
  {
    assert submits * (c.slotCount / 2) >= 0;
  }

  /** `d` packets are due: the cursor reaches one beyond the newest after exactly `d` turns. */
  ghost predicate Due(c: Settings, s: State, d: nat) {
    Plus(s.producer.highest, 1) == Plus(s.consumer.playout, d) && d <= Reach(c, s.ledger.submits)
  }

  /** A playing receiver that has seen every resync has some number of packets due, never a deficit. */
  ghost predicate Ahead(c: Settings, s: State) {
    s.consumer.primed && s.consumer.observedEpoch == s.producer.resyncEpoch ==> exists d: nat :: Due(c, s, d)
  }

  lemma DueIsDepth(c: Settings, s: State, d: nat)
    requires Due(c, s, d) && d < HALF
    ensures DepthOf(s) == d
  {
    hide Plus, Distance, Reach;
    PlusZero(s.consumer.playout);
    DistanceOfPlus(s.consumer.playout, d, 0);
    PlusPlus(s.producer.highest, 1, -1);
    PlusZero(s.producer.highest);
    DistanceShift(Plus(s.producer.highest, 1), s.consumer.playout, -1, 0);
  }

  lemma RegulateKeepsDue(e: Environment, c: Settings, s: State, d: nat)
    requires Settled(c, s) && Due(c, s, d)
    ensures Ahead(c, Regulate(e, c, s))
  {
    var m := MotionAt(DepthOf(s), s.depth.target);
    RegulateMoves(e, c, s);
    if d < HALF { DueIsDepth(c, s, d); }
    hide Regulate, Settled, Due, DepthOf, Moved;
    MovedIsDue(c, s, Regulate(e, c, s), m, d);
  }

  lemma MovedIsDue(c: Settings, s: State, r: State, m: Motion, d: nat)
    requires Moved(c, s, r, m.turns, m.stretches, m.trims) && Due(c, s, d) && m.turns <= d
    ensures Due(c, r, d - m.turns)
  {
    PlusPlus(s.consumer.playout, m.turns, d - m.turns);
    hide Plus, Reach, Settled;
  }

  lemma PrimeIsDue(c: Settings, s: State)
    requires DepthSound(c, s.depth)
    ensures Due(c, Prime(s), s.depth.target)
  {
    var target: int := s.depth.target;
    PlusPlus(s.producer.highest, 1 - target, target);
    ReachGrows(c, s.ledger.submits);
    hide Plus, Reach;
  }

  lemma BeginKeepsAhead(e: Environment, c: Settings, s: State)
    requires Invariant(c, s) && PacketSized(c, s) && Ahead(c, s)
    ensures Ahead(c, BeginPacket(e, c, s))
  {
    InvariantPlays(c, s);
    hide Invariant, Regulate, Due, DepthSound, DepthOf;
    var o := Observe(s);
    if o.consumer.primed {
      var d: nat :| Due(c, s, d);
      RegulateKeepsDue(e, c, s, d);
    } else if CanPrime(o) {
      PrimeIsDue(c, o);
      RegulateKeepsDue(e, c, Prime(o), o.depth.target);
    }
  }

  lemma InvariantPlays(c: Settings, s: State)
    requires Invariant(c, s)
    ensures c.Valid() && DepthSound(c, s.depth) && s.consumer.observedEpoch <= s.producer.resyncEpoch
    ensures s.consumer.primed ==> s.producer.hasFirst
  {
  }

  lemma SubmitKeepsAhead(c: Settings, s: State, sequence: Sequence, payload: Payload, arrival: nat)
    requires Invariant(c, s) && PacketSized(c, s) && c.Valid() && Ahead(c, s)
    ensures Ahead(c, Submit(c, s, sequence, payload, arrival))
  {
    InvariantPlays(c, s);
    hide Invariant;
    var r := Submit(c, s, sequence, payload, arrival);
    SubmitMovesNewest(c, s, sequence, payload, arrival);
    hide Submit;
    if r.consumer.primed && r.consumer.observedEpoch == r.producer.resyncEpoch {
      var d: nat :| Due(c, s, d);
      ReachGrows(c, s.ledger.submits);
      var jump := Distance(r.producer.highest, s.producer.highest);
      DistanceSpansModulus(r.producer.highest, s.producer.highest);
      PlusPlus(s.producer.highest, jump, 1);
      PlusPlus(s.producer.highest, 1, jump);
      PlusPlus(s.consumer.playout, d, jump);
      hide Plus, Distance, Reach;
      assert Due(c, r, d + jump);
    }
  }

  /** A submission counts itself, leaves the cursor alone and moves the newest number forwards by at most
      half a ring, unless it is taken for a restart of the numbering. */
  lemma SubmitMovesNewest(c: Settings, s: State, sequence: Sequence, payload: Payload, arrival: nat)
    requires PacketSized(c, s) && c.Valid()
    ensures var r := Submit(c, s, sequence, payload, arrival);
            && r.consumer == s.consumer && r.ledger.submits == s.ledger.submits + 1
            && s.producer.resyncEpoch <= r.producer.resyncEpoch
            && (s.producer.hasFirst && r.producer.resyncEpoch == s.producer.resyncEpoch ==>
                  0 <= Distance(r.producer.highest, s.producer.highest) <= c.slotCount / 2)
  {
    if payload != [] && |payload| <= c.maximumPacketBytes {
      MeasureKeeps(c, Rebase(c, s.producer, sequence), sequence, arrival);
    }
    hide Measure, Retarget, SlotOf, Classify;
  }

  lemma StepKeepsAhead(e: Environment, c: Settings, s: State, op: Op)
    requires Invariant(c, s) && PacketSized(c, s) && c.Valid() && Ahead(c, s)
    ensures Ahead(c, Step(e, c, s, op))
  {
    hide Submit, Pull, Invariant, Due, BeginPacket;
    match op {
      case Arrive(sequence, payload, at) => SubmitKeepsAhead(c, s, sequence, payload, at);
      case Render(frames) => PullKeepsAhead(e, c, s, frames);
      case Retune(minimum, maximum, safety) => SameDue(c, s, ConfigureDepth(c, s, minimum, maximum, safety));
      case Restart => assert !Reset(c, s).consumer.primed;
    }
  }

  ghost predicate Both(c: Settings, s: State) { Invariant(c, s) && Ahead(c, s) }

  /** What is due does not depend on the offset in the current packet, the voice or the counters. */
  lemma SameDue(c: Settings, s: State, r: State)
    requires Ahead(c, s) && r.producer == s.producer && r.ledger == s.ledger
    requires r.consumer.playout == s.consumer.playout && r.consumer.primed == s.consumer.primed
    requires r.consumer.observedEpoch == s.consumer.observedEpoch
    ensures Ahead(c, r)
  {
    if r.consumer.primed && r.consumer.observedEpoch == r.producer.resyncEpoch {
      var d: nat :| Due(c, s, d);
      assert Due(c, r, d);
    }
  }

  lemma PullKeepsAhead(e: Environment, c: Settings, s: State, frames: nat)
    requires Invariant(c, s) && PacketSized(c, s) && Ahead(c, s)
    ensures Ahead(c, Pull(e, c, s, frames).state)
  {
    hide Invariant, BeginPacket, Pull, Ahead;
    forall t | PacketSized(c, t) && Both(c, t) ensures Both(c, BeginPacket(e, c, t)) {
      BeginKeepsInvariant(e, c, t);
      BeginKeepsAhead(e, c, t);
    }
    forall t, offset: nat | Both(c, t) && offset <= c.packetFrames ensures Both(c, AtOffset(t, offset)) {
      OffsetKeepsInvariant(c, t, offset);
      SameDue(c, t, AtOffset(t, offset));
    }
    forall t, n: nat | Both(c, t) ensures Both(c, Silence(t, n)) {
      SilenceKeepsInvariant(c, t, n);
      SameDue(c, t, Silence(t, n));
    }
    hide AtOffset, Silence;
    PullKeeps(e, c, s, frames, t => Both(c, t));
  }

  lemma {:induction false} RunKeepsAhead(e: Environment, c: Settings, s: State, ops: seq<Op>)
    requires c.Valid() && PacketSized(c, s) && Invariant(c, s) && Ahead(c, s)
    ensures Ahead(c, Run(e, c, s, ops))
    decreases ops
  {
    hide Step, Invariant, Ahead;
    if ops != [] {
      var before := ops[..|ops| - 1];
      RunKeepsInvariant(e, c, s, before);
      RunKeepsAhead(e, c, s, before);
      StepKeepsAhead(e, c, Run(e, c, s, before), ops[|ops| - 1]);
    }
  }

  /** In every run, a playing receiver that has seen every resync has its cursor at most one beyond the newest
      packet: the signed 32-bit depth is the number of packets due, and not negative, as long as the
      submissions so far cannot have put the newest packet 2^31 ahead. */
  lemma PlayoutNeverPassesNewest(e: Environment, c: Settings, s: State)
    requires Reachable(e, c, s) && s.consumer.primed && s.consumer.observedEpoch == s.producer.resyncEpoch
    ensures exists d: nat :: Due(c, s, d) && (d < HALF ==> DepthOf(s) == d)
    ensures Reach(c, s.ledger.submits) < HALF ==> DepthOf(s) >= 0
  {
    hide Invariant;
    var ops :| s == Run(e, c, Initial(c), ops);
    assert Initial(c) == Started(c, Initial(c).depth);
    RunKeepsAhead(e, c, Initial(c), ops);
    hide Run, Reachable;
    var d: nat :| Due(c, s, d);
    if d < HALF { DueIsDepth(c, s, d); }
  }
}
