/** The pacer over whole runs: its deadline ledger, bursts at one instant, and what releases cost. */
module PacerSchedule {
  import opened ModularArithmetic
  import opened ResamplerModel
  import opened PacerModel
  import opened PacerGuard

  // ---------------------------------------------------------------- what a release costs

  /** Where the guard suffices, a packet goes out exactly when it is due and its audio is waiting, and
      a release that sends nothing takes nothing from the backlog. */
  lemma DueReleaseSends(config: Config, p: Pacer, now: nat)
    requires Sane(config, p) && p.sourceRate > 0 && GuardCondition(config, p.sourceRate)
    ensures var r := Release(config, p, now);
            && (r.sent <==> Scheduled(config, p, now).next <= now
                            && AvailableFrames(p.converter) >= Required(config, p.sourceRate))
            && (!r.sent ==> r.pacer.converter == p.converter && r.pacer.discarded == p.discarded)
  {
    if AvailableFrames(p.converter) >= Required(config, p.sourceRate) {
      GuardHolds(config, p.sourceRate, p.converter);
    }
    hide AfterRead, AvailableFrames, Required, GuardCondition;
  }

  /** Outside the guard's condition the loss does happen: a new pacer given one block of exactly what the
      guard asks for opens the guard, reads, and cannot fill the packet. */
  lemma FirstReleaseFallsShort(config: Config, sourceRate: nat, now: nat)
    requires config.Valid() && RateAllowed(sourceRate) && !GuardCondition(config, sourceRate)
    ensures var p := Accept(config, SetSourceRate(config, Fresh(), sourceRate), Required(config, sourceRate));
            && p.sourceRate == sourceRate && AvailableFrames(p.converter) >= Required(config, sourceRate)
            && Scheduled(config, p, now).next <= now && !Release(config, p, now).sent
  {
    var held := Required(config, sourceRate);
    var p := Accept(config, SetSourceRate(config, Fresh(), sourceRate), held);
    GuardBreaks(config, sourceRate);
    assert AfterWrite(config.Capacity(), Holding(config, sourceRate, 0), held) == Holding(config, sourceRate, held);
    assert p.converter == Holding(config, sourceRate, held);
    hide AfterRead, GuardCondition, Required, AfterWrite;
  }

  // ---------------------------------------------------------------- backlog

  /** Where the guard is open, a read takes at least one whole frame off the backlog. */
  lemma ReadMakesProgress(config: Config, sourceRate: nat, s: State)
    requires config.Valid() && RateAllowed(sourceRate) && GuardCondition(config, sourceRate)
    requires Sound(config.Capacity(), s) && s.sourceRate == sourceRate && s.destinationRate == config.networkRate
    requires AvailableFrames(s) >= Required(config, sourceRate)
    ensures AvailableFrames(AfterRead(config.Capacity(), s, config.packetFrames).state) < AvailableFrames(s)
  {
    var capacity, size := config.Capacity(), config.packetFrames;
    GuardHolds(config, sourceRate, s);
    GuardOpensWithin(capacity, s);
    NominalIsFloor(config, s);
    if s.primed {
      PrimedPlan(capacity, s, size);
      CursorAfterPacket(capacity, s, size);
    } else {
      UnprimedStart(capacity, s, size);
    }
    hide AfterRead, Span, NominalStep, PlanRead;
  }

  lemma CursorAfterPacket(capacity: nat, s: State, size: nat)
    requires Configured(s) && capacity >= 64 && size > 0 && s.primed
    requires AfterRead(capacity, s, size).produced == size && Span(s, size) >= 7.0
    ensures var r := AfterRead(capacity, s, size).state; r.written == s.written && r.cursor >= s.cursor + 1.0
  {
    StepNearNominal(capacity, s, size);
    var step := PlanRead(capacity, s, size).step;
  }

  lemma UnprimedStart(capacity: nat, s: State, size: nat)
    requires Configured(s) && capacity >= 64 && size > 0 && !s.primed
    requires AfterRead(capacity, s, size).produced == size
    ensures var r := AfterRead(capacity, s, size).state; r.written == s.written && r.cursor >= s.cursor + 1.0
  {
    PrimingPlan(capacity, s, size);
    var target := TargetFill(capacity, s, size);
    hide TargetFill, NominalStep, Position;
  }

  /** Trimming counts exactly the frames it removes, and where the guard suffices it reaches its target. */
  lemma {:induction false} TrimReachesTarget(config: Config, s: State, target: nat)
    requires config.Valid() && Sound(config.Capacity(), s)
    ensures var t := TrimTo(config.Capacity(), s, config.packetFrames, target);
            && t.discarded == AvailableFrames(s) - AvailableFrames(t.converter)
            && (AvailableFrames(s) <= target ==> t == Trimmed(s, 0))
            && (GuardedTarget(config, s, target) ==> AvailableFrames(t.converter) <= target)
    decreases AvailableFrames(s)
  {
    if AvailableFrames(s) > target {
      var after := AfterRead(config.Capacity(), s, config.packetFrames).state;
      AfterReadSound(config.Capacity(), s, config.packetFrames);
      if GuardedTarget(config, s, target) {
        ReadMakesProgress(config, s.sourceRate, s);
      }
      NoMoreToRead(s, after);
      hide AfterRead, AvailableFrames, GuardCondition, Required, Sound;
      if AvailableFrames(after) < AvailableFrames(s) {
        TrimReachesTarget(config, after, target);
      }
    }
  }

  /** The converter runs at rates for which the guard suffices, and the target is what the guard asks for. */
  predicate GuardedTarget(config: Config, s: State, target: nat)
    requires config.Valid()
  {
    && RateAllowed(s.sourceRate) && s.destinationRate == config.networkRate
    && GuardCondition(config, s.sourceRate) && target >= Required(config, s.sourceRate)
  }

  lemma NoMoreToRead(s: State, after: State)
    requires after.written == s.written && after.cursor >= s.cursor
    ensures AvailableFrames(after) <= AvailableFrames(s)
  {
  }

  /** After any block, every frame trimmed is counted; where the guard suffices, the backlog is within the
      limit or trimmed to the working fill. */
  lemma AcceptBoundsBacklog(config: Config, p: Pacer, count: nat)
    requires Sane(config, p) && p.sourceRate > 0 && count > 0
    ensures var written := AfterWrite(config.Capacity(), p.converter, count);
            var r := Accept(config, p, count);
            && r.discarded == p.discarded + AvailableFrames(written) - AvailableFrames(r.converter)
            && (AvailableFrames(written) <= config.maximumBacklog ==> r.converter == written)
            && (AvailableFrames(written) > config.maximumBacklog && GuardCondition(config, p.sourceRate) ==>
                  AvailableFrames(r.converter) <= 2 * Required(config, p.sourceRate))
  {
    var written := AfterWrite(config.Capacity(), p.converter, count);
    AfterWriteSound(config.Capacity(), p.converter, count);
    hide AfterWrite, Sound, AvailableFrames, GuardCondition;
    TrimReachesTarget(config, written, 2 * Required(config, p.sourceRate));
    hide TrimTo, Required;
  }

  // ---------------------------------------------------------------- bursts

  /** Packets sent by a loop of calls at one instant, up to the first call that sends nothing. */
  function Burst(config: Config, p: Pacer, now: nat, calls: nat): nat
    requires config.Valid()
    decreases calls
  {
    if calls == 0 || !Release(config, p, now).sent then 0
    else 1 + Burst(config, Release(config, p, now).pacer, now, calls - 1)
  }

  lemma SentMovesDeadline(config: Config, p: Pacer, now: nat)
    requires config.Valid() && Release(config, p, now).sent
    ensures var due := Scheduled(config, p, now).next;
            && due <= now <= due + config.MaximumDeficit()
            && Scheduled(config, Release(config, p, now).pacer, now).next == due + config.Interval()
  {
    hide AfterRead, Required, AvailableFrames, PrimingDiscard;
  }

  lemma {:induction false} BurstSpans(config: Config, p: Pacer, now: nat, calls: nat)
    requires config.Valid() && Burst(config, p, now, calls) > 0
    ensures Burst(config, p, now, calls) * config.Interval()
            <= now - Scheduled(config, p, now).next + config.Interval()
    decreases calls
  {
    hide Release, Scheduled;
    SentMovesDeadline(config, p, now);
    var after := Release(config, p, now).pacer;
    var rest := Burst(config, after, now, calls - 1);
    if rest > 0 {
      BurstSpans(config, after, now, calls - 1);
      assert (rest + 1) * config.Interval() == rest * config.Interval() + config.Interval();
    }
  }

  /** A release loop at one instant sends at most one packet more than the largest deficit holds. */
  lemma BurstIsBounded(config: Config, p: Pacer, now: nat, calls: nat)
    requires config.Valid()
    ensures Burst(config, p, now, calls) <= config.MaximumDeficit() / config.Interval() + 1
  {
    hide Config.Interval, Config.MaximumDeficit, Burst, Scheduled;
    if Burst(config, p, now, calls) > 0 {
      BurstSpans(config, p, now, calls);
      FirstOfBurst(config, p, now, calls);
      PacketsIn(Burst(config, p, now, calls), config.Interval(), now - Scheduled(config, p, now).next,
                config.MaximumDeficit());
    }
  }

  lemma FirstOfBurst(config: Config, p: Pacer, now: nat, calls: nat)
    requires config.Valid() && Burst(config, p, now, calls) > 0
    ensures now - Scheduled(config, p, now).next <= config.MaximumDeficit()
  {
    SentMovesDeadline(config, p, now);
  }

  lemma PacketsIn(sent: nat, interval: nat, span: int, limit: nat)
    requires sent > 0 && interval > 0 && sent * interval <= span + interval && span <= limit
    ensures sent <= limit / interval + 1
  {
    var d := sent - 1 - limit / interval;
    assert d * interval == sent * interval - interval - (limit / interval) * interval;
    MultipleFar(d, interval);
  }

  // ---------------------------------------------------------------- the deadline ledger

  datatype Op = Capture(frames: nat) | Poll(now: nat) | Retune(rate: nat) | Restart

  /** A pacer and what happened to its deadline since it was set at `start` with `baseline` packets sent:
      microseconds forgiven, drains, and how many different clock readings it was polled at. */
  datatype Tracked = Tracked(
    pacer: Pacer, clock: nat, start: nat, baseline: nat, forgiven: nat, drains: nat, readings: nat)

  /** The deficit beyond the largest one allowed. */
  function Excess(config: Config, next: nat, now: nat): nat
    requires config.Valid()
  {
    if next + config.MaximumDeficit() < now then now - config.MaximumDeficit() - next else 0
  }

  /** A poll ahead of the deadline drains if it is the first at its instant and finds a standing backlog. */
  predicate Drains(config: Config, p: Pacer, now: nat)
    requires config.Valid()
  {
    now < p.next && now != p.lastDrain && AvailableFrames(p.converter) > 2 * Required(config, p.sourceRate)
  }

  function Follow(config: Config, t: Tracked, op: Op): Tracked
    requires config.Valid()
  {
    match op
    case Capture(frames) => t.(pacer := Accept(config, t.pacer, frames))
    case Retune(rate) => t.(pacer := SetSourceRate(config, t.pacer, rate))
    case Restart => t.(pacer := Reset(t.pacer))
    case Poll(now) =>
      var p, r := t.pacer, Release(config, t.pacer, now).pacer;
      if p.sourceRate == 0 then t.(pacer := r, clock := now)
      else if p.next == 0 then Tracked(r, now, now, p.released, 0, 0, 1)
      else
        t.(pacer := r, clock := now,
           forgiven := t.forgiven + Excess(config, p.next, now),
           drains := t.drains + (if Drains(config, p, now) then 1 else 0),
           readings := t.readings + if now == t.clock then 0 else 1)
  }

  function FollowAll(config: Config, t: Tracked, ops: seq<Op>): Tracked
    requires config.Valid()
    decreases |ops|
  {
    if ops == [] then t else FollowAll(config, Follow(config, t, ops[0]), ops[1..])
  }

  /** The clock never goes back, and starts at one packet interval or later. */
  predicate Forward(config: Config, clock: nat, ops: seq<Op>)
    requires config.Valid()
    decreases |ops|
  {
    ops == [] ||
    if ops[0].Poll? then clock <= ops[0].now && config.Interval() <= ops[0].now && Forward(config, ops[0].now, ops[1..])
    else Forward(config, clock, ops[1..])
  }

  /** An interval for each packet, less an eighth of one for each drain. */
  function Owed(config: Config, packets: int, drains: int): int
    requires config.Valid()
  {
    config.Interval() * packets - config.Interval() / 8 * drains
  }

  lemma OwesMore(config: Config, packets: int, drains: int, sent: bool, drained: bool)
    requires config.Valid()
    ensures Owed(config, packets + (if sent then 1 else 0), drains + if drained then 1 else 0) ==
            Owed(config, packets, drains) + (if sent then config.Interval() else 0)
            - if drained then config.Interval() / 8 else 0
    ensures Owed(config, 0, 0) == 0
  {
  }

  /** A running deadline is its start, one interval for each packet sent and every deficit forgiven, less an
      eighth of an interval for each drain; it is at most one interval ahead of the clock, and no clock
      reading drained twice. */
  ghost predicate Ledger(config: Config, t: Tracked) {
    && config.Valid() && t.pacer.lastDrain <= t.clock
    && (t.pacer.next > 0 ==>
          && t.pacer.sourceRate > 0 && t.start <= t.clock && t.baseline <= t.pacer.released
          && t.pacer.next == t.start + Owed(config, t.pacer.released - t.baseline, t.drains) + t.forgiven
          && t.pacer.next <= t.clock + config.Interval()
          && t.drains + (if t.pacer.lastDrain == t.clock then 0 else 1) <= t.readings <= t.clock - t.start + 1)
  }

  /** One poll as far as the deadline goes. */
  lemma PollMovesDeadline(config: Config, p: Pacer, now: nat)
    requires config.Valid() && p.sourceRate > 0 && config.Interval() <= now
    requires 0 < p.next <= now + config.Interval()
    ensures var r := Release(config, p, now);
            && r.pacer.next == p.next + Excess(config, p.next, now) + (if r.sent then config.Interval() else 0)
                               - (if Drains(config, p, now) then config.Interval() / 8 else 0)
            && 0 < r.pacer.next <= now + config.Interval()
            && r.pacer.released == p.released + (if r.sent then 1 else 0)
            && r.pacer.lastDrain in {p.lastDrain, now} && (Drains(config, p, now) ==> r.pacer.lastDrain == now)
  {
    hide AfterRead, Required, AvailableFrames, PrimingDiscard;
  }

  lemma PollKeepsLedger(config: Config, t: Tracked, now: nat)
    requires Ledger(config, t) && t.clock <= now && config.Interval() <= now
    ensures Ledger(config, Follow(config, t, Poll(now)))
    ensures t.pacer.next > 0 ==> var r := Follow(config, t, Poll(now));
                                 r.pacer.next > 0 && r.start == t.start && r.baseline == t.baseline
  {
    var p := t.pacer;
    if p.sourceRate > 0 && p.next > 0 {
      PollMovesDeadline(config, p, now);
      OwesMore(config, p.released - t.baseline, t.drains, Release(config, p, now).sent, Drains(config, p, now));
      hide Release, Drains, Excess, Owed, Config.Interval;
    } else {
      OwesMore(config, 0, 0, true, false);
      hide AfterRead, Required, AvailableFrames, PrimingDiscard, Owed;
    }
  }

  /** Over any run on a forward clock, with captures, rate changes and resets in between, the deadline is
      accounted for to the microsecond; only a rate change or a reset sets it anew. */
  lemma {:induction false} DeadlineLedger(config: Config, t: Tracked, ops: seq<Op>)
    requires Ledger(config, t) && Forward(config, t.clock, ops)
    ensures var r := FollowAll(config, t, ops);
            && Ledger(config, r)
            && (t.pacer.next > 0 && (forall op | op in ops :: op.Capture? || op.Poll?) ==>
                  r.pacer.next > 0 && r.start == t.start && r.baseline == t.baseline)
    decreases |ops|
  {
    if ops != [] {
      var op := ops[0];
      assert op in ops && forall later | later in ops[1..] :: later in ops;
      if op.Capture? {
      } else if op.Poll? {
        PollKeepsLedger(config, t, op.now);
      }
      hide Release, Accept, Config.Interval, Owed;
      DeadlineLedger(config, Follow(config, t, op), ops[1..]);
    }
  }

  /** So while a deadline runs, the wire is never ahead of the clock by more than one packet and an eighth of
      a packet for each drain, at most one drain for each different instant polled. */
  lemma NeverAheadOfTheClock(config: Config, t: Tracked, ops: seq<Op>)
    requires Ledger(config, t) && Forward(config, t.clock, ops) && FollowAll(config, t, ops).pacer.next > 0
    ensures var r := FollowAll(config, t, ops);
            && config.Interval() * (r.pacer.released - r.baseline)
               <= r.clock - r.start + config.Interval() + config.Interval() / 8 * r.drains
            && r.drains <= r.readings <= r.clock - r.start + 1
  {
    DeadlineLedger(config, t, ops);
    hide FollowAll, Config.Interval;
  }

  /** Both hold of every run of a new pacer. */
  lemma EveryRunIsAccounted(config: Config, ops: seq<Op>)
    requires config.Valid() && Forward(config, 0, ops)
    ensures var r := FollowAll(config, Tracked(Fresh(), 0, 0, 0, 0, 0, 0), ops);
            && Ledger(config, r)
            && (r.pacer.next > 0 ==>
                  && config.Interval() * (r.pacer.released - r.baseline)
                     <= r.clock - r.start + config.Interval() + config.Interval() / 8 * r.drains
                  && r.drains <= r.readings <= r.clock - r.start + 1)
  {
    var t := Tracked(Fresh(), 0, 0, 0, 0, 0, 0);
    DeadlineLedger(config, t, ops);
    if FollowAll(config, t, ops).pacer.next > 0 {
      NeverAheadOfTheClock(config, t, ops);
    }
    hide FollowAll, Config.Interval;
  }

  /** A packet that is due but not waiting leaves the deadline where it was; one that is sent moves it by one
      interval. Before that, only a clock that went back or a deficit beyond the limit moves it. */
  lemma StarvedKeepsDeadline(config: Config, p: Pacer, now: nat)
    requires config.Valid() && p.sourceRate > 0
    ensures var r, due := Release(config, p, now), Scheduled(config, p, now).next;
            && (r.sent ==> due <= now && r.pacer.next == due + config.Interval() && r.pacer.starved == p.starved)
            && (!r.sent && due <= now ==> r.pacer.next == due && r.pacer.starved == p.starved + 1)
            && (now < due ==> !r.sent && r.pacer.next <= due && r.pacer.starved == p.starved)
            && (0 < p.next <= now + config.Interval() && now <= p.next + config.MaximumDeficit() ==> due == p.next)
  {
    hide AfterRead, Required, AvailableFrames, PrimingDiscard;
  }
}
