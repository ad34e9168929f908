/** What the pacer sends and what it loses: consecutive packets, and which losses its counter shows. */
module PacerLaws {
  import opened Bounds
  import opened ModularArithmetic
  import opened ResamplerModel
  import opened ResamplerControl
  import opened PacerModel
  import opened PacerSchedule

  // ---------------------------------------------------------------- starting

  /** A pacer that is reset is a new one at the same rate. */
  lemma ResetIsNew(config: Config, p: Pacer)
    requires Sane(config, p) && p.sourceRate > 0
    ensures Reset(p) == SetSourceRate(config, Fresh(), p.sourceRate).(lastDrain := p.lastDrain)
    ensures var r := Reset(p);
            && r.released == r.accepted == r.discarded == r.starved == 0
            && AvailableFrames(r.converter) == 0 && Fresh().sourceRate == 0
  {
  }

  /** Another supported rate restarts converter and schedule and keeps the counts; any other is refused. */
  lemma RateChangeRestarts(config: Config, p: Pacer, rate: nat)
    requires config.Valid()
    ensures var r := SetSourceRate(config, p, rate);
            && (rate == p.sourceRate || !(8_000 <= rate <= 384_000) ==> r == p)
            && (rate != p.sourceRate && 8_000 <= rate <= 384_000 ==>
                  && r.sourceRate == r.converter.sourceRate == rate && r.converter.destinationRate == config.networkRate
                  && AvailableFrames(r.converter) == 0 && !r.converter.primed && r.next == 0
                  && r == p.(sourceRate := rate, next := 0, converter := r.converter))
  {
  }

  /** Until it is given a rate a pacer takes nothing in and sends nothing. */
  lemma NothingWithoutARate(config: Config, p: Pacer, count: nat, now: nat)
    requires config.Valid() && p.sourceRate == 0
    ensures Accept(config, p, count) == p && Release(config, p, now) == ReleaseResult(p, false)
  {
  }

  /** The converter's ring is the least of 64, 128, 256, ... that holds the permitted backlog twice. */
  lemma RingIsLeastThatHolds(config: Config)
    ensures var capacity := config.Capacity();
            && IsPowerOfTwo(capacity) && capacity >= 64 && capacity >= 2 * config.maximumBacklog
            && (capacity > 64 ==> capacity / 2 < 2 * config.maximumBacklog)
  {
  }

  /** The working backlog is no larger than it has to be: at 44.1 kHz into packets of 128 frames at 48 kHz, a new
      converter with one frame less gives nothing. */
  lemma OneFrameLessIsTooFew(config: Config, p: Pacer)
    requires config.packetFrames == 128 && config.networkRate == 48_000 && p.sourceRate == 44_100
    requires Sane(config, p) && config.maximumBacklog >= 512 && !p.converter.primed
    requires p.converter.written as real - p.converter.cursor == (Required(config, 44_100) - 1) as real
    ensures AfterRead(config.Capacity(), p.converter, 128).produced == 0
  {
    var capacity := config.Capacity();
    assert 128 * 44_100 / 48_000 == 117;
    assert 44_100 as real / 48_000 as real == 0.918_75;
    assert NominalStep(p.converter) == 0.918_75;
    assert TargetFill(capacity, p.converter, 128) == 235.2;
  }

  // ---------------------------------------------------------------- sending

  /** A packet that is sent is a whole read of the converter, which stays primed; the next one starts exactly where it
      ended, and only a converter that was not primed skips anything before it. */
  lemma PacketsAreConsecutive(config: Config, p: Pacer, now: nat)
    requires Sane(config, p) && Release(config, p, now).sent
    ensures var r, size := Release(config, p, now).pacer, config.packetFrames;
            && Configured(p.converter)
            && var plan := PlanRead(config.Capacity(), p.converter, size);
            && plan.Paced? && plan.start >= p.converter.cursor
            && (p.converter.primed ==> plan.start == p.converter.cursor)
            && r.converter.cursor == Position(plan.start, plan.step, size) && r.converter.primed
            && Configured(r.converter)
            && (var next := PlanRead(config.Capacity(), r.converter, size);
                next.Paced? && next.start == r.converter.cursor)
  {
    var capacity, size := config.Capacity(), config.packetFrames;
    assert AfterRead(capacity, p.converter, size).produced == size;
    ReadCounts(capacity, p.converter, size);
    AfterReadSound(capacity, p.converter, size);
    StepFollowsBacklog(capacity, p.converter, size);
    PlanStartsAhead(capacity, p.converter, size);
    ReadEnds(capacity, p.converter, size);
    StepFollowsBacklog(capacity, AfterRead(capacity, p.converter, size).state, size);
    ReleaseReads(config, p, now);
    hide AfterRead, PlanRead, NominalStep, Sound, Position, WorkingFill, Release;
  }

  lemma PlanStartsAhead(capacity: nat, s: State, size: nat)
    requires Configured(s) && capacity >= 64 && PlanRead(capacity, s, size).Paced?
    ensures PlanRead(capacity, s, size).start >= s.cursor
  {
  }

  lemma ReadEnds(capacity: nat, s: State, size: nat)
    requires capacity >= 64 && Configured(s) && size > 0 && AfterRead(capacity, s, size).produced == size
    ensures var plan, r := PlanRead(capacity, s, size), AfterRead(capacity, s, size).state;
            plan.Paced? && r.cursor == Position(plan.start, plan.step, size)
  {
    hide Position, PlanRead;
  }

  lemma ReleaseReads(config: Config, p: Pacer, now: nat)
    requires config.Valid() && Release(config, p, now).sent
    ensures p.sourceRate > 0
    ensures var read := AfterRead(config.Capacity(), p.converter, config.packetFrames);
            read.produced == config.packetFrames && Release(config, p, now).pacer.converter == read.state
  {
    hide AfterRead, PrimingDiscard;
  }

  /** Of the frames a sent packet takes off the backlog, all but those of one packet and two to spare are counted as
      discarded, and if any are, all but exactly those of one packet. */
  lemma UncountedIsOnePacket(config: Config, p: Pacer, now: nat)
    requires config.Valid() && Release(config, p, now).sent
    ensures var r := Release(config, p, now).pacer;
            var taken := AvailableFrames(p.converter) - AvailableFrames(r.converter);
            var counted := r.discarded - p.discarded;
            && counted >= 0 && taken - counted <= Nominal(config, p.sourceRate) + 2
            && (counted > 0 ==> taken - counted == Nominal(config, p.sourceRate))
            && (taken <= Nominal(config, p.sourceRate) + 2 ==> counted == 0)
  {
    hide AfterRead, AvailableFrames, Nominal;
  }

  // ---------------------------------------------------------------- what is lost on the way in

  /** What comes in is waiting afterwards or counted as discarded, if and only if the converter's ring did not overrun:
      frames it displaces for want of room, and a block as large as the ring, are lost without being counted. */
  lemma LossOnArrivalIsCountedIff(config: Config, p: Pacer, count: nat)
    requires Sane(config, p) && p.sourceRate > 0 && count > 0
    ensures var r := Accept(config, p, count);
            && r.accepted == p.accepted + count
            && (AvailableFrames(r.converter) + r.discarded - p.discarded == AvailableFrames(p.converter) + count
                <==> !Overruns(config.Capacity(), p.converter, count))
            && AvailableFrames(r.converter) + r.discarded - p.discarded <= AvailableFrames(p.converter) + count
  {
    AcceptBoundsBacklog(config, p, count);
    ArrivalWaits(config.Capacity(), p.converter, count);
    hide AfterWrite, AvailableFrames, Overruns, TrimTo, Sound;
  }

  lemma ArrivalWaits(capacity: nat, s: State, count: nat)
    requires Sound(capacity, s) && count > 0
    ensures var waiting := AvailableFrames(AfterWrite(capacity, s, count));
            && (waiting == AvailableFrames(s) + count <==> !Overruns(capacity, s, count))
            && waiting <= AvailableFrames(s) + count
  {
    WriteDropsLeast(capacity, s, count);
    var r := AfterWrite(capacity, s, count);
    WaitingFrames(s, r, count);
    hide AfterWrite, Sound;
  }

  lemma WaitingFrames(s: State, r: State, count: nat)
    requires count > 0
    ensures r.cursor == s.cursor && r.written == s.written ==> AvailableFrames(r) == AvailableFrames(s)
    ensures r.written == s.written + count && Fetched(s) <= r.cursor <= r.written as real
            && r.cursor - Fetched(s) == (r.cursor - Fetched(s)).Floor as real ==>
              AvailableFrames(r) == AvailableFrames(s) + count - (r.cursor - Fetched(s)).Floor
  {
    if r.written == s.written + count && Fetched(s) <= r.cursor <= r.written as real
       && r.cursor - Fetched(s) == (r.cursor - Fetched(s)).Floor as real {
      var moved := (r.cursor - Fetched(s)).Floor;
      var before := s.written as real - Fetched(s);
      assert r.written as real - r.cursor == before + (count - moved) as real;
      FloorShift(before, count - moved);
    }
  }

  lemma FloorShift(x: real, n: int)
    ensures (x + n as real).Floor == x.Floor + n
  {
  }
}
