/** The outgoing pacer as an object: a release schedule in front of a resampler it owns. */
module OutgoingAudioPacer {
  import opened ModularArithmetic
  import opened ResamplerModel
  import opened PacerModel
  import opened Samples
  import opened AsyncMonoResampler

  /** The converter's size: the first power of two, from 64, that holds twice the backlog limit. */
  method ConverterCapacity(maximumBacklog: nat) returns (capacity: nat)
    ensures capacity == Doubled(64, 2 * maximumBacklog)
  {
    capacity := 64;
    while capacity < maximumBacklog * 2
      invariant capacity >= 64 && IsPowerOfTwo(capacity)
      invariant Doubled(capacity, 2 * maximumBacklog) == Doubled(64, 2 * maximumBacklog)
      decreases 2 * maximumBacklog - capacity
    {
      capacity := capacity * 2;
    }
  }

  class Sender {
    const config: Config
    const converter: Resampler
    const scratch: array<Sample>
    var sourceRate: nat
    var next: nat
    var lastDrain: nat
    var released: nat
    var accepted: nat
    var discarded: nat
    var starved: nat

    ghost predicate Valid()
      reads this, converter, converter.samples
    {
      && converter.Valid() && converter.capacity == config.Capacity()
      && Sane(config, Value())
      && scratch.Length == config.packetFrames && scratch != converter.samples
    }

    ghost function Value(): Pacer
      reads this, converter
    {
      Pacer(sourceRate, next, lastDrain, released, accepted, discarded, starved, converter.state)
    }

    constructor (packetFrames: nat, networkRate: nat, maximumBacklog: nat)
      requires Config(packetFrames, networkRate, maximumBacklog).Valid()
      ensures Valid() && Value() == Fresh() && config == Config(packetFrames, networkRate, maximumBacklog)
      ensures fresh(converter) && fresh(converter.samples) && fresh(scratch)
    {
      config := Config(packetFrames, networkRate, maximumBacklog);
      var capacity := ConverterCapacity(maximumBacklog);
      converter := new Resampler(capacity);
      scratch := new Sample[packetFrames](_ => 0.0);
      sourceRate, next, lastDrain, released, accepted, discarded, starved := 0, 0, 0, 0, 0, 0, 0;
    }

    method SetSourceRate(rate: nat) returns (allowed: bool)
      requires Valid()
      modifies this, converter
      ensures Valid() && Value() == PacerModel.SetSourceRate(config, old(Value()), rate)
      ensures allowed <==> rate == old(sourceRate) || RateAllowed(rate)
    {
      if rate == sourceRate {
        return true;
      }
      allowed := converter.TryConfigure(rate, config.networkRate);
      if !allowed {
        return false;
      }
      sourceRate, next := rate, 0;
    }

    method Reset()
      requires Valid()
      modifies this, converter
      ensures Valid() && Value() == PacerModel.Reset(old(Value()))
    {
      converter.Clear();
      next, released, accepted, discarded, starved := 0, 0, 0, 0, 0;
    }

    method Accept(captured: seq<Float>)
      requires Valid()
      modifies this, converter, converter.samples, scratch
      ensures Valid() && Value() == PacerModel.Accept(config, old(Value()), |captured|)
    {
      AcceptKeepsSane(config, Value(), |captured|);
      if |captured| == 0 || sourceRate == 0 {
        return;
      }
      accepted := accepted + |captured|;
      var taken := converter.Write(captured);
      DiscardBacklogBeyondLimit();
    }

    method DiscardBacklogBeyondLimit()
      requires converter.Valid() && converter.capacity == config.Capacity() && config.Valid()
      requires scratch.Length == config.packetFrames && scratch != converter.samples
      modifies this`discarded, converter, scratch
      ensures converter.Valid()
      ensures var was := old(converter.state);
              var r := if AvailableFrames(was) <= config.maximumBacklog then Trimmed(was, 0)
                       else TrimTo(config.Capacity(), was, config.packetFrames, 2 * Required(config, sourceRate));
              converter.state == r.converter && discarded == old(discarded) + r.discarded
    {
      if AvailableFrames(converter.state) <= config.maximumBacklog {
        return;
      }
      var target := Required(config, sourceRate) * 2;
      ghost var whole := TrimTo(config.Capacity(), converter.state, config.packetFrames, target);
      while AvailableFrames(converter.state) > target
        invariant converter.Valid() && discarded >= old(discarded)
        invariant whole == Trimmed(TrimTo(config.Capacity(), converter.state, config.packetFrames, target).converter,
                                   TrimTo(config.Capacity(), converter.state, config.packetFrames, target).discarded
                                   + discarded - old(discarded))
        decreases AvailableFrames(converter.state)
      {
        hide AfterRead, FaithfulRun, PlanRead;
        var before := AvailableFrames(converter.state);
        var produced := converter.Read(scratch);
        var after := AvailableFrames(converter.state);
        if after >= before {
          break;
        }
        discarded := discarded + (before - after);
      }
    }

    method DrainStandingBacklog(now: nat)
      requires Valid()
      modifies this`next, this`lastDrain
      ensures Valid() && Value() == Drain(config, old(Value()), now)
    {
      if now == lastDrain {
        return;
      }
      lastDrain := now;
      if AvailableFrames(converter.state) <= Required(config, sourceRate) * 2 {
        return;
      }
      var pullIn := config.Interval() / 8;
      next := if next > pullIn then next - pullIn else 0;
    }

    method CountPrimingDiscard(before: nat)
      requires config.Valid()
      modifies this`discarded
      ensures discarded == old(discarded)
                           + PrimingDiscard(config, sourceRate, before, AvailableFrames(converter.state))
    {
      var after := AvailableFrames(converter.state);
      if before <= after {
        return;
      }
      var expected := Nominal(config, sourceRate);
      if before - after > expected + 2 {
        discarded := discarded + (before - after - expected);
      }
    }

    /** Fills and releases a packet when one is due and its audio is waiting. */
    method Release(now: nat, packet: array<Sample>) returns (sent: bool)
      requires Valid() && packet != converter.samples
      modifies this, converter, packet
      ensures Valid()
      ensures packet.Length != config.packetFrames ==> !sent && Value() == old(Value())
      ensures packet.Length == config.packetFrames ==>
                var r := PacerModel.Release(config, old(Value()), now);
                Value() == r.pacer && sent == r.sent
      ensures converter.stream == old(converter.stream)
      ensures sent ==>
                && Configured(old(converter.state))
                && var plan := PlanRead(config.Capacity(), old(converter.state), packet.Length);
                plan.Paced? && FaithfulRun(converter.stream, plan.start, plan.step, packet[..])
    {
      ReleaseKeepsSane(config, Value(), now);
      if packet.Length != config.packetFrames || sourceRate == 0 {
        return false;
      }
      if next == 0 || now + config.Interval() < next {
        next := now;
      }
      if next + config.MaximumDeficit() < now {
        next := now - config.MaximumDeficit();
      }
      if now < next {
        DrainStandingBacklog(now);
        return false;
      }
      if AvailableFrames(converter.state) < Required(config, sourceRate) {
        starved := starved + 1;
        return false;
      }
      hide AfterRead, PlanRead, FaithfulRun, AvailableFrames, Required, PrimingDiscard, Sound;
      sent := SendPacket(packet);
    }

    /** Reads a packet's worth and, if that filled it, moves the deadline on. */
    method SendPacket(packet: array<Sample>) returns (sent: bool)
      requires converter.Valid() && converter.capacity == config.Capacity() && config.Valid()
      requires packet != converter.samples && packet.Length == config.packetFrames
      modifies this, converter, packet
      ensures converter.Valid() && converter.stream == old(converter.stream)
      ensures var was := old(Value());
              var r := AfterRead(config.Capacity(), was.converter, config.packetFrames);
              var lost := PrimingDiscard(config, was.sourceRate, AvailableFrames(was.converter), AvailableFrames(r.state));
              var read := was.(converter := r.state, discarded := was.discarded + lost);
              && (sent <==> r.produced == config.packetFrames)
              && Value() == if sent then read.(next := read.next + config.Interval(), released := read.released + 1)
                            else read.(starved := read.starved + 1)
      ensures sent ==>
                && Configured(old(converter.state))
                && var plan := PlanRead(config.Capacity(), old(converter.state), packet.Length);
                plan.Paced? && FaithfulRun(converter.stream, plan.start, plan.step, packet[..])
    {
      hide AfterRead, PlanRead, FaithfulRun, AvailableFrames, PrimingDiscard;
      var backlogBefore := AvailableFrames(converter.state);
      var produced := converter.Read(packet);
      CountPrimingDiscard(backlogBefore);
      if produced != packet.Length {
        starved := starved + 1;
        return false;
      }
      assert packet[..produced] == packet[..];
      next := next + config.Interval();
      released := released + 1;
      return true;
    }
  }
}
