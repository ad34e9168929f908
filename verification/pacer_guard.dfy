/** When the pacer's backlog guard is enough for a whole packet: exactly when, and what follows. */
module PacerGuard {
  import opened Bounds
  import opened ModularArithmetic
  import opened ResamplerModel
  import opened PacerModel

  /** Source frames in a packet, as a real number. */
  function Span(s: State, size: nat): real
    requires Configured(s)
  {
    size as real * NominalStep(s)
  }

  lemma NominalIsFloor(config: Config, s: State)
    requires config.networkRate > 0 && s.sourceRate > 0 && s.destinationRate == config.networkRate
    ensures Nominal(config, s.sourceRate) == Span(s, config.packetFrames).Floor
  {
    var n, d, f := config.packetFrames * s.sourceRate, config.networkRate, config.packetFrames;
    var q, r := n / d, n % d;
    assert n == q * d + r;
    var x := s.sourceRate as real / d as real;
    assert x * d as real == s.sourceRate as real;
    assert Span(s, f) * d as real == f as real * s.sourceRate as real;
    assert (f * s.sourceRate) as real == f as real * s.sourceRate as real;
    assert (q * d) as real == q as real * d as real;
    Quotient(Span(s, f), d as real, q, r as real);
  }

  lemma Quotient(x: real, d: real, q: int, r: real)
    requires d > 0.0 && x * d == q as real * d + r && 0.0 <= r < d
    ensures x.Floor == q
  {
    var e := x - q as real;
    assert e * d == r;
    if e < 0.0 { Product(-e, d); } else if e >= 1.0 { Product(e - 1.0, d); }
  }

  lemma Product(a: real, b: real)
    requires a >= 0.0 && b > 0.0
    ensures a * b >= 0.0 && (a > 0.0 ==> a * b > 0.0)
  {
  }

  /** All positions of a block of `size` in steps of `step` from `behind` frames before the end. */
  lemma FillsWithin(written: nat, start: real, step: real, size: nat)
    requires step >= 0.0 && size > 0
    ensures Produced(written, start, step, size) == size <==> written as real - Position(start, step, size - 1) > 1.0
  {
    ProducesAll(written, start, step, size);
  }

  /** A primed converter with the required backlog fills a whole packet under any drift correction. */
  lemma PrimedFills(capacity: nat, s: State, size: nat)
    requires Configured(s) && capacity >= 64 && size > 0 && s.primed
    requires AvailableFrames(s) >= 2 * Span(s, size).Floor + 4
    ensures AfterRead(capacity, s, size).produced == size
  {
    PrimedPlan(capacity, s, size);
    var p := PlanRead(capacity, s, size);
    hide AfterRead, PlanRead, Span, NominalStep, Position, AvailableFrames;
    FillsWithin(s.written, p.start, p.step, size);
    LastUses(p.start, p.step, size, s);
  }

  lemma PrimedPlan(capacity: nat, s: State, size: nat)
    requires Configured(s) && capacity >= 64 && size > 0 && s.primed
    ensures var p := PlanRead(capacity, s, size);
            && p.Paced? && p.start == s.cursor && 0.0 <= p.step <= NominalStep(s) * 1.000_5
            && AfterRead(capacity, s, size).produced == Produced(s.written, p.start, p.step, size)
  {
    StepNearNominal(capacity, s, size);
  }

  lemma LastUses(start: real, step: real, size: nat, s: State)
    requires size > 0 && Configured(s) && 0.0 <= step <= NominalStep(s) * 1.000_5
    ensures Position(start, step, size - 1) - start <= Span(s, size) * 1.000_5 && Span(s, size) >= 0.0
  {
    Stretch(size - 1, step, NominalStep(s), size);
  }

  lemma Stretch(k: nat, step: real, nominal: real, size: nat)
    requires k <= size && 0.0 < nominal && step <= nominal * 1.000_5
    ensures k as real * step <= (size as real * nominal) * 1.000_5
    ensures size as real * nominal >= 0.0
  {
    assert k as real * step <= k as real * (nominal * 1.000_5);
    assert k as real * (nominal * 1.000_5) <= size as real * (nominal * 1.000_5);
  }

  /** What a first read has to work with once it has primed. */
  lemma PrimingPlan(capacity: nat, s: State, size: nat)
    requires Configured(s) && capacity >= 64 && size > 0 && !s.primed
    ensures var target := TargetFill(capacity, s, size);
            PlanRead(capacity, s, size) ==
              if s.written as real - s.cursor < target + 2.0 then Starved
              else Paced(s.written as real - target, 0.0, NominalStep(s))
  {
    var target := TargetFill(capacity, s, size);
    assert (target - target) / target == 0.0;
    assert Corrected(NominalStep(s), 0.0) == NominalStep(s);
  }

  /** An unprimed converter fills a whole packet exactly when it holds the working fill and two frames
      more, and the working fill reaches to the end of the packet. */
  lemma UnprimedFills(capacity: nat, s: State, size: nat)
    requires Configured(s) && capacity >= 64 && size > 0 && !s.primed
    ensures var target := TargetFill(capacity, s, size);
            AfterRead(capacity, s, size).produced == size
            <==> s.written as real - s.cursor >= target + 2.0 && target > Span(s, size) - NominalStep(s) + 1.0
  {
    var target := TargetFill(capacity, s, size);
    hide AfterRead, TargetFill, Position, Span, NominalStep;
    FillsWithin(s.written, s.written as real - target, NominalStep(s), size);
  }

  lemma TargetOf(capacity: nat, s: State, size: nat)
    requires Configured(s)
    ensures TargetFill(capacity, s, size) == Clamp(2.0 * Span(s, size), 16.0, (capacity / 4) as real)
  {
    assert size as real * NominalStep(s) * 2.0 == 2.0 * Span(s, size);
  }

  /** The pacer's drawing condition: whenever the guard opens, a whole packet can be read. */
  ghost predicate GuardSuffices(config: Config, sourceRate: nat)
    requires config.Valid()
  {
    forall s: State |
      && Sound(config.Capacity(), s) && s.sourceRate == sourceRate && s.destinationRate == config.networkRate
      && AvailableFrames(s) >= Required(config, sourceRate) ::
        AfterRead(config.Capacity(), s, config.packetFrames).produced == config.packetFrames
  }

  /** A converter configured but otherwise new, holding `held` frames. */
  function Holding(config: Config, sourceRate: nat, held: nat): State {
    Initial().(sourceRate := sourceRate, destinationRate := config.networkRate, written := held)
  }

  /** The guard's exact condition: it never opens, or a packet is at least seven source frames and the
      working fill reaches past its last one. */
  predicate GuardCondition(config: Config, sourceRate: nat)
    requires config.Valid() && RateAllowed(sourceRate)
  {
    var s := Holding(config, sourceRate, 0);
    || Required(config, sourceRate) > config.Capacity() - GUARD
    || (&& Nominal(config, sourceRate) >= 7
        && TargetFill(config.Capacity(), s, config.packetFrames) > Span(s, config.packetFrames) - NominalStep(s) + 1.0)
  }

  lemma GuardOpensWithin(capacity: nat, s: State)
    requires Sound(capacity, s)
    ensures AvailableFrames(s) <= capacity - GUARD
  {
  }

  lemma SameRates(capacity: nat, a: State, b: State, size: nat)
    requires Configured(a) && a.sourceRate == b.sourceRate && a.destinationRate == b.destinationRate
    ensures NominalStep(a) == NominalStep(b) && Span(a, size) == Span(b, size)
    ensures TargetFill(capacity, a, size) == TargetFill(capacity, b, size)
  {
  }

  lemma UnprimedGuard(capacity: nat, s: State, size: nat)
    requires Configured(s) && capacity >= 64 && size > 0 && !s.primed
    requires AvailableFrames(s) >= 2 * Span(s, size).Floor + 4 && Span(s, size).Floor >= 7
    ensures AfterRead(capacity, s, size).produced == size
            <==> TargetFill(capacity, s, size) > Span(s, size) - NominalStep(s) + 1.0
  {
    UnprimedFills(capacity, s, size);
    TargetOf(capacity, s, size);
    hide Span, TargetFill, NominalStep, AfterRead, AvailableFrames, Clamp;
  }

  lemma GuardHolds(config: Config, sourceRate: nat, s: State)
    requires config.Valid() && RateAllowed(sourceRate) && GuardCondition(config, sourceRate)
    requires Sound(config.Capacity(), s) && s.sourceRate == sourceRate && s.destinationRate == config.networkRate
    requires AvailableFrames(s) >= Required(config, sourceRate)
    ensures AfterRead(config.Capacity(), s, config.packetFrames).produced == config.packetFrames
  {
    hide Span, TargetFill, NominalStep, AfterRead, AvailableFrames, Nominal;
    var capacity, size := config.Capacity(), config.packetFrames;
    GuardOpensWithin(capacity, s);
    NominalIsFloor(config, s);
    SameRates(capacity, Holding(config, sourceRate, 0), s, size);
    if s.primed {
      PrimedFills(capacity, s, size);
    } else {
      UnprimedGuard(capacity, s, size);
    }
  }

  lemma HoldingHolds(config: Config, sourceRate: nat, held: nat)
    requires held <= config.Capacity() - GUARD
    ensures var s := Holding(config, sourceRate, held); Sound(config.Capacity(), s) && AvailableFrames(s) == held
  {
  }

  /** Outside the condition, a new converter holding just what the guard asks for falls short. */
  lemma GuardBreaks(config: Config, sourceRate: nat)
    requires config.Valid() && RateAllowed(sourceRate) && !GuardCondition(config, sourceRate)
    ensures var s := Holding(config, sourceRate, Required(config, sourceRate));
            && Sound(config.Capacity(), s) && AvailableFrames(s) == Required(config, sourceRate)
            && AfterRead(config.Capacity(), s, config.packetFrames).produced != config.packetFrames
  {
    hide Span, TargetFill, NominalStep, AfterRead, AvailableFrames, Nominal, Sound;
    var capacity, size := config.Capacity(), config.packetFrames;
    var s := Holding(config, sourceRate, Required(config, sourceRate));
    HoldingHolds(config, sourceRate, Required(config, sourceRate));
    NominalIsFloor(config, s);
    SameRates(capacity, Holding(config, sourceRate, 0), s, size);
    if Nominal(config, sourceRate) >= 7 {
      UnprimedGuard(capacity, s, size);
    } else {
      UnprimedFills(capacity, s, size);
      TargetOf(capacity, s, size);
    }
  }

  /** The guard is enough in every state the converter can be in if and only if the condition holds. */
  lemma GuardSufficesExactly(config: Config, sourceRate: nat)
    requires config.Valid() && RateAllowed(sourceRate)
    ensures GuardSuffices(config, sourceRate) <==> GuardCondition(config, sourceRate)
  {
    if GuardCondition(config, sourceRate) {
      forall s: State |
        && Sound(config.Capacity(), s) && s.sourceRate == sourceRate && s.destinationRate == config.networkRate
        && AvailableFrames(s) >= Required(config, sourceRate)
        ensures AfterRead(config.Capacity(), s, config.packetFrames).produced == config.packetFrames
      {
        GuardHolds(config, sourceRate, s);
      }
    } else {
      GuardBreaks(config, sourceRate);
    }
  }

  /** Packets of at least eight source frames, and a backlog limit of at least four packets: sufficient,
      and the guard can open. */
  lemma RoomySessionsSuffice(config: Config, sourceRate: nat)
    requires config.Valid() && RateAllowed(sourceRate)
    requires var span := Span(Holding(config, sourceRate, 0), config.packetFrames);
             span >= 8.0 && config.maximumBacklog as real >= 4.0 * span
    ensures GuardSuffices(config, sourceRate) && Required(config, sourceRate) <= config.Capacity() - GUARD
  {
    var s := Holding(config, sourceRate, 0);
    NominalIsFloor(config, s);
    TargetOf(config.Capacity(), s, config.packetFrames);
    GuardSufficesExactly(config, sourceRate);
    assert NominalStep(s) > 0.0;
    hide Span, NominalStep, GuardSuffices;
  }

}
