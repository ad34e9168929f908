/** The outgoing pacer as a value: a release schedule over the resampler's backlog. */
module PacerModel {
  import opened ModularArithmetic
  import opened ResamplerModel

  datatype Config = Config(packetFrames: nat, networkRate: nat, maximumBacklog: nat) {
    predicate Valid() {
      packetFrames > 0 && RateAllowed(networkRate) && maximumBacklog >= packetFrames
    }

    /** Microseconds of audio in a packet. */
    function Interval(): (interval: nat)
      requires Valid()
      ensures interval >= 1
    {
      PositiveQuotient(packetFrames * 1_000_000, networkRate);
      packetFrames * 1_000_000 / networkRate
    }

    /** How far behind the schedule may fall. */
    function MaximumDeficit(): nat
      requires Valid()
    {
      maximumBacklog * 1_000_000 / networkRate
    }

    function Capacity(): (capacity: nat)
      ensures capacity >= 64 && capacity >= 2 * maximumBacklog && IsPowerOfTwo(capacity)
    {
      Doubled(64, 2 * maximumBacklog)
    }
  }

  lemma PositiveQuotient(x: int, n: int)
    requires 0 < n <= x
    ensures x / n >= 1
  {
  }

  /** The first of `capacity`, twice that, four times that, ... that reaches a limit. */
  function Doubled(capacity: nat, limit: nat): (grown: nat)
    requires capacity > 0 && IsPowerOfTwo(capacity)
    ensures grown >= capacity && grown >= limit && IsPowerOfTwo(grown)
    ensures grown > capacity ==> grown < 2 * limit
    decreases limit - capacity
  {
    if capacity >= limit then capacity else Doubled(2 * capacity, limit)
  }

  datatype Pacer = Pacer(
    sourceRate: nat,
    next: nat,
    lastDrain: nat,
    released: nat,
    accepted: nat,
    discarded: nat,
    starved: nat,
    converter: State)

  function Fresh(): Pacer {
    Pacer(0, 0, 0, 0, 0, 0, 0, Initial())
  }

  ghost predicate Sane(config: Config, p: Pacer) {
    && config.Valid() && Sound(config.Capacity(), p.converter)
    && p.converter.sourceRate == p.sourceRate
    && (p.sourceRate > 0 ==> RateAllowed(p.sourceRate) && p.converter.destinationRate == config.networkRate)
  }

  function SetSourceRate(config: Config, p: Pacer, rate: nat): Pacer {
    if rate == p.sourceRate || !RateAllowed(rate) || !RateAllowed(config.networkRate) then p
    else
      p.(converter := Cleared(p.converter.(sourceRate := rate, destinationRate := config.networkRate)),
         sourceRate := rate, next := 0)
  }

  function Reset(p: Pacer): Pacer {
    p.(converter := Cleared(p.converter), next := 0, released := 0, accepted := 0, discarded := 0, starved := 0)
  }

  // ---------------------------------------------------------------- backlog

  /** Whole source frames in a packet. */
  function Nominal(config: Config, sourceRate: nat): nat
    requires config.networkRate > 0
  {
    config.packetFrames * sourceRate / config.networkRate
  }

  /** What the converter must hold before a packet is drawn from it. */
  function Required(config: Config, sourceRate: nat): nat
    requires config.networkRate > 0
  {
    Nominal(config, sourceRate) * 2 + 4
  }

  datatype Trimmed = Trimmed(converter: State, discarded: nat)

  /** Reads packets away until the backlog is down to a target or a read makes no progress. */
  function TrimTo(capacity: nat, s: State, size: nat, target: nat): Trimmed
    requires capacity >= 64
    decreases AvailableFrames(s)
  {
    if AvailableFrames(s) <= target then Trimmed(s, 0)
    else
      var after := AfterRead(capacity, s, size).state;
      if AvailableFrames(after) >= AvailableFrames(s) then Trimmed(after, 0)
      else
        var rest := TrimTo(capacity, after, size, target);
        Trimmed(rest.converter, AvailableFrames(s) - AvailableFrames(after) + rest.discarded)
  }

  function Accept(config: Config, p: Pacer, count: nat): Pacer
    requires config.Valid()
  {
    if count == 0 || p.sourceRate == 0 then p
    else
      var written := AfterWrite(config.Capacity(), p.converter, count);
      var trimmed := if AvailableFrames(written) <= config.maximumBacklog then Trimmed(written, 0)
                     else TrimTo(config.Capacity(), written, config.packetFrames, 2 * Required(config, p.sourceRate));
      p.(accepted := p.accepted + count, converter := trimmed.converter, discarded := p.discarded + trimmed.discarded)
  }

  // ---------------------------------------------------------------- schedule

  /** The deadline when a release is asked for: set at the first packet or when the clock went back. */
  function Started(config: Config, next: nat, now: nat): nat
    requires config.Valid()
  {
    if next == 0 || now + config.Interval() < next then now else next
  }

  /** A deadline too far behind is moved up: the deficit beyond the limit is forgiven. */
  function Forgiven(config: Config, next: nat, now: nat): nat
    requires config.Valid()
  {
    if next + config.MaximumDeficit() < now then now - config.MaximumDeficit() else next
  }

  function Scheduled(config: Config, p: Pacer, now: nat): Pacer
    requires config.Valid()
  {
    p.(next := Forgiven(config, Started(config, p.next, now), now))
  }

  /** Judged once for each instant: a standing backlog pulls the next deadline in. */
  function Drain(config: Config, p: Pacer, now: nat): Pacer
    requires config.Valid()
  {
    if now == p.lastDrain then p
    else if AvailableFrames(p.converter) <= 2 * Required(config, p.sourceRate) then p.(lastDrain := now)
    else
      var pullIn := config.Interval() / 8;
      p.(lastDrain := now, next := if p.next > pullIn then p.next - pullIn else 0)
  }

  /** Frames a read consumed beyond a packet's worth, with two of slack. */
  function PrimingDiscard(config: Config, sourceRate: nat, before: nat, after: nat): nat
    requires config.networkRate > 0
  {
    var expected := Nominal(config, sourceRate);
    if before > after && before - after > expected + 2 then before - after - expected else 0
  }

  datatype ReleaseResult = ReleaseResult(pacer: Pacer, sent: bool)

  function Release(config: Config, p: Pacer, now: nat): ReleaseResult
    requires config.Valid()
  {
    if p.sourceRate == 0 then ReleaseResult(p, false)
    else
      var due := Scheduled(config, p, now);
      if now < due.next then ReleaseResult(Drain(config, due, now), false)
      else if AvailableFrames(due.converter) < Required(config, due.sourceRate) then
        ReleaseResult(due.(starved := due.starved + 1), false)
      else
        var r := AfterRead(config.Capacity(), due.converter, config.packetFrames);
        var discarded := PrimingDiscard(config, due.sourceRate, AvailableFrames(due.converter), AvailableFrames(r.state));
        var read := due.(converter := r.state, discarded := due.discarded + discarded);
        if r.produced != config.packetFrames then ReleaseResult(read.(starved := read.starved + 1), false)
        else ReleaseResult(read.(next := read.next + config.Interval(), released := read.released + 1), true)
  }

  // ---------------------------------------------------------------- invariants

  lemma {:induction false} TrimKeepsSound(capacity: nat, s: State, size: nat, target: nat)
    requires Sound(capacity, s)
    ensures var r := TrimTo(capacity, s, size, target).converter;
            Sound(capacity, r) && r.sourceRate == s.sourceRate && r.destinationRate == s.destinationRate
    decreases AvailableFrames(s)
  {
    hide Sound;
    AtLeast64(capacity, s);
    if AvailableFrames(s) > target {
      AfterReadSound(capacity, s, size);
      var after := AfterRead(capacity, s, size).state;
      if AvailableFrames(after) < AvailableFrames(s) {
        TrimKeepsSound(capacity, after, size, target);
      }
    }
  }

  lemma AtLeast64(capacity: nat, s: State)
    requires Sound(capacity, s)
    ensures capacity >= 64
  {
  }

  lemma AcceptKeepsSane(config: Config, p: Pacer, count: nat)
    requires Sane(config, p)
    ensures Sane(config, Accept(config, p, count))
  {
    if count > 0 && p.sourceRate > 0 {
      AfterWriteSound(config.Capacity(), p.converter, count);
      var written := AfterWrite(config.Capacity(), p.converter, count);
      TrimKeepsSound(config.Capacity(), written, config.packetFrames, 2 * Required(config, p.sourceRate));
    }
  }

  lemma ReleaseKeepsSane(config: Config, p: Pacer, now: nat)
    requires Sane(config, p)
    ensures Sane(config, Release(config, p, now).pacer)
  {
    AfterReadSound(config.Capacity(), p.converter, config.packetFrames);
    hide Sound, AfterRead, AvailableFrames;
  }

}
