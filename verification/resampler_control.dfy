/** What the drift correction achieves: which way it goes, and where the backlog ends up. */
module ResamplerControl {
  import opened Bounds
  import opened ResamplerModel

  /** Source frames that a read of a given size takes at the nominal ratio. */
  function Span(s: State, size: nat): real
    requires Configured(s)
  {
    size as real * s.sourceRate as real / s.destinationRate as real
  }

  /** Frames waiting, as a distance of the cursors; negative once the read cursor has run ahead. */
  function Backlog(s: State): real { s.written as real - s.cursor }

  /** What a read aims to find waiting: two reads' worth, at least 16 frames and at most a quarter of the ring. */
  function WorkingFill(capacity: nat, s: State, size: nat): (fill: real)
    requires Configured(s)
    ensures fill >= 16.0
  {
    var two, most := 2.0 * Span(s, size), (capacity / 4) as real;
    if most < 16.0 || two < 16.0 then 16.0 else if most < two then most else two
  }

  lemma FillIsWorkingFill(capacity: nat, s: State, size: nat)
    requires Configured(s) && capacity >= 64
    ensures TargetFill(capacity, s, size) == WorkingFill(capacity, s, size) >= 16.0
  {
    SpanIsNominal(s, size);
    hide Span, NominalStep;
  }

  lemma SpanIsNominal(s: State, size: nat)
    requires Configured(s)
    ensures size as real * NominalStep(s) == Span(s, size)
    ensures size > 0 ==> Span(s, size) > 0.0
  {
    var d := s.destinationRate as real;
    assert d > 0.0;
    assert size as real * (s.sourceRate as real / d) == size as real * s.sourceRate as real / d;
    if size > 0 {
      Positive(size as real, NominalStep(s));
    }
  }

  lemma Positive(x: real, y: real)
    requires x > 0.0 && y > 0.0
    ensures x * y > 0.0
  {
  }

  lemma Ordered(x: real, a: real, b: real)
    requires x > 0.0
    ensures a < b <==> a * x < b * x
  {
  }

  // ------------------------------------------------------------------ one read

  /** An error as a part of the working fill. */
  function Ratio(error: real, target: real): real
    requires target > 0.0
  {
    error / target
  }

  /** How far the step of a read departs from the nominal one, in parts of it. */
  function Excess(error: real, target: real): real
    requires target > 0.0
  {
    if error > target / 2.0 then 0.000_5
    else if error < -target / 2.0 then -0.000_5
    else Ratio(error, target) / 1_000.0
  }

  lemma RatioTimes(error: real, target: real)
    requires target > 0.0
    ensures Ratio(error, target) * target == error
  {
  }

  lemma RatioAgainst(error: real, target: real, part: real)
    requires target > 0.0
    ensures Ratio(error, target) < part <==> error < part * target
    ensures Ratio(error, target) > part <==> error > part * target
  {
    RatioTimes(error, target);
    Ordered(target, Ratio(error, target), part);
    Ordered(target, part, Ratio(error, target));
    hide Ratio;
  }

  lemma RatioBounds(error: real, target: real)
    requires target > 0.0
    ensures Ratio(error, target) > 0.5 <==> error > target / 2.0
    ensures Ratio(error, target) < -0.5 <==> error < -target / 2.0
    ensures Ratio(error, target) > 0.0 <==> error > 0.0
    ensures Ratio(error, target) < 0.0 <==> error < 0.0
  {
    RatioAgainst(error, target, 0.5);
    RatioAgainst(error, target, -0.5);
    RatioAgainst(error, target, 0.0);
    hide Ratio;
  }

  lemma CorrectionIsExcess(available: real, target: real)
    requires target > 0.0
    ensures Correction(available, target) * 0.000_001 == Excess(available - target, target)
  {
    RatioBounds(available - target, target);
    CorrectionOfRatio(available, target);
    hide Ratio, Correction;
  }

  lemma CorrectionOfRatio(available: real, target: real)
    requires target > 0.0
    ensures Correction(available, target) == Clamp(Ratio(available - target, target) * 1_000.0, -500.0, 500.0)
  {
  }

  /** A primed read goes on from its cursor; its step departs from the nominal one by a thousandth of the relative
      error of the backlog, up to half a thousandth either way. One that starts takes its start a working fill
      behind the newest frame and the nominal step. */
  lemma StepFollowsBacklog(capacity: nat, s: State, size: nat)
    requires Configured(s) && capacity >= 64
    ensures var target, plan := WorkingFill(capacity, s, size), PlanRead(capacity, s, size);
            && (plan.Starved? <==> !s.primed && Backlog(s) < target + 2.0)
            && (s.primed ==> plan.start == s.cursor
                             && plan.step == Scaled(NominalStep(s), 1.0 + Excess(Backlog(s) - target, target)))
            && (!s.primed && plan.Paced? ==> plan.start == s.written as real - target && plan.step == NominalStep(s))
  {
    var target := WorkingFill(capacity, s, size);
    FillIsWorkingFill(capacity, s, size);
    CorrectionIsExcess(Backlog(s), target);
    CorrectionIsExcess(target, target);
    hide TargetFill, WorkingFill, Correction, NominalStep;
  }

  lemma ExcessSign(error: real, target: real)
    requires target > 0.0
    ensures error > 0.0 <==> Excess(error, target) > 0.0
    ensures error < 0.0 <==> Excess(error, target) < 0.0
    ensures -0.000_5 <= Excess(error, target) <= 0.000_5
  {
    RatioBounds(error, target);
    hide Ratio;
  }

  lemma ExcessGrows(less: real, more: real, target: real)
    requires target > 0.0 && less <= more
    ensures Excess(less, target) <= Excess(more, target)
  {
    RatioBounds(less, target);
    RatioBounds(more, target);
    RatioTimes(more, target);
    RatioAgainst(less, target, Ratio(more, target));
    hide Ratio;
  }

  /** A primed read runs fast exactly over a backlog above the working fill and slow exactly over one below it. */
  lemma StepGoesTheRightWay(capacity: nat, s: State, size: nat)
    requires Configured(s) && capacity >= 64 && s.primed
    ensures var target, step := WorkingFill(capacity, s, size), PlanRead(capacity, s, size).step;
            && (step > NominalStep(s) <==> Backlog(s) > target)
            && (step < NominalStep(s) <==> Backlog(s) < target)
  {
    var target := WorkingFill(capacity, s, size);
    FillIsWorkingFill(capacity, s, size);
    StepFollowsBacklog(capacity, s, size);
    hide PlanRead, WorkingFill, NominalStep;
    ExcessSign(Backlog(s) - target, target);
    FactorSign(NominalStep(s), Excess(Backlog(s) - target, target));
  }

  /** And never slower over a larger backlog at the same rates. */
  lemma LargerBacklogReadsFaster(capacity: nat, s: State, t: State, size: nat)
    requires Configured(s) && capacity >= 64 && s.primed && t.primed
    requires t.sourceRate == s.sourceRate && t.destinationRate == s.destinationRate && Backlog(s) <= Backlog(t)
    ensures PlanRead(capacity, s, size).step <= PlanRead(capacity, t, size).step
  {
    var target := WorkingFill(capacity, s, size);
    FillIsWorkingFill(capacity, s, size);
    StepFollowsBacklog(capacity, s, size);
    StepFollowsBacklog(capacity, t, size);
    SameFill(capacity, s, t, size);
    hide PlanRead, WorkingFill, NominalStep, Scaled;
    ExcessGrows(Backlog(s) - target, Backlog(t) - target, target);
    FactorGrows(NominalStep(s), Excess(Backlog(s) - target, target), Excess(Backlog(t) - target, target));
  }

  lemma SameFill(capacity: nat, s: State, t: State, size: nat)
    requires Configured(s) && t.sourceRate == s.sourceRate && t.destinationRate == s.destinationRate
    ensures Configured(t) && NominalStep(t) == NominalStep(s)
    ensures WorkingFill(capacity, t, size) == WorkingFill(capacity, s, size)
  {
    assert Span(t, size) == Span(s, size);
    hide Span, NominalStep;
  }

  lemma FactorSign(x: real, excess: real)
    requires x > 0.0
    ensures Scaled(x, 1.0 + excess) > x <==> excess > 0.0
    ensures Scaled(x, 1.0 + excess) < x <==> excess < 0.0
  {
    assert x * (1.0 + excess) == x + excess * x;
    Ordered(x, 0.0, excess);
    Ordered(x, excess, 0.0);
  }

  lemma FactorGrows(x: real, less: real, more: real)
    requires x > 0.0 && less <= more
    ensures Scaled(x, 1.0 + less) <= Scaled(x, 1.0 + more)
  {
    Ordered(x, 1.0 + more, 1.0 + less);
  }

  /** A straight line in the stream comes out as the same line, at every position. */
  lemma LinesAreReproduced(stream: seq<real>, base: real, slope: real, r: real)
    requires 0.0 <= r && r.Floor + 1 < |stream|
    requires forall k | 0 <= k < |stream| :: stream[k] == base + slope * k as real
    ensures Interpolated(stream, r) == base + slope * r
  {
    var frame := r.Floor as real;
    assert stream[r.Floor] == base + slope * frame && stream[r.Floor + 1] == base + slope * (frame + 1.0);
    var rise := slope * (frame + 1.0) - slope * frame;
    assert rise == slope;
    assert slope * r == slope * frame + slope * (r - frame);
  }

  // ------------------------------------------------------------------ a steady stream

  /** One block arrives, then one read. */
  function Cycle(capacity: nat, s: State, count: nat, size: nat): State
    requires capacity >= 64
  {
    AfterRead(capacity, AfterWrite(capacity, s, count), size).state
  }

  function Cycles(capacity: nat, s: State, count: nat, size: nat, n: nat): State
    requires capacity >= 64
    decreases n
  {
    if n == 0 then s else Cycles(capacity, Cycle(capacity, s, count, size), count, size, n - 1)
  }

  /** What the next read will find waiting, over what it aims for. */
  function Error(capacity: nat, s: State, count: nat, size: nat): real
    requires Configured(s)
  {
    Backlog(s) + count as real - WorkingFill(capacity, s, size)
  }

  /** The error after one more cycle of the same size. */
  function Approached(error: real, target: real, span: real): real
    requires target > 0.0
  {
    error - Scaled(span, Excess(error, target))
  }

  /** A stream whose blocks are each one read's span, with enough waiting for whole reads and room for the blocks,
      both at its backlog and at the working fill. */
  ghost predicate Steady(capacity: nat, s: State, count: nat, size: nat) {
    && Sound(capacity, s) && Configured(s) && s.primed && size > 0
    && count as real == Span(s, size)
    && (var target := WorkingFill(capacity, s, size);
        && HasRoom(capacity, count, Backlog(s) + count as real) && HasRoom(capacity, count, target))
  }

  predicate HasRoom(capacity: nat, count: nat, backlog: real) {
    count as real * 1.000_5 + 2.0 <= backlog <= capacity as real - 3.0
  }

  /** Between two errors of the same sign. */
  predicate Nearer(after: real, before: real) {
    0.0 <= after <= before || before <= after <= 0.0
  }

  lemma ApproachNears(error: real, target: real, span: real)
    requires target > 0.0 && 0.0 <= span <= 1_000.0 * target
    ensures Nearer(Approached(error, target, span), error)
  {
    var excess, share := Excess(error, target), Ratio(error, target) / 1_000.0;
    ExcessSmall(error, target);
    Scale(span, excess, share, 1_000.0 * target);
    ShareTimes(error, target);
    hide Ratio, Excess, Scaled;
  }

  lemma ShareTimes(error: real, target: real)
    requires target > 0.0
    ensures Scaled(1_000.0 * target, Ratio(error, target) / 1_000.0) == error
  {
    RatioTimes(error, target);
    var q := Ratio(error, target);
    hide Ratio;
    assert 1_000.0 * target * (q / 1_000.0) == q * target;
  }

  /** The correction is in proportion to the error, or less. */
  lemma ExcessSmall(error: real, target: real)
    requires target > 0.0
    ensures Nearer(Excess(error, target), Ratio(error, target) / 1_000.0)
  {
    RatioBounds(error, target);
    hide Ratio;
  }

  lemma Scale(span: real, excess: real, share: real, whole: real)
    requires 0.0 <= span <= whole && Nearer(excess, share)
    ensures Nearer(Scaled(span, excess), Scaled(whole, share))
  {
    if 0.0 <= excess <= share {
      ScaleUp(span, excess, share, whole);
    } else {
      ScaleUp(span, -excess, -share, whole);
      assert Scaled(span, excess) == -Scaled(span, -excess) && Scaled(whole, share) == -Scaled(whole, -share);
    }
    hide Scaled;
  }

  lemma ScaleUp(span: real, excess: real, share: real, whole: real)
    requires 0.0 <= span <= whole && 0.0 <= excess <= share
    ensures 0.0 <= Scaled(span, excess) <= Scaled(whole, share)
  {
    SameSign(span, excess);
    SameSign(whole - span, excess);
    SameSign(whole, share - excess);
    assert Scaled(whole, share) - Scaled(span, excess) == (whole - span) * excess + whole * (share - excess);
  }

  lemma Times(x: real, a: real, b: real)
    requires x >= 0.0 && a <= b
    ensures a * x <= b * x
  {
  }

  lemma WriteFits(capacity: nat, s: State, count: nat)
    requires Sound(capacity, s) && 0.0 <= Backlog(s) && Backlog(s) + count as real <= capacity as real - 3.0 && count > 0
    ensures AfterWrite(capacity, s, count) == s.(written := s.written + count)
  {
    assert s.cursor.Floor as real > s.cursor - 1.0;
    assert s.written - s.cursor.Floor < capacity - GUARD - count + 1;
  }

  lemma WholeRun(written: nat, start: real, step: real, size: nat)
    requires step > 0.0 && size > 0 && Position(start, step, size) + 2.0 <= written as real
    ensures Produced(written, start, step, size) == size
  {
    ProducesAll(written, start, step, size);
    PositionNext(start, step, size - 1);
    hide Position, Produced;
  }

  /** A read with more than its span waiting is whole. */
  lemma ReadIsWhole(capacity: nat, s: State, size: nat)
    requires capacity >= 64 && Configured(s) && s.primed && size > 0
    requires var p := PlanRead(capacity, s, size);
             p.Paced? && Position(p.start, p.step, size) + 2.0 <= s.written as real
    ensures var p, r := PlanRead(capacity, s, size), AfterRead(capacity, s, size);
            && r.produced == size
            && r.state == s.(cursor := Position(p.start, p.step, size), correctionPpm := p.ppm)
  {
    var p := PlanRead(capacity, s, size);
    StepNearNominal(capacity, s, size);
    hide PlanRead, NominalStep, Position, Produced;
    WholeRun(s.written, p.start, p.step, size);
  }

  lemma Spent(s: State, start: real, size: nat, count: nat, excess: real)
    requires Configured(s) && count as real == Span(s, size) && excess <= 0.000_5
    ensures Position(start, Scaled(NominalStep(s), 1.0 + excess), size)
            == start + count as real + Scaled(count as real, excess)
    ensures Scaled(count as real, excess) <= count as real * 0.000_5
  {
    Times(count as real, excess, 0.000_5);
    SpanIsNominal(s, size);
    var step := NominalStep(s);
    assert size as real * (step * (1.0 + excess)) == size as real * step * (1.0 + excess);
    hide NominalStep, Span;
  }

  /** A primed read with room to spare takes its span and the correction of it. */
  lemma ReadSpends(capacity: nat, s: State, count: nat, size: nat)
    requires capacity >= 64 && Configured(s) && s.primed && size > 0 && count as real == Span(s, size)
    requires HasRoom(capacity, count, Backlog(s))
    ensures var target := WorkingFill(capacity, s, size);
            var spent := count as real + Scaled(count as real, Excess(Backlog(s) - target, target));
            var r, ppm := AfterRead(capacity, s, size), PlanRead(capacity, s, size).ppm;
            r.produced == size && r.state == s.(cursor := s.cursor + spent, correctionPpm := ppm)
  {
    var target := WorkingFill(capacity, s, size);
    FillIsWorkingFill(capacity, s, size);
    StepFollowsBacklog(capacity, s, size);
    hide PlanRead, WorkingFill, NominalStep, Scaled, AfterRead;
    var excess := Excess(Backlog(s) - target, target);
    ExcessSign(Backlog(s) - target, target);
    hide Excess;
    Spent(s, s.cursor, size, count, excess);
    hide Position;
    ReadIsWhole(capacity, s, size);
  }

  /** One cycle of a steady stream takes the error nearer to nothing, by the span times the correction, and loses
      nothing: no underrun, no overrun, still primed and still steady. */
  lemma CycleApproaches(capacity: nat, s: State, count: nat, size: nat)
    requires Steady(capacity, s, count, size)
    ensures var r, target := Cycle(capacity, s, count, size), WorkingFill(capacity, s, size);
            && r == s.(written := r.written, cursor := r.cursor, correctionPpm := r.correctionPpm)
            && Steady(capacity, r, count, size) && WorkingFill(capacity, r, size) == target >= 16.0
            && count as real <= target
            && Error(capacity, r, count, size) == Approached(Error(capacity, s, count, size), target, count as real)
            && Nearer(Error(capacity, r, count, size), Error(capacity, s, count, size))
  {
    var target, error := WorkingFill(capacity, s, size), Error(capacity, s, count, size);
    SpanIsNominal(s, size);
    FillIsWorkingFill(capacity, s, size);
    WriteFits(capacity, s, count);
    AfterWriteSound(capacity, s, count);
    hide AfterWrite, AfterRead, WorkingFill, PlanRead, NominalStep, Excess, Span, Scaled;
    var t := AfterWrite(capacity, s, count);
    SameFill(capacity, s, t, size);
    SameSpan(s, t, size);
    ReadSpends(capacity, t, count, size);
    AfterReadSound(capacity, t, size);
    hide Sound;
    var r := Cycle(capacity, s, count, size);
    SameFill(capacity, s, r, size);
    SameSpan(s, r, size);
    ApproachNears(error, target, count as real);
    RoomBetween(capacity, count, target, error, Error(capacity, r, count, size));
  }

  lemma RoomBetween(capacity: nat, count: nat, target: real, before: real, after: real)
    requires HasRoom(capacity, count, target) && HasRoom(capacity, count, target + before) && Nearer(after, before)
    ensures HasRoom(capacity, count, target + after)
  {
  }

  lemma SameSpan(s: State, t: State, size: nat)
    requires Configured(s) && t.sourceRate == s.sourceRate && t.destinationRate == s.destinationRate
    ensures Configured(t) && Span(t, size) == Span(s, size)
  {
  }

  /** So over any number of cycles of a steady stream nothing is lost, and the backlog closes in on the working fill
      from the side it started on: the error never grows and never changes sign. */
  lemma {:induction false} SteadyStreamClosesIn(capacity: nat, s: State, count: nat, size: nat, n: nat)
    requires Steady(capacity, s, count, size)
    ensures var r := Cycles(capacity, s, count, size, n);
            && r == s.(written := r.written, cursor := r.cursor, correctionPpm := r.correctionPpm)
            && Steady(capacity, r, count, size) && WorkingFill(capacity, r, size) == WorkingFill(capacity, s, size)
            && Nearer(Error(capacity, r, count, size), Error(capacity, s, count, size))
    decreases n
  {
    hide Steady, Cycle, WorkingFill, Error;
    SteadyConfigured(capacity, s, count, size);
    if n > 0 {
      CycleApproaches(capacity, s, count, size);
      SteadyStreamClosesIn(capacity, Cycle(capacity, s, count, size), count, size, n - 1);
    }
  }

  lemma SteadyConfigured(capacity: nat, s: State, count: nat, size: nat)
    requires Steady(capacity, s, count, size)
    ensures capacity >= 64 && Configured(s) && count > 0
  {
    SpanIsNominal(s, size);
  }

  /** The least that a cycle takes off an error of at least `tolerance`. */
  function Progress(tolerance: real, target: real, span: real): real
    requires target > 0.0
  {
    Scaled(span, Ratio(tolerance, target) / 1_000.0)
  }

  lemma ApproachProgresses(error: real, target: real, span: real, tolerance: real)
    requires target > 0.0 && 0.0 <= span <= 1_000.0 * target && 0.0 < tolerance <= target / 2.0
    requires Magnitude(error) >= tolerance
    ensures Magnitude(Approached(error, target, span)) <= Magnitude(error) - Progress(tolerance, target, span)
  {
    ApproachNears(error, target, span);
    ExcessAtLeast(error, target, tolerance);
    var excess, least := Excess(error, target), Ratio(tolerance, target) / 1_000.0;
    TimesScaled(span, least, excess);
    hide Excess, Scaled, Ratio;
    assert Progress(tolerance, target, span) == Scaled(span, least);
  }

  lemma TimesScaled(span: real, least: real, excess: real)
    requires span >= 0.0
    ensures excess >= least ==> Scaled(span, excess) >= Scaled(span, least)
    ensures -excess >= least ==> -Scaled(span, excess) >= Scaled(span, least)
  {
    if excess >= least {
      SameSign(span, excess - least);
      assert Scaled(span, excess) - Scaled(span, least) == span * (excess - least);
    }
    if -excess >= least {
      SameSign(span, -excess - least);
      assert -Scaled(span, excess) - Scaled(span, least) == span * (-excess - least);
    }
  }

  lemma ExcessAtLeast(error: real, target: real, tolerance: real)
    requires target > 0.0 && 0.0 < tolerance <= target / 2.0 && Magnitude(error) >= tolerance
    ensures Magnitude(Excess(error, target)) >= Ratio(tolerance, target) / 1_000.0
    ensures error > 0.0 <==> Excess(error, target) > 0.0
  {
    hide Excess, Ratio;
    ExcessSign(error, target);
    ExcessOdd(error, target);
    if error > 0.0 {
      ExcessAbove(error, target, tolerance);
    } else {
      ExcessAbove(-error, target, tolerance);
    }
  }

  lemma ExcessOdd(error: real, target: real)
    requires target > 0.0
    ensures Excess(-error, target) == -Excess(error, target)
  {
    RatioOdd(error, target);
    hide Ratio;
  }

  lemma RatioOdd(error: real, target: real)
    requires target > 0.0
    ensures Ratio(-error, target) == -Ratio(error, target)
  {
  }

  lemma ExcessAbove(error: real, target: real, tolerance: real)
    requires target > 0.0 && 0.0 < tolerance <= target / 2.0 && error >= tolerance
    ensures Excess(error, target) >= Ratio(tolerance, target) / 1_000.0
  {
    RatioBounds(tolerance, target);
    RatioTimes(tolerance, target);
    RatioAgainst(error, target, Ratio(tolerance, target));
    hide Ratio;
  }

  /** And it gets there: each cycle takes at least its share of the tolerance off an error that is not yet within it,
      so after as many cycles as that share goes into the first error, the backlog is within it and stays. */
  lemma {:induction false} SteadyStreamArrives(capacity: nat, s: State, count: nat, size: nat, n: nat, tolerance: real)
    requires Configured(s) && 0.0 < tolerance <= WorkingFill(capacity, s, size) / 2.0
    requires Scaled(n as real, Progress(tolerance, WorkingFill(capacity, s, size), count as real))
             > Magnitude(Error(capacity, s, count, size)) - tolerance
    requires Steady(capacity, s, count, size)
    ensures var r := Cycles(capacity, s, count, size, n);
            Configured(r) && Magnitude(Error(capacity, r, count, size)) < tolerance
    decreases n
  {
    hide Steady, Cycle, WorkingFill, Error, Progress, Approached;
    SteadyConfigured(capacity, s, count, size);
    var target, error := WorkingFill(capacity, s, size), Error(capacity, s, count, size);
    var progress := Progress(tolerance, target, count as real);
    if n == 0 {
      assert Scaled(0 as real, progress) == 0.0;
    } else {
      var next := Cycle(capacity, s, count, size);
      CycleApproaches(capacity, s, count, size);
      SteadyConfigured(capacity, next, count, size);
      if Magnitude(error) < tolerance {
        SteadyStreamClosesIn(capacity, s, count, size, n);
      } else {
        ApproachProgresses(error, target, count as real, tolerance);
        assert Scaled(n as real, progress) == Scaled((n - 1) as real, progress) + progress;
        hide Scaled;
        SteadyStreamArrives(capacity, next, count, size, n - 1, tolerance);
      }
    }
  }

  // ------------------------------------------------------------------ what is lost, and that it is counted

  /** Where the read cursor is once it has been fetched back from beyond the last frame. */
  function Fetched(s: State): real { if s.cursor > s.written as real then s.written as real else s.cursor }

  /** Something waiting had to go, or the whole block. */
  predicate Overruns(capacity: nat, s: State, count: nat)
    requires capacity >= 64
  {
    count > 0 && (count >= capacity || AfterWrite(capacity, s, count).cursor > Fetched(s))
  }

  /** A block is taken whole at the cost of the oldest frames, of no more of them than is needed to leave the guard
      free, and by whole frames; a block as large as the ring is refused. Whatever is lost is counted once and has the
      reader start afresh. */
  lemma WriteDropsLeast(capacity: nat, s: State, count: nat)
    requires Sound(capacity, s)
    ensures var r := AfterWrite(capacity, s, count);
            && r == s.(written := r.written, cursor := r.cursor, primed := r.primed, overruns := r.overruns)
            && r.overruns == s.overruns + (if Overruns(capacity, s, count) then 1 else 0)
            && r.written == s.written + (if count < capacity then count else 0)
            && (count == 0 || count >= capacity ==> r.cursor == s.cursor && r.primed == s.primed)
            && (0 < count < capacity ==>
                  && Fetched(s) <= r.cursor <= r.written as real
                  && (r.cursor > Fetched(s) ==> r.written - r.cursor.Floor == capacity - GUARD)
                  && (r.cursor - Fetched(s)) == (r.cursor - Fetched(s)).Floor as real
                  && (r.primed <==> s.primed && r.cursor == Fetched(s) == s.cursor))
  {
    var c := Caught(s);
    var displaced := Displaced(capacity, c, count);
    CaughtIsFetched(capacity, s);
    if count < capacity {
      DisplacedIsLeast(capacity, c, count);
    }
    WholeFloor(c.cursor, displaced);
    hide Caught, Displaced, Fetched, Sound;
  }

  lemma CaughtIsFetched(capacity: nat, s: State)
    requires Sound(capacity, s)
    ensures var c := Caught(s);
            && c == s.(cursor := Fetched(s), primed := c.primed) && (c.primed <==> s.primed && s.cursor == Fetched(s))
            && 0 <= s.written - c.cursor.Floor <= capacity - GUARD && c.cursor <= s.written as real
  {
    if Caught(s).cursor == s.written as real {
      assert Caught(s).cursor.Floor == s.written;
    }
  }

  lemma DisplacedIsLeast(capacity: nat, c: State, count: nat)
    requires 0 <= c.written - c.cursor.Floor <= capacity - GUARD && count < capacity
    ensures var displaced := Displaced(capacity, c, count);
            && (displaced > 0 ==> c.written + count - c.cursor.Floor - displaced == capacity - GUARD)
            && displaced <= count
  {
  }

  lemma WholeFloor(x: real, n: nat)
    ensures (x + n as real).Floor == x.Floor + n
    ensures (n as real).Floor == n
  {
  }

  /** A read that is asked for something stays primed exactly if it delivers all of it; if not, that is counted once.
      Nothing else is touched, and the correction shown is the one applied. */
  lemma ReadCounts(capacity: nat, s: State, size: nat)
    requires capacity >= 64
    ensures var r := AfterRead(capacity, s, size);
            && r.state == s.(cursor := r.state.cursor, primed := r.state.primed, underruns := r.state.underruns,
                             correctionPpm := r.state.correctionPpm)
            && r.produced <= size
            && (size == 0 || !Configured(s) ==> r.produced == 0 && r.state == s)
            && (size > 0 && Configured(s) ==>
                  && (r.state.primed <==> r.produced == size)
                  && r.state.underruns == s.underruns + (if r.produced < size then 1 else 0)
                  && (var plan := PlanRead(capacity, s, size);
                      plan.Paced? ==> plan.step == Corrected(NominalStep(s), r.state.correctionPpm)))
  {
    hide TargetFill, Correction, Corrected, NominalStep, Position;
  }

  function Shortfalls(capacity: nat, s: State, ops: seq<Op>): nat
    requires capacity >= 64
    decreases |ops|
  {
    if ops == [] then 0
    else
      (if ops[0].Draw? && Configured(s) && AfterRead(capacity, s, ops[0].size).produced < ops[0].size then 1 else 0)
      + Shortfalls(capacity, Perform(capacity, s, ops[0]), ops[1..])
  }

  function Losses(capacity: nat, s: State, ops: seq<Op>): nat
    requires capacity >= 64
    decreases |ops|
  {
    if ops == [] then 0
    else
      (if ops[0].Feed? && Overruns(capacity, s, ops[0].count) then 1 else 0)
      + Losses(capacity, Perform(capacity, s, ops[0]), ops[1..])
  }

  /** Over every run the two counters are the reads that came short and the blocks that cost something. */
  lemma {:induction false} EveryLossIsCounted(capacity: nat, s: State, ops: seq<Op>)
    requires Sound(capacity, s)
    ensures var r := Run(capacity, s, ops);
            && r.underruns == s.underruns + Shortfalls(capacity, s, ops)
            && r.overruns == s.overruns + Losses(capacity, s, ops)
    decreases |ops|
  {
    if ops != [] {
      var next := Perform(capacity, s, ops[0]);
      match ops[0] {
        case Feed(count) =>
          AfterWriteSound(capacity, s, count);
          WriteDropsLeast(capacity, s, count);
        case Draw(size) =>
          AfterReadSound(capacity, s, size);
          ReadCounts(capacity, s, size);
      }
      hide Sound, AfterWrite, AfterRead, Overruns;
      EveryLossIsCounted(capacity, next, ops[1..]);
    }
  }

  /** Clearing leaves nothing waiting and nothing counted, at the same rates. */
  lemma ClearedIsEmpty(s: State)
    ensures var r := Cleared(s);
            && r.sourceRate == s.sourceRate && r.destinationRate == s.destinationRate
            && Backlog(r) == 0.0 && r.written == 0 && !r.primed
            && r.underruns == r.overruns == 0 && r.correctionPpm == 0.0
    ensures Cleared(Initial()) == Initial() && !Configured(Initial())
  {
  }
}
