/** The drift-correcting resampler as a value: its two cursors, and how one write or read moves them. */
module ResamplerModel {
  import opened Bounds

  datatype State = State(
    sourceRate: nat,
    destinationRate: nat,
    written: nat,
    cursor: real,
    primed: bool,
    underruns: nat,
    overruns: nat,
    correctionPpm: real)

  const GUARD: nat := 2

  predicate RateAllowed(rate: nat) { 8_000 <= rate <= 384_000 }

  predicate Configured(s: State) { s.sourceRate > 0 && s.destinationRate > 0 }

  function Initial(): State { State(0, 0, 0, 0.0, false, 0, 0, 0.0) }

  function Cleared(s: State): State {
    s.(written := 0, cursor := 0.0, primed := false, underruns := 0, overruns := 0, correctionPpm := 0.0)
  }

  /** The read cursor is within the last `capacity - 2` frames written, or past them. */
  ghost predicate Sound(capacity: nat, s: State) {
    capacity >= 64 && s.cursor >= 0.0 && s.written - s.cursor.Floor <= capacity - GUARD
  }

  /** Frames a caller sees waiting. */
  function AvailableFrames(s: State): nat {
    var available := s.written as real - s.cursor;
    if available < 0.0 then 0 else available.Floor
  }

  // ---------------------------------------------------------------- write

  /** Frames given up at the read end to make room for a block. */
  function Displaced(capacity: nat, s: State, count: nat): nat
    requires capacity >= GUARD
  {
    var usable := capacity - GUARD;
    var used := s.written - s.cursor.Floor;
    var room := usable - Min(used, usable);
    if count > room then count - room else 0
  }

  /** A cursor that ran past the last frame comes back to it. */
  function Caught(s: State): State {
    if s.cursor > s.written as real then s.(cursor := s.written as real, primed := false) else s
  }

  function AfterWrite(capacity: nat, s: State, count: nat): State
    requires capacity >= GUARD
  {
    if count == 0 then s
    else if count >= capacity then s.(overruns := s.overruns + 1)
    else
      var caught := Caught(s);
      var moved := Roomy(capacity, caught, Displaced(capacity, caught, count));
      moved.(written := moved.written + count)
  }

  function Roomy(capacity: nat, s: State, displaced: nat): State {
    if displaced == 0 then s
    else s.(cursor := s.cursor + displaced as real, overruns := s.overruns + 1, primed := false)
  }

  // ---------------------------------------------------------------- read

  function NominalStep(s: State): (step: real)
    requires Configured(s)
    ensures step > 0.0
  {
    s.sourceRate as real / s.destinationRate as real
  }

  function TargetFill(capacity: nat, s: State, size: nat): real
    requires Configured(s)
  {
    Clamp(size as real * NominalStep(s) * 2.0, 16.0, (capacity / 4) as real)
  }

  function Correction(available: real, target: real): real
    requires target > 0.0
  {
    Clamp((available - target) / target * 1_000.0, -500.0, 500.0)
  }

  /** How a read proceeds: too little to prime with, or from `start` in equal steps. */
  datatype Plan = Starved | Paced(start: real, ppm: real, step: real)

  function PlanRead(capacity: nat, s: State, size: nat): Plan
    requires Configured(s) && capacity >= 64
  {
    var target := TargetFill(capacity, s, size);
    var available := s.written as real - s.cursor;
    if !s.primed && available < target + 2.0 then Starved
    else
      var start := if s.primed then s.cursor else s.written as real - target;
      var ppm := Correction(if s.primed then available else target, target);
      Paced(start, ppm, Corrected(NominalStep(s), ppm))
  }

  /** A step adjusted by so many parts per million. */
  function Corrected(step: real, ppm: real): real {
    Scaled(step, 1.0 + ppm * 0.000_001)
  }

  function Position(start: real, step: real, k: nat): real {
    start + k as real * step
  }

  /** Frames a read can interpolate before the frame to the right is not written yet. */
  function Produced(written: nat, start: real, step: real, size: nat): (count: nat)
    ensures count <= size
    decreases size
  {
    if size == 0 || start.Floor + 1 >= written then 0 else 1 + Produced(written, start + step, step, size - 1)
  }

  lemma ProducedStep(written: nat, start: real, step: real, size: nat)
    requires size > 0
    ensures Produced(written, start, step, size) ==
            if start.Floor + 1 >= written then 0 else 1 + Produced(written, start + step, step, size - 1)
  {
  }

  lemma ProducedNone(written: nat, start: real, step: real)
    ensures Produced(written, start, step, 0) == 0
  {
  }

  lemma StartPosition(start: real, step: real)
    ensures Position(start, step, 0) == start
  {
  }

  datatype ReadResult = ReadResult(state: State, produced: nat)

  function AfterRead(capacity: nat, s: State, size: nat): ReadResult
    requires capacity >= 64
  {
    if size == 0 || !Configured(s) then ReadResult(s, 0)
    else
      match PlanRead(capacity, s, size)
      case Starved => ReadResult(s.(underruns := s.underruns + 1), 0)
      case Paced(start, ppm, step) =>
        var produced := Produced(s.written, start, step, size);
        var short := produced < size;
        ReadResult(s.(cursor := Position(start, step, produced), correctionPpm := ppm, primed := !short,
                      underruns := s.underruns + if short then 1 else 0), produced)
  }

  // ---------------------------------------------------------------- interpolation

  /** The stream at a fractional frame. */
  function Interpolated(stream: seq<real>, r: real): real
    requires 0.0 <= r && r.Floor + 1 < |stream|
  {
    Blend(stream[r.Floor], stream[r.Floor + 1], r - r.Floor as real)
  }

  function Blend(left: real, right: real, fraction: real): real {
    left + Scaled(right - left, fraction)
  }

  function Scaled(x: real, factor: real): real { x * factor }

  predicate Between(x: real, a: real, b: real) {
    a <= x <= b || b <= x <= a
  }

  /** An output lies between the two true frames around its position. */
  lemma InterpolatedBetween(stream: seq<real>, r: real)
    requires 0.0 <= r && r.Floor + 1 < |stream|
    ensures Between(Interpolated(stream, r), stream[r.Floor], stream[r.Floor + 1])
  {
    BlendBetween(stream[r.Floor], stream[r.Floor + 1], r - r.Floor as real);
  }

  lemma BlendBetween(left: real, right: real, fraction: real)
    requires 0.0 <= fraction < 1.0
    ensures Between(Blend(left, right, fraction), left, right)
  {
    Fraction(right - left, fraction);
    hide Scaled;
    RiseBetween(left, right, Scaled(right - left, fraction));
  }

  lemma RiseBetween(left: real, right: real, rise: real)
    requires right >= left ==> 0.0 <= rise <= right - left
    requires right <= left ==> right - left <= rise <= 0.0
    ensures Between(left + rise, left, right)
  {
  }

  lemma Fraction(d: real, f: real)
    requires 0.0 <= f < 1.0
    ensures d >= 0.0 ==> 0.0 <= Scaled(d, f) <= d
    ensures d <= 0.0 ==> d <= Scaled(d, f) <= 0.0
  {
    assert d * (1.0 - f) == d - d * f;
    if d >= 0.0 {
      SameSign(d, f);
      SameSign(d, 1.0 - f);
    } else {
      SameSign(-d, f);
      SameSign(-d, 1.0 - f);
    }
  }

  lemma SameSign(x: real, y: real)
    requires x >= 0.0 && y >= 0.0
    ensures x * y >= 0.0
  {
  }

  /** One output is the stream at a position, and lies between the two true frames around it. */
  ghost predicate Faithful(stream: seq<real>, r: real, output: real) {
    && 0.0 <= r && r.Floor + 1 < |stream|
    && output == Interpolated(stream, r)
    && Between(output, stream[r.Floor], stream[r.Floor + 1])
  }

  /** Outputs in equal steps over the stream. */
  ghost predicate FaithfulRun(stream: seq<real>, start: real, step: real, outputs: seq<real>) {
    forall k: nat | k < |outputs| :: Faithful(stream, Position(start, step, k), outputs[k])
  }

  lemma EmptyRun(stream: seq<real>, start: real, step: real)
    ensures FaithfulRun(stream, start, step, [])
  {
  }

  lemma FaithfulAppend(stream: seq<real>, start: real, step: real, outputs: seq<real>, output: real)
    requires FaithfulRun(stream, start, step, outputs)
    requires var r := Position(start, step, |outputs|);
             0.0 <= r && r.Floor + 1 < |stream| && output == Interpolated(stream, r)
    ensures FaithfulRun(stream, start, step, outputs + [output])
  {
    InterpolatedBetween(stream, Position(start, step, |outputs|));
    hide Position, Interpolated, Between;
    assert Faithful(stream, Position(start, step, |outputs|), output);
    hide Faithful;
  }

  // ---------------------------------------------------------------- laws

  lemma AfterWriteSound(capacity: nat, s: State, count: nat)
    requires Sound(capacity, s)
    ensures Sound(capacity, AfterWrite(capacity, s, count))
    ensures AfterWrite(capacity, s, count).written == s.written + if count < capacity then count else 0
  {
    var c := Caught(s);
    if c.cursor == s.written as real { assert c.cursor.Floor == s.written; }
    var displaced := Displaced(capacity, c, count);
    assert (c.cursor + displaced as real).Floor == c.cursor.Floor + displaced;
  }

  /** Drift correction moves the step at most 500 parts per million from nominal. */
  lemma StepNearNominal(capacity: nat, s: State, size: nat)
    requires Configured(s) && capacity >= 64 && PlanRead(capacity, s, size).Paced?
    ensures var nominal, step := NominalStep(s), PlanRead(capacity, s, size).step;
            nominal * 0.999_5 <= step <= nominal * 1.000_5
  {
    CorrectedNear(NominalStep(s), PlanRead(capacity, s, size).ppm);
    hide Corrected, NominalStep;
  }

  lemma CorrectedNear(x: real, ppm: real)
    requires x > 0.0 && -500.0 <= ppm <= 500.0
    ensures x * 0.999_5 <= Corrected(x, ppm) <= x * 1.000_5
  {
    var e := ppm * 0.000_001;
    SameSign(x, e + 0.000_5);
    SameSign(x, 0.000_5 - e);
    assert x * (1.0 + e) - x * 0.999_5 == x * (e + 0.000_5);
    assert x * 1.000_5 - x * (1.0 + e) == x * (0.000_5 - e);
  }

  lemma PositionNext(start: real, step: real, k: nat)
    ensures Position(start, step, k + 1) == Position(start, step, k) + step
    ensures Position(start + step, step, k) == Position(start, step, k + 1)
  {
    assert (k + 1) as real * step == k as real * step + step;
  }

  /** Every produced frame has both neighbours written; reading stops only where one is not. */
  lemma {:induction false} ProducedFits(written: nat, start: real, step: real, size: nat)
    requires step >= 0.0
    ensures var count := Produced(written, start, step, size);
            && (forall k: nat | k < count :: Position(start, step, k).Floor + 1 < written)
            && (count < size ==> Position(start, step, count).Floor + 1 >= written)
    ensures Position(start, step, Produced(written, start, step, size)) >= start
    decreases size
  {
    if size == 0 || start.Floor + 1 >= written {
    } else {
      var count := Produced(written, start, step, size);
      ProducedFits(written, start + step, step, size - 1);
      forall k: nat | k < count ensures Position(start, step, k).Floor + 1 < written {
        if k > 0 {
          PositionNext(start, step, k - 1);
          assert Position(start + step, step, k - 1).Floor + 1 < written;
        }
      }
      PositionNext(start, step, count - 1);
    }
  }

  /** The last position decides whether a whole block can be produced. */
  lemma {:induction false} ProducesAll(written: nat, start: real, step: real, size: nat)
    requires step >= 0.0 && size > 0
    ensures Produced(written, start, step, size) == size <==> Position(start, step, size - 1).Floor + 1 < written
    decreases size
  {
    if size > 1 {
      PositionNext(start, step, size - 2);
      ProducesAll(written, start + step, step, size - 1);
    }
  }

  /** A read only moves the cursor forwards, by equal steps over true positions: less than one step past the
      last frame that could be interpolated, or, if it produced nothing, at most to the working fill. */
  lemma AfterReadSound(capacity: nat, s: State, size: nat)
    requires Sound(capacity, s)
    ensures var r := AfterRead(capacity, s, size);
            && Sound(capacity, r.state) && r.state.cursor >= s.cursor && r.state.written == s.written
            && (r.produced == 0 ==> r.state.cursor == s.cursor || r.state.cursor <= s.written as real - 16.0)
            && (r.produced > 0 ==>
                  && Configured(s) && PlanRead(capacity, s, size).Paced?
                  && r.state.cursor < s.written as real - 1.0 + PlanRead(capacity, s, size).step)
  {
    if size > 0 && Configured(s) {
      var p := PlanRead(capacity, s, size);
      if p.Paced? {
        StepNearNominal(capacity, s, size);
        assert p.start >= s.cursor;
        ProducedFits(s.written, p.start, p.step, size);
        var count := Produced(s.written, p.start, p.step, size);
        if count > 0 {
          PositionNext(p.start, p.step, count - 1);
          assert Position(p.start, p.step, count - 1).Floor + 1 < s.written;
        } else {
          assert Position(p.start, p.step, 0) == p.start;
        }
        hide Produced, TargetFill, Correction, Corrected, NominalStep;
      }
    }
  }

  // ---------------------------------------------------------------- whole runs

  datatype Op = Feed(count: nat) | Draw(size: nat)

  function Perform(capacity: nat, s: State, op: Op): State
    requires capacity >= 64
  {
    match op
    case Feed(count) => AfterWrite(capacity, s, count)
    case Draw(size) => AfterRead(capacity, s, size).state
  }

  function Run(capacity: nat, s: State, ops: seq<Op>): State
    requires capacity >= 64
    decreases |ops|
  {
    if ops == [] then s else Run(capacity, Perform(capacity, s, ops[0]), ops[1..])
  }

  /** Frames of the blocks that fit the ring: the accepted stream. */
  function AcceptedFrames(capacity: nat, ops: seq<Op>): nat {
    if ops == [] then 0
    else (if ops[0].Feed? && ops[0].count < capacity then ops[0].count else 0) + AcceptedFrames(capacity, ops[1..])
  }

  /** After any blocks and reads: the ring has counted exactly the accepted frames, the read position is at
      most `capacity - 2` frames behind them, so every frame still to be read is still in the ring. */
  lemma {:induction false} RunStaysInRing(capacity: nat, s: State, ops: seq<Op>)
    requires Sound(capacity, s)
    ensures var r := Run(capacity, s, ops);
            Sound(capacity, r) && r.written == s.written + AcceptedFrames(capacity, ops)
    decreases |ops|
  {
    if ops != [] {
      match ops[0] {
        case Feed(count) => AfterWriteSound(capacity, s, count);
        case Draw(size) => AfterReadSound(capacity, s, size);
      }
      hide Sound, AfterWrite, AfterRead;
      RunStaysInRing(capacity, Perform(capacity, s, ops[0]), ops[1..]);
    }
  }
}
