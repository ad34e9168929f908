/** The drift-correcting resampler as an object: a ring of frames behind a fractional read cursor. */
module AsyncMonoResampler {
  import opened Bounds
  import opened ModularArithmetic
  import opened ResamplerModel
  import opened Samples

  /** A non-finite frame is stored as silence. */
  function Cleaned(frame: Float): Sample {
    match frame
    case Finite(value) => value
    case NotFinite => 0.0
  }

  function CleanedAll(frames: seq<Float>): seq<Sample> {
    seq(|frames|, (i: nat) requires i < |frames| => Cleaned(frames[i]))
  }

  /** The ring holds the newest frames of the stream. */
  ghost predicate Holds(ring: seq<Sample>, stream: seq<Sample>) {
    && |ring| > 0
    && forall i: nat | i < |stream| && |stream| <= i + |ring| :: ring[Cell(i, |ring|)] == stream[i]
  }

  lemma AppendHolds(ring: seq<Sample>, stream: seq<Sample>, frame: Sample)
    requires Holds(ring, stream)
    ensures Holds(ring[Cell(|stream|, |ring|) := frame], stream + [frame])
  {
    var after := ring[Cell(|stream|, |ring|) := frame];
    forall i: nat | i < |stream| + 1 && |stream| + 1 <= i + |ring|
      ensures after[Cell(i, |ring|)] == (stream + [frame])[i]
    {
      if i < |stream| && Cell(i, |ring|) == Cell(|stream|, |ring|) {
        SameResidue(i, |stream|, |ring|);
      }
    }
  }

  class Resampler {
    const capacity: nat
    const samples: array<Sample>
    var state: State
    /** Every frame accepted since the cursors were last reset. */
    ghost var stream: seq<Sample>

    ghost predicate Valid()
      reads this, samples
    {
      && IsPowerOfTwo(capacity) && samples.Length == capacity && Sound(capacity, state)
      && |stream| == state.written && Holds(samples[..], stream)
    }

    constructor (capacity: nat)
      requires IsPowerOfTwo(capacity) && capacity >= 64
      ensures Valid() && fresh(samples) && state == Initial() && this.capacity == capacity
    {
      this.capacity := capacity;
      samples := new Sample[capacity](_ => 0.0);
      state, stream := Initial(), [];
    }

    method TryConfigure(sourceRate: nat, destinationRate: nat) returns (accepted: bool)
      requires Valid()
      modifies this
      ensures Valid() && (accepted <==> RateAllowed(sourceRate) && RateAllowed(destinationRate))
      ensures state == if accepted then Cleared(old(state).(sourceRate := sourceRate, destinationRate := destinationRate))
                       else old(state)
      ensures stream == if accepted then [] else old(stream)
    {
      if !RateAllowed(sourceRate) || !RateAllowed(destinationRate) {
        return false;
      }
      state := state.(sourceRate := sourceRate, destinationRate := destinationRate);
      Clear();
      accepted := true;
    }

    /** Old frames stay in the ring but can no longer be reached. */
    method Clear()
      requires samples.Length == capacity >= 64 && IsPowerOfTwo(capacity)
      modifies this
      ensures Valid() && state == Cleared(old(state)) && stream == []
    {
      state, stream := Cleared(state), [];
    }

    /** A block is accepted whole, at the cost of the oldest waiting frames, or refused whole. */
    method Write(source: seq<Float>) returns (accepted: nat)
      requires Valid()
      modifies this, samples
      ensures Valid() && state == AfterWrite(capacity, old(state), |source|)
      ensures accepted == if |source| < capacity then |source| else 0
      ensures stream == old(stream) + CleanedAll(source[..accepted])
    {
      hide IsPowerOfTwo, Holds, Roomy, Displaced, Caught;
      AfterWriteSound(capacity, state, |source|);
      if |source| == 0 {
        return 0;
      }
      if |source| >= capacity {
        state := state.(overruns := state.overruns + 1);
        return 0;
      }
      MakeRoom(|source|);
      ghost var room := state;
      assert |stream| == state.written;
      for i := 0 to |source|
        invariant state == room.(written := room.written + i) && |stream| == state.written
        invariant stream == old(stream) + CleanedAll(source[..i]) && Holds(samples[..], stream)
      {
        Push(Cleaned(source[i]));
      }
      assert source[..|source|] == source;
      return |source|;
    }

    method MakeRoom(count: nat)
      requires capacity >= GUARD
      modifies this`state
      ensures var caught := Caught(old(state)); state == Roomy(capacity, caught, Displaced(capacity, caught, count))
    {
      if state.cursor > state.written as real {
        state := state.(cursor := state.written as real, primed := false);
      }
      var used := state.written - state.cursor.Floor;
      var usable := capacity - GUARD;
      if count > usable - Min(used, usable) {
        var discarded := count - (usable - Min(used, usable));
        state := state.(cursor := state.cursor + discarded as real, overruns := state.overruns + 1, primed := false);
      }
    }

    method Push(frame: Sample)
      requires samples.Length == capacity > 0 && |stream| == state.written && Holds(samples[..], stream)
      modifies this`state, this`stream, samples
      ensures state == old(state).(written := old(state).written + 1)
      ensures stream == old(stream) + [frame] && Holds(samples[..], stream)
    {
      AppendHolds(samples[..], stream, frame);
      ghost var was := samples[..];
      samples[Cell(state.written, capacity)] := frame;
      assert samples[..] == was[Cell(state.written, capacity) := frame];
      stream := stream + [frame];
      state := state.(written := state.written + 1);
    }

    /** Fills what it can: output `k` interpolates the accepted stream at `start + k * step`. */
    method Read(destination: array<Sample>) returns (produced: nat)
      requires Valid() && destination != samples
      modifies this, destination
      ensures Valid() && stream == old(stream)
      ensures var r := AfterRead(capacity, old(state), destination.Length);
              state == r.state && produced == r.produced <= destination.Length
      ensures produced > 0 ==>
                && Configured(old(state))
                && var plan := PlanRead(capacity, old(state), destination.Length);
                && plan.Paced? && plan.start >= old(state).cursor
                && FaithfulRun(stream, plan.start, plan.step, destination[..produced])
      ensures forall k: nat | produced <= k < destination.Length :: destination[k] == 0.0
    {
      for i := 0 to destination.Length
        modifies destination
        invariant forall k: nat | k < i :: destination[k] == 0.0
      {
        destination[i] := 0.0;
      }
      if destination.Length == 0 || !Configured(state) {
        return 0;
      }
      hide IsPowerOfTwo, Holds, TargetFill, NominalStep, Correction, Corrected, Interpolated, Position, Between;
      AfterReadSound(capacity, state, destination.Length);
      var target := TargetFill(capacity, state, destination.Length);
      var available := state.written as real - state.cursor;
      if !state.primed {
        if available < target + 2.0 {
          state := state.(underruns := state.underruns + 1);
          return 0;
        }
        state := state.(cursor := state.written as real - target, primed := true);
        available := target;
      }
      state := state.(correctionPpm := Correction(available, target));
      var step := Corrected(NominalStep(state), state.correctionPpm);
      StepNearNominal(capacity, old(state), destination.Length);
      produced := Interpolate(destination, step);
    }

    method Interpolate(destination: array<Sample>, step: real) returns (produced: nat)
      requires Valid() && destination != samples && step > 0.0
      modifies this`state, destination
      ensures produced == Produced(state.written, old(state).cursor, step, destination.Length)
      ensures state == old(state).(cursor := Position(old(state).cursor, step, produced),
                                   primed := old(state).primed && produced == destination.Length,
                                   underruns := old(state).underruns + if produced < destination.Length then 1 else 0)
      ensures FaithfulRun(stream, old(state).cursor, step, destination[..produced])
      ensures forall k: nat | produced <= k < destination.Length :: destination[k] == old(destination[k])
    {
      hide IsPowerOfTwo, Holds, FaithfulRun, Produced, Position, Interpolated;
      produced := 0;
      ghost var start := state.cursor;
      StartPosition(start, step);
      EmptyRun(stream, start, step);
      while produced < destination.Length
        invariant produced <= destination.Length
        invariant state == old(state).(cursor := Position(start, step, produced)) && state.cursor >= start
        invariant produced + Produced(state.written, state.cursor, step, destination.Length - produced)
                  == Produced(state.written, start, step, destination.Length)
        invariant FaithfulRun(stream, start, step, destination[..produced])
        invariant forall k: nat | produced <= k < destination.Length :: destination[k] == old(destination[k])
      {
        ProducedStep(state.written, state.cursor, step, destination.Length - produced);
        var leftFrame := state.cursor.Floor;
        if leftFrame + 1 >= state.written {
          state := state.(primed := false, underruns := state.underruns + 1);
          return;
        }
        ghost var outputs := destination[..produced];
        InterpolateOne(destination, produced);
        FaithfulAppend(stream, start, step, outputs, destination[produced]);
        assert destination[..produced + 1] == outputs + [destination[produced]];
        PositionNext(start, step, produced);
        state := state.(cursor := state.cursor + step);
        produced := produced + 1;
      }
      ProducedNone(state.written, state.cursor, step);
    }

    method InterpolateOne(destination: array<Sample>, k: nat)
      requires Valid() && destination != samples && k < destination.Length && state.cursor.Floor + 1 < state.written
      modifies destination
      ensures destination[k] == Interpolated(stream, state.cursor)
      ensures forall j: nat | j < destination.Length && j != k :: destination[j] == old(destination[j])
    {
      var leftFrame := state.cursor.Floor;
      var left := samples[Cell(leftFrame, capacity)];
      var right := samples[Cell(leftFrame + 1, capacity)];
      destination[k] := Blend(left, right, state.cursor - leftFrame as real);
    }
  }
}
