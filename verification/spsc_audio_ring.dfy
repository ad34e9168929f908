/** The single-producer, single-consumer audio ring as an object, one call at a time: the two-piece
    wraparound copies keep a bounded queue of interleaved samples. `SpscInterleaving` covers
    concurrent calls. */
module SpscAudioRing {
  import opened Bounds
  import opened ModularArithmetic
  import opened Samples

  /** The cell of the tape position `i` samples on from another. */
  function Place(from: nat, i: nat, length: nat): (cell: nat)
    requires length > 0
    ensures cell < length
  {
    Cell(from + i, length)
  }

  /** `count` samples of the tape, from a given position. */
  function Unwound(ring: seq<Sample>, from: nat, count: nat): seq<Sample>
    requires |ring| > 0
  {
    seq(count, (i: nat) => ring[Place(from, i, |ring|)])
  }

  /** Position `from + i` of the tape for some `i < count` lies in this cell. */
  predicate Touched(cell: nat, from: nat, count: nat, length: nat)
    requires length > 0
  {
    Cell(cell - from, length) < count
  }

  /** Where sample `i` of a block starting at a frame lands: after the start cell until the end of
      the ring, then from the beginning. */
  lemma TwoPieces(frame: nat, i: nat, capacity: nat, channels: nat)
    requires capacity > 0 && channels > 0 && i < capacity * channels
    ensures capacity * channels > 0
    ensures var length := capacity * channels;
            var start := (frame % capacity) * channels;
            && start < length
            && Place(frame * channels, i, length) == (if start + i < length then start + i else start + i - length)
  {
    var q, s := frame / capacity, frame % capacity;
    FrameStart(frame, q, s, capacity, channels);
    WrapOnce(frame * channels, q, s * channels, i, capacity * channels);
  }

  lemma FrameStart(frame: nat, q: nat, s: nat, capacity: nat, channels: nat)
    requires channels > 0 && s < capacity && frame == q * capacity + s
    ensures frame * channels == q * (capacity * channels) + s * channels
    ensures s * channels < capacity * channels
  {
    Distribute(q * capacity, s, channels);
    assert q * capacity * channels == q * (capacity * channels);
    Distribute(capacity - 1 - s, s + 1, channels);
    Distribute(s, 1, channels);
    Fits(capacity - 1 - s, channels);
  }

  lemma Distribute(a: int, b: int, x: int)
    ensures (a + b) * x == a * x + b * x
  {
  }

  lemma Fits(a: nat, x: nat)
    ensures a * x >= 0
  {
  }

  lemma WrapOnce(from: nat, q: nat, start: nat, i: nat, length: nat)
    requires from == q * length + start && start < length && i < length
    ensures Place(from, i, length) == if start + i < length then start + i else start + i - length
  {
    assert (q + 1) * length == q * length + length;
    if start + i < length {
      ResidueUnique(from + i, q, start + i, length);
    } else {
      ResidueUnique(from + i, q + 1, start + i - length, length);
    }
  }

  /** A cell is `i` positions after `from` exactly when it is the place of sample `i`. */
  lemma PlaceOffset(from: nat, i: nat, length: nat)
    requires i < length
    ensures Cell(Place(from, i, length) - from, length) == i
  {
    var q := (from + i) / length;
    assert Place(from, i, length) - from == -q * length + i;
    ResidueUnique(Place(from, i, length) - from, -q, i, length);
  }

  lemma UnreadUntouched(p: nat, from: nat, count: nat, length: nat)
    requires length > 0 && p < from && from + count <= p + length
    ensures !Touched(Cell(p, length), from, count, length)
  {
    var q := p / length;
    assert p == q * length + Cell(p, length);
    assert Cell(p, length) - from == (-q - 1) * length + (p + length - from);
    ResidueUnique(Cell(p, length) - from, -q - 1, p + length - from, length);
  }

  /** Filling free cells after the unread samples appends to them. */
  lemma FillExtends(before: seq<Sample>, after: seq<Sample>, unread: nat, from: nat, block: seq<Sample>)
    requires |before| == |after| > 0 && unread <= from && from + |block| <= unread + |before|
    requires Unwound(after, from, |block|) == block
    requires forall cell: nat | cell < |before| && !Touched(cell, from, |block|, |before|) :: after[cell] == before[cell]
    ensures Unwound(after, unread, from + |block| - unread) == Unwound(before, unread, from - unread) + block
  {
    var whole := Unwound(after, unread, from + |block| - unread);
    var kept := Unwound(before, unread, from - unread);
    forall i: nat | i < from - unread ensures whole[i] == kept[i] {
      UnreadUntouched(unread + i, from, |block|, |before|);
    }
    forall i: nat | i < |block| ensures whole[from - unread + i] == block[i] {
      assert Unwound(after, from, |block|)[i] == block[i];
      assert Place(unread, from - unread + i, |after|) == Place(from, i, |after|);
    }
    hide Cell, Touched, Unwound;
  }

  /** The two copied pieces together are the block, laid along the tape; no other cell changes. */
  lemma PiecesUnwind(before: seq<Sample>, after: seq<Sample>, source: seq<Sample>,
                     frame: nat, capacity: nat, channels: nat, first: nat)
    requires capacity > 0 && channels > 0 && |before| == |after| == capacity * channels
    requires var start := (frame % capacity) * channels;
             && first <= |source| <= |before| && start + first <= |before|
             && (first < |source| ==> start + first == |before|)
             && (forall i: nat | i < first :: after[start + i] == source[i])
             && (forall i: nat | i < |source| - first :: after[i] == source[first + i])
             && (forall cell: nat | cell < |before| && !(start <= cell < start + first) && cell >= |source| - first ::
                   after[cell] == before[cell])
    ensures Unwound(after, frame * channels, |source|) == source
    ensures forall cell: nat | cell < |before| && !Touched(cell, frame * channels, |source|, |before|) ::
              after[cell] == before[cell]
  {
    var from, start := frame * channels, (frame % capacity) * channels;
    forall i: nat | i < |source|
      ensures Place(from, i, |before|) == if i < first then start + i else i - first
      ensures Touched(Place(from, i, |before|), from, |source|, |before|)
    {
      TwoPieces(frame, i, capacity, channels);
      PlaceOffset(from, i, |before|);
    }
    hide Place, Cell, Touched;
    forall i: nat | i < |source| ensures Unwound(after, from, |source|)[i] == source[i] {
      if i >= first {
        assert source[i] == source[first + (i - first)];
      }
    }
    forall cell: nat | start <= cell < start + first || cell < |source| - first
      ensures Touched(cell, from, |source|, |before|)
    {
      if start <= cell < start + first {
        assert Place(from, cell - start, |before|) == cell;
      } else {
        assert Place(from, cell + first, |before|) == cell;
      }
    }
  }

  class Ring {
    const capacityFrames: nat
    const channelCount: nat
    const samples: array<Sample>
    var writeCursor: nat
    var readCursor: nat
    var overruns: nat
    var underruns: nat

    ghost predicate Valid()
      reads this
    {
      && capacityFrames >= 2 && IsPowerOfTwo(capacityFrames) && channelCount >= 1
      && samples.Length == capacityFrames * channelCount > 0
      && readCursor <= writeCursor <= readCursor + capacityFrames
    }

    /** The samples written and not yet read, in order. */
    ghost function Contents(): seq<Sample>
      requires Valid()
      reads this, samples
    {
      Unwound(samples[..], readCursor * channelCount, (writeCursor - readCursor) * channelCount)
    }

    constructor (capacityFrames: nat, channelCount: nat)
      requires capacityFrames >= 2 && IsPowerOfTwo(capacityFrames) && channelCount >= 1
      ensures Valid() && fresh(samples) && Contents() == []
      ensures this.capacityFrames == capacityFrames && this.channelCount == channelCount
      ensures overruns == underruns == 0
    {
      this.capacityFrames, this.channelCount := capacityFrames, channelCount;
      samples := new Sample[capacityFrames * channelCount](_ => 0.0);
      writeCursor, readCursor, overruns, underruns := 0, 0, 0, 0;
    }

    /** Writes the complete block or nothing. */
    method Write(interleaved: seq<Sample>) returns (written: nat)
      requires Valid()
      modifies this`writeCursor, this`overruns, samples
      ensures Valid()
      ensures var frames := |interleaved| / channelCount;
              var free := capacityFrames - (old(writeCursor) - readCursor);
              if |interleaved| % channelCount != 0 then
                written == 0 && Contents() == old(Contents()) && overruns == old(overruns)
              else if frames > free then
                written == 0 && Contents() == old(Contents()) && overruns == old(overruns) + 1
              else
                written == frames && Contents() == old(Contents()) + interleaved && overruns == old(overruns)
    {
      if |interleaved| % channelCount != 0 {
        return 0;
      }
      var frames := |interleaved| / channelCount;
      var usedFrames := writeCursor - readCursor;
      if frames > capacityFrames - usedFrames {
        overruns := overruns + 1;
        return 0;
      }
      ghost var before := samples[..];
      ghost var unread, from := readCursor * channelCount, writeCursor * channelCount;
      assert |interleaved| == frames * channelCount;
      BlockFits(readCursor, writeCursor, frames, capacityFrames, channelCount);
      hide IsPowerOfTwo, Unwound, Touched;
      Distribute(readCursor, writeCursor - readCursor, channelCount);
      Distribute(readCursor, writeCursor + frames - readCursor, channelCount);
      Distribute(writeCursor, frames, channelCount);
      CopyIntoRing(interleaved, frames);
      FillExtends(before, samples[..], unread, from, interleaved);
      writeCursor := writeCursor + frames;
      return frames;
    }

    method CopyIntoRing(source: seq<Sample>, frames: nat)
      requires Valid() && |source| == frames * channelCount && frames <= capacityFrames
      modifies samples
      ensures Unwound(samples[..], writeCursor * channelCount, |source|) == source
      ensures forall cell: nat | cell < samples.Length
                && !Touched(cell, writeCursor * channelCount, |source|, samples.Length) ::
                  samples[cell] == old(samples[cell])
    {
      hide IsPowerOfTwo, Unwound, Touched;
      var startFrame := writeCursor % capacityFrames;
      var firstFrames := Min(frames, capacityFrames - startFrame);
      var firstSamples := firstFrames * channelCount;
      var start := startFrame * channelCount;
      PiecesFit(frames, startFrame, capacityFrames, channelCount);
      for i := 0 to firstSamples
        invariant forall j: nat | j < i :: samples[start + j] == source[j]
        invariant forall cell: nat | cell < samples.Length && !(start <= cell < start + i) ::
                    samples[cell] == old(samples[cell])
      {
        samples[start + i] := source[i];
      }
      var remainingSamples := |source| - firstSamples;
      for i := 0 to remainingSamples
        invariant forall j: nat | j < firstSamples :: samples[start + j] == source[j]
        invariant forall j: nat | j < i :: samples[j] == source[firstSamples + j]
        invariant forall cell: nat | cell < samples.Length && !(start <= cell < start + firstSamples) && cell >= i ::
                    samples[cell] == old(samples[cell])
      {
        samples[i] := source[firstSamples + i];
      }
      PiecesUnwind(old(samples[..]), samples[..], source, writeCursor, capacityFrames, channelCount, firstSamples);
    }

    /** Fills the destination with the oldest frames, then with silence. */
    method ReadAndZeroFill(interleaved: array<Sample>) returns (framesRead: nat)
      requires Valid() && interleaved != samples
      modifies this`readCursor, this`underruns, interleaved
      ensures Valid()
      ensures var requested := interleaved.Length / channelCount;
              var available := writeCursor - old(readCursor);
              if interleaved.Length % channelCount != 0 then
                && framesRead == 0 && interleaved[..] == Zeros(interleaved.Length)
                && Contents() == old(Contents()) && underruns == old(underruns)
              else
                && framesRead == Min(requested, available)
                && old(Contents()) == interleaved[..framesRead * channelCount] + Contents()
                && interleaved[framesRead * channelCount..] == Zeros(interleaved.Length - framesRead * channelCount)
                && underruns == old(underruns) + if framesRead < requested then 1 else 0
    {
      if interleaved.Length % channelCount != 0 {
        ZeroFrom(interleaved, 0);
        return 0;
      }
      framesRead := ReadFrames(interleaved);
    }

    /** Whole frames into a destination of whole frames. */
    method ReadFrames(interleaved: array<Sample>) returns (framesRead: nat)
      requires Valid() && interleaved != samples && interleaved.Length % channelCount == 0
      modifies this`readCursor, this`underruns, interleaved
      ensures Valid()
      ensures var requested := interleaved.Length / channelCount;
              && framesRead == Min(requested, writeCursor - old(readCursor))
              && framesRead * channelCount <= interleaved.Length
              && old(Contents()) == interleaved[..framesRead * channelCount] + Contents()
              && interleaved[framesRead * channelCount..] == Zeros(interleaved.Length - framesRead * channelCount)
              && underruns == old(underruns) + if framesRead < requested then 1 else 0
    {
      var requestedFrames := interleaved.Length / channelCount;
      var available := writeCursor - readCursor;
      framesRead := Min(requestedFrames, available);
      BlockFits(0, 0, framesRead, requestedFrames, channelCount);
      BlockFits(readCursor, readCursor, framesRead, available, channelCount);
      CopyFromRing(interleaved, framesRead);
      hide IsPowerOfTwo, Unwound, Zeros;
      SilenceRest(interleaved, framesRead, requestedFrames);
      Advance(framesRead);
    }

    /** Silence after a short read, which counts as an underrun. */
    method SilenceRest(interleaved: array<Sample>, framesRead: nat, requestedFrames: nat)
      requires interleaved != samples && framesRead <= requestedFrames && channelCount > 0
      requires requestedFrames * channelCount == interleaved.Length && framesRead * channelCount <= interleaved.Length
      modifies this`underruns, interleaved
      ensures interleaved[..framesRead * channelCount] == old(interleaved[..framesRead * channelCount])
      ensures interleaved[framesRead * channelCount..] == Zeros(interleaved.Length - framesRead * channelCount)
      ensures underruns == old(underruns) + if framesRead < requestedFrames then 1 else 0
    {
      if framesRead < requestedFrames {
        ZeroFrom(interleaved, framesRead * channelCount);
        underruns := underruns + 1;
      }
    }

    /** Publishes that the oldest frames have been read. */
    method Advance(frames: nat)
      requires Valid() && frames <= writeCursor - readCursor
      modifies this`readCursor
      ensures Valid()
      ensures old(Contents())
              == Unwound(samples[..], old(readCursor) * channelCount, frames * channelCount) + Contents()
    {
      hide IsPowerOfTwo, Unwound;
      TakeShortens(samples[..], readCursor * channelCount, frames * channelCount,
                   (writeCursor - readCursor) * channelCount);
      FramesAdd(readCursor, frames, writeCursor, channelCount);
      readCursor := readCursor + frames;
    }

    method ZeroFrom(destination: array<Sample>, from: nat)
      requires from <= destination.Length && destination != samples
      modifies destination
      ensures destination[..from] == old(destination[..from])
      ensures destination[from..] == Zeros(destination.Length - from)
    {
      for i := from to destination.Length
        invariant destination[..from] == old(destination[..from])
        invariant forall j: nat | from <= j < i :: destination[j] == 0.0
      {
        destination[i] := 0.0;
      }
    }

    method CopyFromRing(destination: array<Sample>, frames: nat)
      requires Valid() && destination != samples && frames <= capacityFrames
      requires frames * channelCount <= destination.Length
      modifies destination
      ensures destination[..frames * channelCount]
              == Unwound(samples[..], readCursor * channelCount, frames * channelCount)
    {
      hide IsPowerOfTwo, Unwound;
      var startFrame := readCursor % capacityFrames;
      var firstFrames := Min(frames, capacityFrames - startFrame);
      var firstSamples := firstFrames * channelCount;
      var start := startFrame * channelCount;
      var total := frames * channelCount;
      PiecesFit(frames, startFrame, capacityFrames, channelCount);
      for i := 0 to firstSamples
        invariant forall j: nat | j < i :: destination[j] == samples[start + j]
      {
        destination[i] := samples[start + i];
      }
      var remainingSamples := total - firstSamples;
      for i := 0 to remainingSamples
        invariant forall j: nat | j < firstSamples :: destination[j] == samples[start + j]
        invariant forall j: nat | j < i :: destination[firstSamples + j] == samples[j]
      {
        destination[firstSamples + i] := samples[i];
      }
      BlockFits(0, 0, frames, capacityFrames, channelCount);
      PiecesRead(samples[..], destination[..total], readCursor, capacityFrames, channelCount, firstSamples);
    }

    /** With both sides stopped: old samples become unreachable. */
    method Clear()
      requires Valid()
      modifies this`readCursor, this`writeCursor, this`underruns, this`overruns
      ensures Valid() && Contents() == [] && overruns == underruns == 0
    {
      readCursor, writeCursor := 0, 0;
      underruns, overruns := 0, 0;
    }
  }

  /** The two pieces read are the samples along the tape. */
  lemma PiecesRead(ring: seq<Sample>, taken: seq<Sample>, frame: nat, capacity: nat, channels: nat, first: nat)
    requires capacity > 0 && channels > 0 && |ring| == capacity * channels
    requires var start := (frame % capacity) * channels;
             && first <= |taken| <= |ring| && start + first <= |ring|
             && (first < |taken| ==> start + first == |ring|)
             && (forall i: nat | i < first :: taken[i] == ring[start + i])
             && (forall i: nat | i < |taken| - first :: taken[first + i] == ring[i])
    ensures taken == Unwound(ring, frame * channels, |taken|)
  {
    var tape := Unwound(ring, frame * channels, |taken|);
    forall i: nat | i < |taken| ensures taken[i] == tape[i] {
      TwoPieces(frame, i, capacity, channels);
      if i >= first {
        assert taken[i] == taken[first + (i - first)];
      }
    }
  }

  /** Taking samples from the front leaves the rest of the tape. */
  lemma TakeShortens(ring: seq<Sample>, from: nat, count: nat, total: nat)
    requires |ring| > 0 && count <= total
    ensures Unwound(ring, from, total) == Unwound(ring, from, count) + Unwound(ring, from + count, total - count)
  {
    var rest := Unwound(ring, from + count, total - count);
    forall i: nat | i < total - count ensures Unwound(ring, from, total)[count + i] == rest[i] {
      assert Place(from, count + i, |ring|) == Place(from + count, i, |ring|);
    }
  }

  lemma FramesAdd(read: nat, frames: nat, write: nat, channels: nat)
    requires read + frames <= write
    ensures (read + frames) * channels == read * channels + frames * channels
    ensures (write - read - frames) * channels == (write - read) * channels - frames * channels
  {
  }

  lemma BlockFits(read: nat, write: nat, frames: nat, capacity: nat, channels: nat)
    requires read <= write && write + frames <= read + capacity
    ensures read * channels <= write * channels
    ensures write * channels + frames * channels <= read * channels + capacity * channels
  {
    assert (read + capacity - write - frames) * channels >= 0;
  }

  /** The first piece ends at the end of the block or of the ring; the second starts at cell 0. */
  lemma PiecesFit(frames: nat, startFrame: nat, capacity: nat, channels: nat)
    requires startFrame < capacity && frames <= capacity
    ensures var first := Min(frames, capacity - startFrame) * channels;
            && startFrame * channels + first <= capacity * channels
            && first <= frames * channels
            && (frames > capacity - startFrame ==> startFrame * channels + first == capacity * channels)
            && frames * channels - first <= startFrame * channels
  {
    var f := Min(frames, capacity - startFrame);
    assert (startFrame + f) * channels == startFrame * channels + f * channels;
    assert (capacity - startFrame - f) * channels >= 0;
    assert (frames - f) * channels >= 0;
    assert (startFrame - (frames - f)) * channels >= 0;
  }
}
