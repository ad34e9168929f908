/** The single-producer, single-consumer ring under every interleaving of one `write` and one
    `readAndZeroFill` at a time, each split into cursor loads, single-cell copies in any order and
    a cursor publication. Memory is sequentially consistent and the 64-bit cursors do not wrap. */
module SpscInterleaving {
  import opened ModularArithmetic

  datatype Writer<T> =
    | WriterIdle
    | WriterStarted(block: seq<T>, writeFrame: nat)
    | WriterCopying(block: seq<T>, writeFrame: nat, readFrame: nat, copied: set<nat>)

  datatype Reader<T> =
    | ReaderIdle
    | ReaderStarted(requested: nat, readFrame: nat)
    | ReaderCopying(requested: nat, readFrame: nat, count: nat, taken: map<nat, T>)

  /** `accepted` and `delivered` record every frame published and every frame handed out. */
  datatype Ring<T> = Ring(
    capacity: nat, cells: seq<T>, writeCursor: nat, readCursor: nat,
    writer: Writer<T>, reader: Reader<T>,
    accepted: seq<T>, delivered: seq<T>, overruns: nat, underruns: nat)

  datatype Step<T> =
    | BeginWrite(block: seq<T>)
    | LoadReadCursor
    | CopyIn(k: nat)
    | PublishWrite
    | BeginRead(requested: nat)
    | LoadWriteCursor
    | CopyOut(k: nat)
    | PublishRead

  predicate Complete(done: set<nat>, n: nat) {
    forall k: nat | k < n :: k in done
  }

  predicate Enabled<T>(s: Ring<T>, step: Step<T>) {
    match step
    case BeginWrite(_) => s.writer.WriterIdle?
    case LoadReadCursor => s.writer.WriterStarted?
    case CopyIn(k) => s.writer.WriterCopying? && k < |s.writer.block|
    case PublishWrite => s.writer.WriterCopying? && Complete(s.writer.copied, |s.writer.block|)
    case BeginRead(_) => s.reader.ReaderIdle?
    case LoadWriteCursor => s.reader.ReaderStarted?
    case CopyOut(k) => s.reader.ReaderCopying? && k < s.reader.count
    case PublishRead => s.reader.ReaderCopying? && Complete(s.reader.taken.Keys, s.reader.count)
  }

  /** The frames taken out by a finished copy, in order. */
  function Taken<T>(reader: Reader<T>): seq<T>
    requires reader.ReaderCopying? && Complete(reader.taken.Keys, reader.count)
  {
    seq(reader.count, (k: nat) requires k < reader.count && Complete(reader.taken.Keys, reader.count) =>
      reader.taken[k])
  }

  function Next<T>(s: Ring<T>, step: Step<T>): Ring<T>
    requires s.capacity == |s.cells| > 0 && Enabled(s, step)
  {
    match step
    case BeginWrite(block) =>
      s.(writer := WriterStarted(block, s.writeCursor))
    case LoadReadCursor =>
      var w := s.writer;
      var used := w.writeFrame - s.readCursor;
      if |w.block| > s.capacity - used then
        s.(writer := WriterIdle, overruns := s.overruns + 1)
      else
        s.(writer := WriterCopying(w.block, w.writeFrame, s.readCursor, {}))
    case CopyIn(k) =>
      var w := s.writer;
      s.(cells := s.cells[Cell(w.writeFrame + k, s.capacity) := w.block[k]],
         writer := w.(copied := w.copied + {k}))
    case PublishWrite =>
      var w := s.writer;
      s.(writer := WriterIdle, writeCursor := w.writeFrame + |w.block|, accepted := s.accepted + w.block)
    case BeginRead(requested) =>
      s.(reader := ReaderStarted(requested, s.readCursor))
    case LoadWriteCursor =>
      var r := s.reader;
      var available := if s.writeCursor < r.readFrame then 0 else s.writeCursor - r.readFrame;
      var count := if r.requested < available then r.requested else available;
      s.(reader := ReaderCopying(r.requested, r.readFrame, count, map[]))
    case CopyOut(k) =>
      var r := s.reader;
      s.(reader := r.(taken := r.taken[k := s.cells[Cell(r.readFrame + k, s.capacity)]]))
    case PublishRead =>
      var r := s.reader;
      s.(reader := ReaderIdle, readCursor := r.readFrame + r.count,
         delivered := s.delivered + Taken(r),
         underruns := s.underruns + if r.count < r.requested then 1 else 0)
  }

  // --------------------------------------------------------------- invariant

  ghost predicate WriterSound<T>(s: Ring<T>)
    requires s.capacity > 0 && |s.cells| == s.capacity
  {
    match s.writer
    case WriterIdle => true
    case WriterStarted(_, writeFrame) => writeFrame == s.writeCursor
    case WriterCopying(block, writeFrame, readFrame, copied) =>
      && writeFrame == s.writeCursor && readFrame <= s.readCursor
      && writeFrame + |block| - readFrame <= s.capacity
      && (forall k | k in copied :: k < |block| && s.cells[Cell(writeFrame + k, s.capacity)] == block[k])
  }

  ghost predicate ReaderSound<T>(s: Ring<T>)
    requires s.writeCursor == |s.accepted|
  {
    match s.reader
    case ReaderIdle => true
    case ReaderStarted(_, readFrame) => readFrame == s.readCursor
    case ReaderCopying(_, readFrame, count, taken) =>
      && readFrame == s.readCursor && readFrame + count <= s.writeCursor
      && (forall k | k in taken :: k < count && taken[k] == s.accepted[readFrame + k])
  }

  /** Unread frames sit in their cells, and what was delivered is what was accepted, in order. */
  ghost predicate Invariant<T>(s: Ring<T>) {
    && s.capacity == |s.cells| > 0
    && s.readCursor <= s.writeCursor <= s.readCursor + s.capacity
    && s.writeCursor == |s.accepted| && s.delivered == s.accepted[..s.readCursor]
    && (forall f: nat | s.readCursor <= f < s.writeCursor :: s.cells[Cell(f, s.capacity)] == s.accepted[f])
    && WriterSound(s) && ReaderSound(s)
  }

  lemma CellsDistinct(capacity: nat, f: nat, g: nat)
    requires capacity > 0 && Cell(f, capacity) == Cell(g, capacity) && f < g + capacity && g < f + capacity
    ensures f == g
  {
    SameResidue(f, g, capacity);
  }

  lemma CopyInKeepsInvariant<T>(s: Ring<T>, k: nat)
    requires Invariant(s) && Enabled(s, CopyIn(k))
    ensures Invariant(Next(s, CopyIn(k)))
  {
    var w := s.writer;
    var cell := Cell(w.writeFrame + k, s.capacity);
    forall f: nat | s.readCursor <= f < s.writeCursor ensures Cell(f, s.capacity) != cell {
      if Cell(f, s.capacity) == cell {
        CellsDistinct(s.capacity, f, w.writeFrame + k);
      }
    }
    forall j | j in w.copied ensures Cell(w.writeFrame + j, s.capacity) == cell ==> j == k {
      if Cell(w.writeFrame + j, s.capacity) == cell {
        CellsDistinct(s.capacity, w.writeFrame + j, w.writeFrame + k);
      }
    }
    hide Cell;
  }

  lemma PublishReadKeepsInvariant<T>(s: Ring<T>)
    requires Invariant(s) && Enabled(s, PublishRead)
    ensures Invariant(Next(s, PublishRead))
  {
    var r := s.reader;
    var taken := Taken(r);
    forall k: nat | k < r.count ensures taken[k] == s.accepted[r.readFrame + k] {
      assert k in r.taken.Keys;
    }
    assert s.accepted[..r.readFrame + r.count] == s.accepted[..r.readFrame] + taken;
    hide Cell, Taken;
  }

  lemma PublishWriteKeepsInvariant<T>(s: Ring<T>)
    requires Invariant(s) && Enabled(s, PublishWrite)
    ensures Invariant(Next(s, PublishWrite))
  {
    hide Cell;
    var w := s.writer;
    var r := Next(s, PublishWrite);
    forall f: nat | s.readCursor <= f < r.writeCursor
      ensures s.cells[Cell(f, s.capacity)] == r.accepted[f]
    {
      if f >= s.writeCursor {
        assert f - s.writeCursor in w.copied;
        assert f == w.writeFrame + (f - s.writeCursor);
      }
    }
    assert r.accepted[..s.readCursor] == s.accepted[..s.readCursor];
  }

  lemma StepKeepsInvariant<T>(s: Ring<T>, step: Step<T>)
    requires Invariant(s) && Enabled(s, step)
    ensures Invariant(Next(s, step))
  {
    hide Cell;
    match step {
      case CopyIn(k) => CopyInKeepsInvariant(s, k);
      case PublishRead => PublishReadKeepsInvariant(s);
      case PublishWrite => PublishWriteKeepsInvariant(s);
      case _ =>
    }
  }

  // -------------------------------------------------------------------- runs

  function Empty<T>(cells: seq<T>): Ring<T> {
    Ring(|cells|, cells, 0, 0, WriterIdle, ReaderIdle, [], [], 0, 0)
  }

  /** A sequence of states from an empty ring, each reached from the one before by an enabled step. */
  ghost predicate IsRun<T>(states: seq<Ring<T>>, steps: seq<Step<T>>) {
    && |states| == |steps| + 1
    && |states[0].cells| > 0 && states[0] == Empty(states[0].cells)
    && forall i | 0 <= i < |steps| ::
         && states[i].capacity == |states[i].cells| > 0
         && Enabled(states[i], steps[i]) && states[i + 1] == Next(states[i], steps[i])
  }

  lemma {:induction false} RunKeepsInvariant<T>(states: seq<Ring<T>>, steps: seq<Step<T>>, i: nat)
    requires IsRun(states, steps) && i < |states|
    ensures Invariant(states[i])
  {
    if i > 0 {
      RunKeepsInvariant(states, steps, i - 1);
      StepKeepsInvariant(states[i - 1], steps[i - 1]);
    }
  }

  /** The ring is a bounded queue in every interleaving: it never holds more than its capacity, and
      the frames delivered are a prefix of the frames accepted, followed by exactly those unread. */
  lemma RunIsBoundedQueue<T>(states: seq<Ring<T>>, steps: seq<Step<T>>, i: nat)
    requires IsRun(states, steps) && i < |states|
    ensures var s := states[i];
            && 0 <= s.writeCursor - s.readCursor <= s.capacity
            && |s.accepted| == s.writeCursor && |s.delivered| == s.readCursor
            && s.delivered <= s.accepted
            && s.capacity == |s.cells| > 0
            && (forall f: nat | s.readCursor <= f < s.writeCursor ::
                  s.cells[Cell(f, s.capacity)] == s.accepted[f])
  {
    RunKeepsInvariant(states, steps, i);
    hide IsRun, Cell;
  }

  /** While both sides are copying, the cells being written and the cells being read are disjoint. */
  lemma CopiesNeverCollide<T>(states: seq<Ring<T>>, steps: seq<Step<T>>, i: nat, j: nat, k: nat)
    requires IsRun(states, steps) && i < |states|
    requires states[i].writer.WriterCopying? && j < |states[i].writer.block|
    requires states[i].reader.ReaderCopying? && k < states[i].reader.count
    ensures states[i].capacity > 0
    ensures Cell(states[i].writer.writeFrame + j, states[i].capacity)
            != Cell(states[i].reader.readFrame + k, states[i].capacity)
  {
    RunKeepsInvariant(states, steps, i);
    var s := states[i];
    if Cell(s.writer.writeFrame + j, s.capacity) == Cell(s.reader.readFrame + k, s.capacity) {
      CellsDistinct(s.capacity, s.writer.writeFrame + j, s.reader.readFrame + k);
    }
  }

  /** Both decisions are exact at the instant of the load that makes them: a block is refused only
      when the ring then has less free room than the block, and a read takes as much as it asked
      for or everything then unread. */
  lemma LoadsDecideExactly<T>(s: Ring<T>)
    requires Invariant(s)
    ensures s.writer.WriterStarted? ==>
              (Next(s, LoadReadCursor).writer.WriterIdle? <==>
                 |s.writer.block| > s.capacity - (s.writeCursor - s.readCursor))
    ensures s.reader.ReaderStarted? ==>
              var r := Next(s, LoadWriteCursor).reader;
              var unread := s.writeCursor - s.readCursor;
              r.ReaderCopying? && (r.count == unread <= r.requested || r.count == r.requested < unread)
  {
    hide Cell;
  }

  // ---------------------------------------------------------------- progress

  /** What each step hands over and counts: a block is accepted when it is published, frames are delivered, in order,
      when a read is published, a refused block is one overrun and a short read one underrun; nothing else is. */
  lemma StepsHandOver<T>(s: Ring<T>, step: Step<T>)
    requires Invariant(s) && Enabled(s, step)
    ensures var r := Next(s, step);
            && r.accepted == s.accepted + (if step.PublishWrite? then s.writer.block else [])
            && r.delivered == s.delivered
               + (if step.PublishRead? then s.accepted[s.readCursor..s.readCursor + s.reader.count] else [])
            && r.overruns == s.overruns
               + (if step.LoadReadCursor? && |s.writer.block| > s.capacity - (s.writeCursor - s.readCursor) then 1 else 0)
            && r.underruns == s.underruns + (if step.PublishRead? && s.reader.count < s.reader.requested then 1 else 0)
  {
    if step.PublishRead? {
      TakenIsNext(s);
    }
    hide Cell, Taken, Complete;
  }

  lemma TakenIsNext<T>(s: Ring<T>)
    requires Invariant(s) && Enabled(s, PublishRead)
    ensures s.readCursor + s.reader.count <= |s.accepted|
    ensures Taken(s.reader) == s.accepted[s.readCursor..s.readCursor + s.reader.count]
  {
    var r, count := s.reader, s.reader.count;
    forall k: nat | k < count ensures Taken(r)[k] == s.accepted[s.readCursor + k] {
      assert k in r.taken.Keys;
    }
    hide Cell, Taken;
  }

  /** Cells still to be copied. */
  function Missing(done: set<nat>, n: nat): set<nat> {
    set k: nat | k < n && k !in done
  }

  lemma CompleteIsNoneMissing(done: set<nat>, n: nat)
    ensures Complete(done, n) <==> Missing(done, n) == {}
  {
    if k: nat :| k < n && k !in done {
      assert k in Missing(done, n);
    }
  }

  lemma OneLess(done: set<nat>, n: nat, k: nat)
    requires k in Missing(done, n)
    ensures |Missing(done + {k}, n)| == |Missing(done, n)| - 1
  {
    assert Missing(done + {k}, n) == Missing(done, n) - {k};
  }

  /** Steps a writer has before it: the load, a copy for each cell and the publication. */
  function WriterLeft<T>(s: Ring<T>): nat {
    match s.writer
    case WriterIdle => 0
    case WriterStarted(block, _) => |block| + 2
    case WriterCopying(block, _, _, copied) => |Missing(copied, |block|)| + 1
  }

  function ReaderLeft<T>(s: Ring<T>): nat {
    match s.reader
    case ReaderIdle => 0
    case ReaderStarted(requested, _) => requested + 2
    case ReaderCopying(_, _, count, taken) => |Missing(taken.Keys, count)| + 1
  }

  /** A step of the writer that does something new. */
  predicate WriterMoves<T>(s: Ring<T>, step: Step<T>) {
    match step
    case LoadReadCursor => true
    case CopyIn(k) => s.writer.WriterCopying? && k !in s.writer.copied
    case PublishWrite => true
    case _ => false
  }

  predicate ReaderMoves<T>(s: Ring<T>, step: Step<T>) {
    match step
    case LoadWriteCursor => true
    case CopyOut(k) => s.reader.ReaderCopying? && k !in s.reader.taken
    case PublishRead => true
    case _ => false
  }

  lemma NoneYet(n: nat)
    ensures |Missing({}, n)| == n
  {
    if n == 0 {
      assert Missing({}, n) == {};
    } else {
      NoneYet(n - 1);
      assert Missing({}, n) == Missing({}, n - 1) + {n - 1};
    }
  }

  /** Neither side ever waits for the other. In any state a write that has begun has a step it can take, each of its
      steps brings it one nearer to its end, and no step of the reader takes it away from that; so it ends, published
      or refused, after at most two steps more than it has frames, whatever the reader does. */
  lemma WritingIsWaitFree<T>(s: Ring<T>, step: Step<T>)
    requires Invariant(s)
    ensures !s.writer.WriterIdle? ==> exists mine: Step<T> :: Enabled(s, mine) && WriterMoves(s, mine)
    ensures Enabled(s, step) && WriterMoves(s, step) ==> WriterLeft(Next(s, step)) < WriterLeft(s)
    ensures Enabled(s, step) && !WriterMoves(s, step) && !step.BeginWrite? ==> WriterLeft(Next(s, step)) == WriterLeft(s)
    ensures Enabled(s, step) && step.BeginWrite? ==> WriterLeft(Next(s, step)) == |step.block| + 2
  {
    match s.writer {
      case WriterIdle =>
      case WriterStarted(block, _) =>
        assert Enabled(s, LoadReadCursor) && WriterMoves(s, LoadReadCursor);
        NoneYet(|block|);
      case WriterCopying(block, _, _, copied) =>
        CompleteIsNoneMissing(copied, |block|);
        if k :| k in Missing(copied, |block|) {
          assert Enabled(s, CopyIn(k)) && WriterMoves(s, CopyIn(k));
        } else {
          assert Enabled(s, PublishWrite) && WriterMoves(s, PublishWrite);
        }
        if step.CopyIn? && Enabled(s, step) {
          if step.k in copied {
            assert copied + {step.k} == copied;
          } else {
            OneLess(copied, |block|, step.k);
          }
        }
    }
    hide Cell, Missing, Taken, Complete;
  }

  /** Nor does a read wait: it ends after at most two steps more than it asked for frames. */
  lemma ReadingIsWaitFree<T>(s: Ring<T>, step: Step<T>)
    requires Invariant(s)
    ensures !s.reader.ReaderIdle? ==> exists mine: Step<T> :: Enabled(s, mine) && ReaderMoves(s, mine)
    ensures Enabled(s, step) && ReaderMoves(s, step) ==> ReaderLeft(Next(s, step)) < ReaderLeft(s)
    ensures Enabled(s, step) && !ReaderMoves(s, step) && !step.BeginRead? ==> ReaderLeft(Next(s, step)) == ReaderLeft(s)
    ensures Enabled(s, step) && step.BeginRead? ==> ReaderLeft(Next(s, step)) == step.requested + 2
  {
    ReaderCanMove(s);
    match step {
      case CopyOut(k) => if Enabled(s, step) { CopyOutCounts(s, k); }
      case LoadWriteCursor => if Enabled(s, step) { LoadCounts(s); }
      case _ =>
    }
    hide Cell, Missing, Taken, Complete;
  }

  lemma ReaderCanMove<T>(s: Ring<T>)
    ensures !s.reader.ReaderIdle? ==> exists mine: Step<T> :: Enabled(s, mine) && ReaderMoves(s, mine)
  {
    match s.reader {
      case ReaderIdle =>
      case ReaderStarted(_, _) => assert Enabled(s, LoadWriteCursor) && ReaderMoves(s, LoadWriteCursor);
      case ReaderCopying(_, _, count, taken) =>
        CompleteIsNoneMissing(taken.Keys, count);
        if k :| k in Missing(taken.Keys, count) {
          assert Enabled(s, CopyOut(k)) && ReaderMoves(s, CopyOut(k));
        } else {
          assert Enabled(s, PublishRead) && ReaderMoves(s, PublishRead);
        }
    }
  }

  lemma LoadCounts<T>(s: Ring<T>)
    requires Invariant(s) && Enabled(s, LoadWriteCursor)
    ensures ReaderLeft(Next(s, LoadWriteCursor)) < ReaderLeft(s)
  {
    var r := Next(s, LoadWriteCursor).reader;
    NoneYet(r.count);
    assert r.taken.Keys == {};
    hide Missing;
  }

  lemma CopyOutCounts<T>(s: Ring<T>, k: nat)
    requires Invariant(s) && Enabled(s, CopyOut(k))
    ensures ReaderLeft(Next(s, CopyOut(k))) == ReaderLeft(s) - if k in s.reader.taken then 0 else 1
  {
    var taken := s.reader.taken;
    assert Next(s, CopyOut(k)).reader.taken.Keys == taken.Keys + {k};
    if k in taken {
      assert taken.Keys + {k} == taken.Keys;
    } else {
      OneLess(taken.Keys, s.reader.count, k);
    }
    hide Missing, Cell;
  }
}
