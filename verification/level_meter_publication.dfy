/** The level meter's sequence guard between the audio thread and its readers: every interleaving of a
    block's stores, a snapshot's loads and a latch clear, one shared word at a time. */
module LevelMeterPublication {
  import opened CircularSequence
  import opened LevelMeter
  import opened ModularArithmetic

  /** Shared words of a published reading, in the order they are stored and loaded. */
  const WORDS: nat := 10

  function Copy(into: Reading, from: Reading, word: nat): Reading {
    if word == 0 then into.(peak := from.peak)
    else if word == 1 then into.(meanSquare := from.meanSquare)
    else if word == 2 then into.(peakHold := from.peakHold)
    else if word == GENERATION_WORD then into.(clipGeneration := from.clipGeneration)
    else if word == 4 then into.(clipSamples := from.clipSamples)
    else if word == 5 then into.(clipEvents := from.clipEvents)
    else if word == 6 then into.(latestClipSample := from.latestClipSample)
    else if word == 7 then into.(invalidSamples := from.invalidSamples)
    else if word == 8 then into.(nearFullScaleRisk := from.nearFullScaleRisk)
    else into.(diagnosticClip := from.diagnosticClip)
  }

  const GENERATION_WORD: nat := 3

  /** The first `words` words of one reading over another. */
  function Partly(under: Reading, over: Reading, words: nat): Reading {
    if words == 0 then under else Copy(Partly(under, over, words - 1), over, words - 1)
  }

  lemma Wholly(under: Reading, over: Reading)
    ensures Partly(under, over, WORDS) == over
  {
    var p1 := Copy(under, over, 0);
    assert Partly(under, over, 1) == p1;
    var p2 := Copy(p1, over, 1);
    assert Partly(under, over, 2) == p2;
    var p3 := Copy(p2, over, 2);
    assert Partly(under, over, 3) == p3;
    var p4 := Copy(p3, over, 3);
    assert Partly(under, over, 4) == p4;
    var p5 := Copy(p4, over, 4);
    assert Partly(under, over, 5) == p5;
    var p6 := Copy(p5, over, 5);
    assert Partly(under, over, 6) == p6;
    var p7 := Copy(p6, over, 6);
    assert Partly(under, over, 7) == p7;
    var p8 := Copy(p7, over, 7);
    assert Partly(under, over, 8) == p8;
    var p9 := Copy(p8, over, 8);
    assert Partly(under, over, 9) == p9;
  }

  datatype Writer = Resting | Storing(block: Reading, stored: nat)

  /** `since` and `until` count the changes of the sequence before a snapshot's first and last look at it. */
  datatype Reader = Waiting | Loading(before: nat, copy: Reading, loaded: nat, since: nat)
                  | Checked(copy: Reading, since: nat, until: nat)

  /** `seen` counts the blocks whose generation had been stored when it was loaded. */
  datatype Clearer = Quiet | Acknowledging(generation: nat, seen: nat) | Requesting

  datatype Snapshot = Snapshot(reading: Reading, clipped: bool, acknowledged: nat, seen: nat, since: nat, until: nat)

  /** The shared words, the three threads, and what happened so far: changes of the sequence, finished
      blocks (after the initial silence), finished snapshots, and what the last clear had seen. */
  datatype System = System(
    sequence: nat,
    memory: Reading,
    acknowledged: nat,
    resetRequests: nat,
    writer: Writer,
    reader: Reader,
    clearer: Clearer,
    ticks: nat,
    blocks: seq<Reading>,
    snapshots: seq<Snapshot>,
    seen: nat)

  function Start(): System {
    System(0, Silence(), 0, 0, Resting, Waiting, Quiet, 0, [Silence()], [], 1)
  }

  datatype Step =
    | BeginBlock(block: Reading)
    | StoreWord
    | EndBlock
    | LoadSequence
    | LoadWord
    | CheckSequence
    | LoadAcknowledged
    | LoadGeneration
    | StoreAcknowledged
    | RequestReset

  /** Steps a thread can take from where it is; a block raises the generation by one or not at all. */
  predicate Enabled(s: System, step: Step) {
    match step
    case BeginBlock(block) =>
      s.writer.Resting? && block.clipGeneration in {s.memory.clipGeneration, s.memory.clipGeneration + 1}
    case StoreWord => s.writer.Storing? && s.writer.stored < WORDS
    case EndBlock => s.writer.Storing? && s.writer.stored == WORDS
    case LoadSequence => s.reader.Waiting?
    case LoadWord => s.reader.Loading? && s.reader.loaded < WORDS
    case CheckSequence => s.reader.Loading? && s.reader.loaded == WORDS
    case LoadAcknowledged => s.reader.Checked?
    case LoadGeneration => s.clearer.Quiet?
    case StoreAcknowledged => s.clearer.Acknowledging?
    case RequestReset => s.clearer.Requesting?
  }

  function Ticked(s: System): System {
    s.(sequence := (s.sequence + 1) % MODULUS, ticks := s.ticks + 1)
  }

  /** Blocks whose generation is in shared memory. */
  function Stored(s: System): nat {
    |s.blocks| + if s.writer.Storing? && s.writer.stored > GENERATION_WORD then 1 else 0
  }

  function Next(s: System, step: Step): System
    requires Enabled(s, step)
  {
    match step
    case BeginBlock(block) => Ticked(s).(writer := Storing(block, 0))
    case StoreWord =>
      s.(memory := Copy(s.memory, s.writer.block, s.writer.stored),
         writer := Storing(s.writer.block, s.writer.stored + 1))
    case EndBlock => Ticked(s).(writer := Resting, blocks := s.blocks + [s.writer.block])
    case LoadSequence =>
      if s.sequence % 2 == 1 then s else s.(reader := Loading(s.sequence, Silence(), 0, s.ticks))
    case LoadWord =>
      s.(reader := s.reader.(copy := Copy(s.reader.copy, s.memory, s.reader.loaded), loaded := s.reader.loaded + 1))
    case CheckSequence =>
      s.(reader := if s.sequence == s.reader.before then Checked(s.reader.copy, s.reader.since, s.ticks) else Waiting)
    case LoadAcknowledged =>
      var r := s.reader;
      s.(reader := Waiting,
         snapshots := s.snapshots + [Snapshot(r.copy, r.copy.clipGeneration != s.acknowledged,
                                              s.acknowledged, s.seen, r.since, r.until)])
    case LoadGeneration => s.(clearer := Acknowledging(s.memory.clipGeneration, Stored(s)))
    case StoreAcknowledged =>
      s.(acknowledged := s.clearer.generation, seen := s.clearer.seen, clearer := Requesting)
    case RequestReset => s.(clearer := Quiet, resetRequests := s.resetRequests + 1)
  }

  /** A run; a step that its thread cannot take yet changes nothing. */
  function Run(s: System, steps: seq<Step>): System
    decreases |steps|
  {
    if steps == [] then s
    else Run(if Enabled(s, steps[0]) then Next(s, steps[0]) else s, steps[1..])
  }

  // ---------------------------------------------------------------- invariant

  ghost predicate Counted(s: System) {
    && s.blocks != [] && s.sequence == s.ticks % MODULUS
    && s.ticks == 2 * (|s.blocks| - 1) + if s.writer.Storing? then 1 else 0
  }

  function Latest(s: System): Reading
    requires s.blocks != []
  {
    s.blocks[|s.blocks| - 1]
  }

  ghost predicate MemorySound(s: System)
    requires s.blocks != []
  {
    match s.writer
    case Resting => s.memory == Latest(s)
    case Storing(block, stored) => stored <= WORDS && s.memory == Partly(Latest(s), block, stored)
  }

  /** A copy taken while the sequence stood still is a copy of the block that was complete then. */
  ghost predicate CopySound(blocks: seq<Reading>, ticks: nat, before: nat, copy: Reading, loaded: nat, since: nat) {
    && before == since % MODULUS && since % 2 == 0 && since <= ticks && loaded <= WORDS
    && since / 2 < |blocks|
    && (since == ticks ==> copy == Partly(Silence(), blocks[since / 2], loaded))
  }

  /** A finished copy that nobody could have disturbed is a block. */
  ghost predicate Coherent(blocks: seq<Reading>, reading: Reading, since: nat, until: nat) {
    && since % 2 == 0 && since <= until && since / 2 < |blocks|
    && (until - since < MODULUS ==> reading == blocks[since / 2])
  }

  ghost predicate ReaderSound(s: System) {
    match s.reader
    case Waiting => true
    case Loading(before, copy, loaded, since) => CopySound(s.blocks, s.ticks, before, copy, loaded, since)
    case Checked(copy, since, until) => Coherent(s.blocks, copy, since, until)
  }

  ghost predicate Rises(a: Reading, b: Reading) {
    a.clipGeneration <= b.clipGeneration <= a.clipGeneration + 1
  }

  ghost predicate GenerationsRise(s: System)
    requires s.blocks != []
  {
    && (forall i, j | 0 <= i && j == i + 1 && j < |s.blocks| :: Rises(s.blocks[i], s.blocks[j]))
    && (s.writer.Storing? ==> Rises(Latest(s), s.writer.block))
  }

  /** The generation of the last of `seen` blocks. */
  ghost predicate GenerationOf(s: System, generation: nat, seen: nat) {
    && 0 < seen <= Stored(s)
    && generation == if seen <= |s.blocks| then s.blocks[seen - 1].clipGeneration else s.writer.block.clipGeneration
  }

  ghost predicate SnapshotSound(blocks: seq<Reading>, n: Snapshot) {
    && Coherent(blocks, n.reading, n.since, n.until)
    && n.clipped == (n.reading.clipGeneration != n.acknowledged)
    && n.seen > 0
    && (n.seen <= |blocks| ==> n.acknowledged == blocks[n.seen - 1].clipGeneration)
  }

  ghost predicate SnapshotsSound(s: System) {
    && (forall k | 0 <= k < |s.snapshots| :: SnapshotSound(s.blocks, s.snapshots[k]))
    && (forall k | 0 <= k < |s.snapshots| && s.snapshots[k].seen > |s.blocks| ::
          s.writer.Storing? && s.snapshots[k].seen == |s.blocks| + 1
          && s.snapshots[k].acknowledged == s.writer.block.clipGeneration)
  }

  ghost predicate Invariant(s: System) {
    && Counted(s) && MemorySound(s) && ReaderSound(s) && GenerationsRise(s)
    && GenerationOf(s, s.acknowledged, s.seen)
    && (s.clearer.Acknowledging? ==> GenerationOf(s, s.clearer.generation, s.clearer.seen))
    && SnapshotsSound(s)
  }

  lemma StartSound()
    ensures Invariant(Start())
  {
  }

  lemma TickSound(ticks: nat)
    ensures (ticks % MODULUS + 1) % MODULUS == (ticks + 1) % MODULUS
    ensures (ticks % MODULUS) % 2 == ticks % 2
  {
    ResidueOfResidue(ticks, MODULUS, 2);
    var q, r := ticks / MODULUS, ticks % MODULUS;
    if r + 1 < MODULUS {
      ResidueUnique(ticks + 1, q, r + 1, MODULUS);
    } else {
      ResidueUnique(ticks + 1, q + 1, 0, MODULUS);
    }
  }

  lemma {:induction false} GenerationStored(under: Reading, over: Reading, words: nat)
    requires words <= WORDS
    ensures Partly(under, over, words).clipGeneration ==
            if words > GENERATION_WORD then over.clipGeneration else under.clipGeneration
  {
    if words > 0 {
      GenerationStored(under, over, words - 1);
    }
  }

  lemma BeginKeepsInvariant(s: System, block: Reading)
    requires Invariant(s) && Enabled(s, BeginBlock(block))
    ensures Invariant(Next(s, BeginBlock(block)))
  {
    TickSound(s.ticks);
  }

  lemma EndKeepsInvariant(s: System)
    requires Invariant(s) && Enabled(s, EndBlock)
    ensures Invariant(Next(s, EndBlock))
  {
    TickSound(s.ticks);
    Wholly(Latest(s), s.writer.block);
    hide Copy, Partly;
  }

  lemma ReadKeepsInvariant(s: System, step: Step)
    requires Invariant(s) && Enabled(s, step) && (step.LoadSequence? || step.LoadWord? || step.CheckSequence?)
    ensures Invariant(Next(s, step))
  {
    TickSound(s.ticks);
    if step.CheckSequence? && s.sequence == s.reader.before {
      Wholly(Silence(), s.blocks[s.reader.since / 2]);
      if s.ticks - s.reader.since < MODULUS { Unmoved(s.reader.since, s.ticks); }
    }
    hide Copy;
  }

  /** The sequence returns to an old value only after all its values have gone by. */
  lemma Unmoved(since: nat, until: nat)
    requires since <= until && since % MODULUS == until % MODULUS && until - since < MODULUS
    ensures since == until
  {
  }

  lemma ClearKeepsInvariant(s: System, step: Step)
    requires Invariant(s) && Enabled(s, step)
    requires step.LoadAcknowledged? || step.LoadGeneration? || step.StoreAcknowledged? || step.RequestReset?
    ensures Invariant(Next(s, step))
  {
    if s.writer.Storing? { GenerationStored(Latest(s), s.writer.block, s.writer.stored); }
    hide Partly;
  }

  lemma {:induction false} RunKeepsInvariant(s: System, steps: seq<Step>)
    requires Invariant(s)
    ensures Invariant(Run(s, steps))
    decreases |steps|
  {
    if steps != [] {
      hide Invariant, Next;
      var step := steps[0];
      if Enabled(s, step) {
        match step
        case BeginBlock(block) => BeginKeepsInvariant(s, block);
        case StoreWord =>
        case EndBlock => EndKeepsInvariant(s);
        case LoadSequence => ReadKeepsInvariant(s, step);
        case LoadWord => ReadKeepsInvariant(s, step);
        case CheckSequence => ReadKeepsInvariant(s, step);
        case LoadAcknowledged => ClearKeepsInvariant(s, step);
        case LoadGeneration => ClearKeepsInvariant(s, step);
        case StoreAcknowledged => ClearKeepsInvariant(s, step);
        case RequestReset => ClearKeepsInvariant(s, step);
      }
      RunKeepsInvariant(if Enabled(s, step) then Next(s, step) else s, steps[1..]);
    }
  }

  // ---------------------------------------------------------------- what snapshots show

  ghost predicate Reachable(s: System) {
    exists steps :: s == Run(Start(), steps)
  }

  lemma ReachableIsSound(s: System)
    requires Reachable(s)
    ensures Invariant(s)
  {
    var steps :| s == Run(Start(), steps);
    StartSound();
    RunKeepsInvariant(Start(), steps);
  }

  /** In every interleaving, a snapshot during which fewer than 2^31 blocks were completed is exactly one
      completed block: the one that was the latest when the snapshot began. */
  lemma SnapshotsAreCoherent(s: System, k: nat)
    requires Reachable(s) && k < |s.snapshots|
    ensures var n := s.snapshots[k];
            && n.since % 2 == 0 && n.since / 2 < |s.blocks|
            && (n.until - n.since < MODULUS ==> n.reading == s.blocks[n.since / 2])
  {
    ReachableIsSound(s);
    assert SnapshotSound(s.blocks, s.snapshots[k]);
  }

  /** A block that latches is the one place where the generation rises. */
  ghost predicate Latched(blocks: seq<Reading>, j: nat)
    requires 0 < j < |blocks|
  {
    blocks[j].clipGeneration == blocks[j - 1].clipGeneration + 1
  }

  ghost predicate AllRise(blocks: seq<Reading>) {
    forall i, j | 0 <= i && j == i + 1 && j < |blocks| :: Rises(blocks[i], blocks[j])
  }

  lemma {:induction false} GenerationClimbs(blocks: seq<Reading>, i: nat, j: nat)
    requires AllRise(blocks) && i <= j < |blocks|
    ensures blocks[i].clipGeneration <= blocks[j].clipGeneration
    ensures blocks[i].clipGeneration < blocks[j].clipGeneration <==> exists k :: i < k <= j && Latched(blocks, k)
    decreases j
  {
    if i < j {
      assert Rises(blocks[j - 1], blocks[j]);
      GenerationClimbs(blocks, i, j - 1);
      assert Latched(blocks, j) || blocks[j].clipGeneration == blocks[j - 1].clipGeneration;
    }
  }

  /** Finished blocks and the one being stored, if there is one. */
  function Timeline(s: System): seq<Reading> {
    s.blocks + if s.writer.Storing? then [s.writer.block] else []
  }

  /** One of the two is earlier; `j` is later than that, and not later than the other. */
  predicate Between(a: nat, b: nat, j: nat) {
    a < j <= b || b < j <= a
  }

  /** A coherent snapshot shows a clip exactly when some block latched between the last one whose generation
      the clear had seen and the one shown, whichever of the two came first. */
  lemma ClipShowsExactly(s: System, k: nat)
    requires Reachable(s) && k < |s.snapshots|
    requires var n := s.snapshots[k]; n.until - n.since < MODULUS
    ensures var n := s.snapshots[k];
            && 0 < n.seen <= |Timeline(s)| && n.since / 2 < |s.blocks|
            && (n.clipped <==>
                  exists j :: 0 < j < |Timeline(s)| && Between(n.seen - 1, n.since / 2, j) && Latched(Timeline(s), j))
  {
    ReachableIsSound(s);
    var n, all := s.snapshots[k], Timeline(s);
    assert SnapshotSound(s.blocks, n);
    assert AllRise(all);
    assert n.acknowledged == all[n.seen - 1].clipGeneration && n.reading == all[n.since / 2];
    hide Invariant, SnapshotSound, Timeline, Reachable;
    if n.seen - 1 <= n.since / 2 {
      GenerationClimbs(all, n.seen - 1, n.since / 2);
    } else {
      GenerationClimbs(all, n.since / 2, n.seen - 1);
    }
  }

  lemma {:induction false} SnapshotsStay(s: System, steps: seq<Step>)
    ensures s.snapshots <= Run(s, steps).snapshots
    decreases |steps|
  {
    if steps != [] {
      SnapshotsStay(if Enabled(s, steps[0]) then Next(s, steps[0]) else s, steps[1..]);
    }
  }

  /** What the last clear saw is no newer than the block a snapshot under way will show. */
  predicate SeenBefore(s: System) {
    s.reader.Waiting? || s.seen <= s.reader.since / 2 + 1
  }

  /** A snapshot that no clear overlaps shows a block at least as new as those the last clear had seen. */
  lemma {:induction false} AcknowledgedIsOlder(s: System, steps: seq<Step>, k: nat)
    requires Invariant(s) && SeenBefore(s) && StoreAcknowledged !in steps
    requires |s.snapshots| <= k < |Run(s, steps).snapshots|
    ensures var n := Run(s, steps).snapshots[k]; n.seen <= n.since / 2 + 1
    decreases |steps|
  {
    var step := steps[0];
    if Enabled(s, step) {
      var next := Next(s, step);
      RunKeepsInvariant(s, [step]);
      RunOne(s, step);
      assert step in steps && forall later | later in steps[1..] :: later in steps;
      assert Counted(s) && GenerationOf(s, s.acknowledged, s.seen);
      hide Invariant, Run;
      assert SeenBefore(next);
      SnapshotsStay(next, steps[1..]);
      if k >= |next.snapshots| {
        AcknowledgedIsOlder(next, steps[1..], k);
      }
    } else {
      AcknowledgedIsOlder(s, steps[1..], k);
    }
  }

  /** So a snapshot that no clear overlaps shows a clip exactly when some block latched after those the last
      clear had seen, up to the one shown: a clip that follows a clear shows until the next one. */
  lemma ClipShowsUntilCleared(s: System, steps: seq<Step>, k: nat)
    requires Reachable(s) && s.reader.Waiting? && StoreAcknowledged !in steps
    requires |s.snapshots| <= k < |Run(s, steps).snapshots|
    requires var n := Run(s, steps).snapshots[k]; n.until - n.since < MODULUS
    ensures var n, blocks := Run(s, steps).snapshots[k], Run(s, steps).blocks;
            n.clipped <==> exists j :: n.seen <= j <= n.since / 2 < |blocks| && 0 < j && Latched(blocks, j)
  {
    ReachableIsSound(s);
    AcknowledgedIsOlder(s, steps, k);
    var before :| s == Run(Start(), before);
    RunSplits(Start(), before, steps);
    var r := Run(s, steps);
    ClipShowsExactly(r, k);
    var n := r.snapshots[k];
    assert forall j | 0 < j < |r.blocks| :: Latched(r.blocks, j) <==> Latched(Timeline(r), j);
  }

  // ---------------------------------------------------------------- the limit of the guard

  function Loud(): Reading {
    Silence().(peak := 1.0, meanSquare := 1.0)
  }

  function StoreAll(words: nat): seq<Step> {
    seq(words, _ => StoreWord)
  }

  /** So many blocks of full scale, undisturbed. */
  function LoudBlocks(count: nat): seq<Step> {
    if count == 0 then [] else LoudBlocks(count - 1) + [BeginBlock(Loud())] + StoreAll(WORDS) + [EndBlock]
  }

  lemma {:induction false} RunSplits(s: System, first: seq<Step>, second: seq<Step>)
    ensures Run(s, first + second) == Run(Run(s, first), second)
    decreases |first|
  {
    if first == [] {
      assert first + second == second;
    } else {
      assert (first + second)[1..] == first[1..] + second;
      RunSplits(if Enabled(s, first[0]) then Next(s, first[0]) else s, first[1..], second);
    }
  }

  lemma {:induction false} StoresWords(s: System, words: nat)
    requires s.writer.Storing? && s.writer.stored == 0 && words <= WORDS
    ensures Run(s, StoreAll(words)) ==
            s.(memory := Partly(s.memory, s.writer.block, words), writer := Storing(s.writer.block, words))
  {
    if words > 0 {
      StoresWords(s, words - 1);
      assert StoreAll(words) == StoreAll(words - 1) + [StoreWord];
      RunSplits(s, StoreAll(words - 1), [StoreWord]);
      RunOne(Run(s, StoreAll(words - 1)), StoreWord);
      hide Copy;
    }
  }

  lemma RunOne(s: System, step: Step)
    requires Enabled(s, step)
    ensures Run(s, [step]) == Next(s, step)
  {
    assert [step][1..] == [];
  }

  lemma OneLoudBlock(s: System)
    requires s.writer.Resting? && s.memory.clipGeneration == 0 && s.sequence == s.ticks % MODULUS
    ensures Run(s, [BeginBlock(Loud())] + StoreAll(WORDS) + [EndBlock]) ==
            s.(memory := Loud(), ticks := s.ticks + 2, sequence := (s.ticks + 2) % MODULUS, blocks := s.blocks + [Loud()])
  {
    var begun := Next(s, BeginBlock(Loud()));
    RunOne(s, BeginBlock(Loud()));
    RunSplits(s, [BeginBlock(Loud())], StoreAll(WORDS));
    StoresWords(begun, WORDS);
    Wholly(s.memory, Loud());
    RunSplits(s, [BeginBlock(Loud())] + StoreAll(WORDS), [EndBlock]);
    RunOne(Run(s, [BeginBlock(Loud())] + StoreAll(WORDS)), EndBlock);
    TickSound(s.ticks);
    TickSound(s.ticks + 1);
  }

  lemma {:induction false} ManyLoudBlocks(s: System, count: nat)
    requires s.writer.Resting? && s.memory.clipGeneration == 0 && s.sequence == s.ticks % MODULUS
    ensures var r := Run(s, LoudBlocks(count));
            r == s.(memory := if count == 0 then s.memory else Loud(), ticks := s.ticks + 2 * count,
                    sequence := (s.ticks + 2 * count) % MODULUS, blocks := r.blocks)
            && r.blocks == s.blocks + seq(count, _ => Loud())
  {
    if count > 0 {
      var block := [BeginBlock(Loud())] + StoreAll(WORDS) + [EndBlock];
      ManyLoudBlocks(s, count - 1);
      assert LoudBlocks(count) == LoudBlocks(count - 1) + block;
      RunSplits(s, LoudBlocks(count - 1), block);
      OneLoudBlock(Run(s, LoudBlocks(count - 1)));
      hide Run, LoudBlocks, StoreAll;
    }
  }

  function LoadAll(words: nat): seq<Step> {
    seq(words, _ => LoadWord)
  }

  /** `words` words of one reading, from a given one, over another. */
  function Patched(under: Reading, over: Reading, from: nat, words: nat): Reading {
    if words == 0 then under else Copy(Patched(under, over, from, words - 1), over, from + words - 1)
  }

  lemma {:induction false} LoadsWords(s: System, words: nat)
    requires s.reader.Loading? && s.reader.loaded + words <= WORDS
    ensures Run(s, LoadAll(words)) ==
            s.(reader := s.reader.(copy := Patched(s.reader.copy, s.memory, s.reader.loaded, words),
                                   loaded := s.reader.loaded + words))
  {
    if words > 0 {
      LoadsWords(s, words - 1);
      assert LoadAll(words) == LoadAll(words - 1) + [LoadWord];
      RunSplits(s, LoadAll(words - 1), [LoadWord]);
      RunOne(Run(s, LoadAll(words - 1)), LoadWord);
      hide Copy;
    }
  }

  lemma {:induction false} PatchKeepsPeak(under: Reading, over: Reading, words: nat)
    ensures Patched(under, over, 1, words).peak == under.peak
    ensures words > 0 ==> Patched(under, over, 1, words).meanSquare == over.meanSquare
  {
    if words > 0 { PatchKeepsPeak(under, over, words - 1); }
  }

  /** The bound is exact: with 2^31 blocks completed between its first and second word, a snapshot passes
      the check and mixes two blocks. `count` stands for 2^31. */
  lemma TornAfterWrap(count: nat) returns (s: System)
    requires 2 * count == MODULUS
    ensures Reachable(s) && |s.snapshots| == 1
    ensures s.snapshots[0].until - s.snapshots[0].since == MODULUS && s.snapshots[0].reading !in s.blocks
  {
    var s1 := Run(Start(), [LoadSequence]);
    RunOne(Start(), LoadSequence);
    var s2 := Run(s1, [LoadWord]);
    RunOne(s1, LoadWord);
    RunSplits(Start(), [LoadSequence], [LoadWord]);
    var begun := [LoadSequence] + [LoadWord];
    assert s2 == Run(Start(), begun) && s2.reader == Loading(0, Silence(), 1, 0);
    var s3 := Run(s2, LoudBlocks(count));
    ManyLoudBlocks(s2, count);
    RunSplits(Start(), begun, LoudBlocks(count));
    var s4 := Run(s3, LoadAll(9));
    LoadsWords(s3, 9);
    PatchKeepsPeak(Silence(), Loud(), 9);
    RunSplits(Start(), begun + LoudBlocks(count), LoadAll(9));
    s := LastSteps(s4, begun + LoudBlocks(count) + LoadAll(9));
  }

  lemma LastSteps(s4: System, steps: seq<Step>) returns (s: System)
    requires s4 == Run(Start(), steps) && s4.reader.Loading? && s4.reader.loaded == WORDS
    requires s4.reader.before == s4.sequence && s4.snapshots == []
    ensures Reachable(s) && |s.snapshots| == 1 && s.blocks == s4.blocks
    ensures s.snapshots[0].reading == s4.reader.copy
    ensures s.snapshots[0].since == s4.reader.since && s.snapshots[0].until == s4.ticks
  {
    var s5 := Then(s4, steps, CheckSequence);
    s := Then(s5, steps + [CheckSequence], LoadAcknowledged);
  }

  /** A clear that overlaps a snapshot can make a silent block show as clipped: the snapshot of the initial
      silence is checked, a loud block starts and stores its generation, a clear acknowledges it, and only
      then does the snapshot load the acknowledgement. */
  lemma ClearDuringSnapshotShowsClip() returns (s: System)
    ensures Reachable(s) && |s.snapshots| == 1 && s.blocks == [Silence()]
    ensures var n := s.snapshots[0];
            n.reading == Silence() && n.clipped && n.since == n.until && n.seen > n.since / 2 + 1
  {
    var loud := Loud().(clipGeneration := 1);
    var steps := [LoadSequence] + LoadAll(WORDS);
    RunOne(Start(), LoadSequence);
    RunSplits(Start(), [LoadSequence], LoadAll(WORDS));
    LoadsWords(Next(Start(), LoadSequence), WORDS);
    PatchOver(Silence(), WORDS);
    var s1 := Then(Run(Start(), steps), steps, CheckSequence);
    var s2 := Then(s1, steps + [CheckSequence], BeginBlock(loud));
    steps := steps + [CheckSequence] + [BeginBlock(loud)];
    var s3 := Run(s2, StoreAll(4));
    StoresWords(s2, 4);
    GenerationStored(Silence(), loud, 4);
    RunSplits(Start(), steps, StoreAll(4));
    steps := steps + StoreAll(4);
    var s4 := Then(s3, steps, LoadGeneration);
    var s5 := Then(s4, steps + [LoadGeneration], StoreAcknowledged);
    s := Then(s5, steps + [LoadGeneration] + [StoreAcknowledged], LoadAcknowledged);
  }

  lemma {:induction false} PatchOver(reading: Reading, words: nat)
    ensures Patched(reading, reading, 0, words) == reading
  {
    if words > 0 { PatchOver(reading, words - 1); }
  }

  /** One more step of a run. */
  lemma Then(s: System, steps: seq<Step>, step: Step) returns (next: System)
    requires s == Run(Start(), steps) && Enabled(s, step)
    ensures next == Next(s, step) == Run(Start(), steps + [step]) && Reachable(next)
  {
    next := Next(s, step);
    RunSplits(Start(), steps, [step]);
    RunOne(s, step);
  }
}
