/** The level meter's audio-thread half: what one block adds to the running totals, and what it publishes. */
module LevelMeter {
  import opened Bounds
  import opened Samples

  /** One coherent set of published values. */
  datatype Reading = Reading(
    peak: real,
    meanSquare: real,
    peakHold: real,
    clipGeneration: nat,
    clipSamples: nat,
    clipEvents: nat,
    latestClipSample: nat,
    invalidSamples: nat,
    nearFullScaleRisk: bool,
    diagnosticClip: bool)

  function Silence(): Reading {
    Reading(0.0, 0.0, 0.0, 0, 0, 0, 0, 0, false, false)
  }

  datatype Thresholds = Thresholds(clip: real, risk: real, riskSampleCount: nat)

  /** The audio thread's own fields. */
  datatype Totals = Totals(
    peakHold: real,
    clipSamples: nat,
    clipEvents: nat,
    latestClipSample: nat,
    invalidSamples: nat,
    nearFullScaleSamples: nat,
    processed: nat,
    nearFullScaleRisk: bool,
    diagnosticClip: bool,
    hardClipLatched: bool,
    previousClipped: bool)

  /** What a block accumulates before it is published. */
  datatype Block = Block(peak: real, sumSquares: real, invalid: nat, clipped: bool, risk: bool)

  datatype Scanned = Scanned(totals: Totals, block: Block)

  function MaxReal(a: real, b: real): real { if a < b then b else a }

  function Square(x: real): real { x * x }

  /** Full scale, or not a number at all. */
  predicate Clips(c: Thresholds, sample: Float) {
    match sample
    case Finite(value) => Magnitude(value) >= c.clip
    case NotFinite => true
  }

  predicate Near(c: Thresholds, sample: Float) {
    !Clips(c, sample) && c.riskSampleCount != 0 && Magnitude(sample.value) >= c.risk
  }

  function Cleared(t: Totals): Totals {
    Totals(0.0, 0, 0, 0, 0, 0, t.processed, false, false, false, false)
  }

  function Empty(): Block { Block(0.0, 0.0, 0, false, false) }

  /** One sample, at an offset into its block. */
  function Step(c: Thresholds, s: Scanned, offset: nat, sample: Float): Scanned {
    var t, b := s.totals, s.block;
    var clips := Clips(c, sample);
    var near := t.nearFullScaleSamples + if Near(c, sample) then 1 else 0;
    var risky := Near(c, sample) && !t.nearFullScaleRisk && near >= c.riskSampleCount;
    Scanned(
      t.(nearFullScaleSamples := near,
         nearFullScaleRisk := t.nearFullScaleRisk || risky,
         clipSamples := t.clipSamples + if clips then 1 else 0,
         latestClipSample := if clips then t.processed + offset else t.latestClipSample,
         clipEvents := t.clipEvents + if clips && !t.previousClipped then 1 else 0,
         previousClipped := clips),
      Block(if sample.Finite? then MaxReal(b.peak, Magnitude(sample.value)) else b.peak,
            if sample.Finite? then b.sumSquares + Square(sample.value) else b.sumSquares,
            b.invalid + if sample.Finite? then 0 else 1,
            b.clipped || clips,
            b.risk || risky))
  }

  function Scan(c: Thresholds, t: Totals, samples: seq<Float>): Scanned
    decreases |samples|
  {
    if samples == [] then Scanned(t, Empty())
    else
      var last := |samples| - 1;
      Step(c, Scan(c, t, samples[..last]), last, samples[last])
  }

  /** The end of a block: a hard clip outranks a headroom risk, which outranks a self test. */
  function Finish(s: Scanned, selfTest: bool, size: nat): Totals {
    var t, b := s.totals, s.block;
    var hard := t.hardClipLatched || b.clipped || b.invalid != 0;
    t.(hardClipLatched := hard,
       nearFullScaleRisk := t.nearFullScaleRisk && !hard,
       diagnosticClip := if hard || b.risk then false else if selfTest then true else t.diagnosticClip,
       invalidSamples := t.invalidSamples + b.invalid,
       processed := t.processed + size,
       peakHold := MaxReal(t.peakHold, b.peak))
  }

  /** A block counts against the clip latch. */
  predicate Latches(b: Block, selfTest: bool) {
    b.clipped || b.risk || selfTest
  }

  function MeanSquare(sumSquares: real, size: nat): real {
    if size == 0 then 0.0 else sumSquares / size as real
  }

  function Publication(t: Totals, b: Block, size: nat, generation: nat): Reading {
    Reading(b.peak, MeanSquare(b.sumSquares, size), t.peakHold, generation,
            t.clipSamples, t.clipEvents, t.latestClipSample, t.invalidSamples, t.nearFullScaleRisk, t.diagnosticClip)
  }

  // ---------------------------------------------------------------- reference meanings

  function ClippedAt(c: Thresholds, stream: seq<Float>): set<nat> {
    set k: nat | k < |stream| && Clips(c, stream[k])
  }

  /** Places where a run of clipping samples starts. */
  function RunStarts(c: Thresholds, stream: seq<Float>): set<nat> {
    set k: nat | k < |stream| && StartsRun(c, stream, k)
  }

  predicate StartsRun(c: Thresholds, stream: seq<Float>, k: nat)
    requires k < |stream|
  {
    Clips(c, stream[k]) && (k == 0 || !Clips(c, stream[k - 1]))
  }

  function InvalidAt(stream: seq<Float>): set<nat> {
    set k: nat | k < |stream| && stream[k].NotFinite?
  }

  function NearAt(c: Thresholds, stream: seq<Float>): set<nat> {
    set k: nat | k < |stream| && Near(c, stream[k])
  }

  /** The position of the last clipped sample of a stream whose first sample is at `base`; 0 if none clips. */
  ghost predicate IsLatest(c: Thresholds, latest: nat, base: nat, stream: seq<Float>) {
    if forall k | 0 <= k < |stream| :: !Clips(c, stream[k]) then latest == 0
    else
      && base <= latest < base + |stream| && Clips(c, stream[latest - base])
      && forall k | latest - base < k < |stream| :: !Clips(c, stream[k])
  }

  ghost predicate IsPeak(peak: real, stream: seq<Float>) {
    && peak >= 0.0
    && (forall k | 0 <= k < |stream| && stream[k].Finite? :: Magnitude(stream[k].value) <= peak)
    && (peak == 0.0 || exists k :: 0 <= k < |stream| && stream[k].Finite? && Magnitude(stream[k].value) == peak)
  }

  /** What the scan itself keeps: clipped samples and the runs they form, across block boundaries. */
  ghost predicate Describes(c: Thresholds, t: Totals, stream: seq<Float>) {
    && t.clipSamples == |ClippedAt(c, stream)|
    && t.clipEvents == |RunStarts(c, stream)|
    && t.previousClipped == (stream != [] && Clips(c, stream[|stream| - 1]))
  }

  /** Totals between blocks, as the samples since the last clear define them. */
  ghost predicate Reports(c: Thresholds, t: Totals, stream: seq<Float>) {
    && Describes(c, t, stream)
    && |stream| <= t.processed && IsLatest(c, t.latestClipSample, t.processed - |stream|, stream)
    && IsPeak(t.peakHold, stream)
    && t.invalidSamples == |InvalidAt(stream)|
    && t.nearFullScaleSamples == |NearAt(c, stream)|
    && (t.hardClipLatched <==> |ClippedAt(c, stream)| > 0)
    && (t.nearFullScaleRisk <==> |ClippedAt(c, stream)| == 0 && 0 < c.riskSampleCount <= |NearAt(c, stream)|)
  }

  lemma Grow(before: set<nat>, after: set<nat>, n: nat, added: bool)
    requires (forall k | k in before :: k < n) && after == if added then before + {n} else before
    ensures |after| == |before| + if added then 1 else 0
  {
  }

  lemma ClippedGrows(c: Thresholds, stream: seq<Float>, sample: Float)
    ensures |ClippedAt(c, stream + [sample])| == |ClippedAt(c, stream)| + if Clips(c, sample) then 1 else 0
  {
    Grow(ClippedAt(c, stream), ClippedAt(c, stream + [sample]), |stream|, Clips(c, sample));
  }

  lemma RunsGrow(c: Thresholds, stream: seq<Float>, sample: Float)
    ensures var starts := Clips(c, sample) && (stream == [] || !Clips(c, stream[|stream| - 1]));
            |RunStarts(c, stream + [sample])| == |RunStarts(c, stream)| + if starts then 1 else 0
  {
    var longer := stream + [sample];
    forall k: nat | k < |stream| ensures StartsRun(c, longer, k) <==> StartsRun(c, stream, k) {
    }
    assert StartsRun(c, longer, |stream|)
           <==> Clips(c, sample) && (stream == [] || !Clips(c, stream[|stream| - 1]));
    hide Clips;
    Grow(RunStarts(c, stream), RunStarts(c, longer), |stream|, StartsRun(c, longer, |stream|));
  }

  lemma StepDescribes(c: Thresholds, s: Scanned, offset: nat, stream: seq<Float>, sample: Float)
    requires Describes(c, s.totals, stream)
    ensures Describes(c, Step(c, s, offset, sample).totals, stream + [sample])
  {
    ClippedGrows(c, stream, sample);
    RunsGrow(c, stream, sample);
    hide Clips, Near, ClippedAt, RunStarts, Square;
  }

  lemma {:induction false} ScanDescribes(c: Thresholds, t: Totals, since: seq<Float>, samples: seq<Float>)
    requires Describes(c, t, since)
    ensures Describes(c, Scan(c, t, samples).totals, since + samples)
    decreases |samples|
  {
    if samples == [] {
      assert since + samples == since;
    } else {
      var last := |samples| - 1;
      ScanDescribes(c, t, since, samples[..last]);
      StepDescribes(c, Scan(c, t, samples[..last]), last, since + samples[..last], samples[last]);
      assert since + samples == since + samples[..last] + [samples[last]];
    }
  }

  /** A block's own peak is its largest finite magnitude. */
  lemma {:induction false} BlockPeaks(c: Thresholds, t: Totals, samples: seq<Float>)
    ensures IsPeak(Scan(c, t, samples).block.peak, samples)
    decreases |samples|
  {
    if samples != [] {
      var last := |samples| - 1;
      BlockPeaks(c, t, samples[..last]);
      BlockPeak(Scan(c, t, samples[..last]).block.peak, samples[..last], samples[last]);
      assert samples == samples[..last] + [samples[last]];
      hide IsPeak, Square, Clips, Near;
    }
  }

  lemma InvalidGrows(stream: seq<Float>, sample: Float)
    ensures |InvalidAt(stream + [sample])| == |InvalidAt(stream)| + if sample.NotFinite? then 1 else 0
  {
    Grow(InvalidAt(stream), InvalidAt(stream + [sample]), |stream|, sample.NotFinite?);
  }

  /** A block is marked invalid or clipped by the samples that are. */
  lemma {:induction false} BlockMarks(c: Thresholds, t: Totals, samples: seq<Float>)
    ensures var b := Scan(c, t, samples).block;
            b.invalid == |InvalidAt(samples)| && (b.clipped <==> |ClippedAt(c, samples)| > 0)
    decreases |samples|
  {
    if samples == [] {
      assert InvalidAt(samples) == {} && ClippedAt(c, samples) == {};
    } else {
      var last := |samples| - 1;
      BlockMarks(c, t, samples[..last]);
      InvalidGrows(samples[..last], samples[last]);
      ClippedGrows(c, samples[..last], samples[last]);
      assert samples == samples[..last] + [samples[last]];
      hide Square, Near, Clips, InvalidAt, ClippedAt;
    }
  }

  lemma BlockPeak(peak: real, front: seq<Float>, sample: Float)
    requires IsPeak(peak, front)
    ensures IsPeak(if sample.Finite? then MaxReal(peak, Magnitude(sample.value)) else peak, front + [sample])
  {
    var longer := front + [sample];
    assert longer[|front|] == sample;
    assert forall k | 0 <= k < |front| :: longer[k] == front[k];
    if peak != 0.0 {
      var k :| 0 <= k < |front| && front[k].Finite? && Magnitude(front[k].value) == peak;
      assert longer[k] == front[k];
    }
  }

  lemma NearGrows(c: Thresholds, stream: seq<Float>, sample: Float)
    ensures |NearAt(c, stream + [sample])| == |NearAt(c, stream)| + if Near(c, sample) then 1 else 0
  {
    Grow(NearAt(c, stream), NearAt(c, stream + [sample]), |stream|, Near(c, sample));
  }

  lemma LatestGrows(c: Thresholds, latest: nat, base: nat, stream: seq<Float>, sample: Float)
    requires IsLatest(c, latest, base, stream)
    ensures IsLatest(c, if Clips(c, sample) then base + |stream| else latest, base, stream + [sample])
  {
    hide Clips;
    var longer := stream + [sample];
    assert longer[|stream|] == sample;
    assert forall k | 0 <= k < |stream| :: longer[k] == stream[k];
    if !Clips(c, sample) && !(forall k | 0 <= k < |stream| :: !Clips(c, stream[k])) {
      assert Clips(c, longer[latest - base]);
    }
  }

  lemma {:induction false} ScanLatest(c: Thresholds, t: Totals, since: seq<Float>, samples: seq<Float>)
    requires |since| <= t.processed && IsLatest(c, t.latestClipSample, t.processed - |since|, since)
    ensures var r := Scan(c, t, samples).totals;
            r.processed == t.processed && IsLatest(c, r.latestClipSample, t.processed - |since|, since + samples)
    decreases |samples|
  {
    if samples == [] {
      assert since + samples == since;
    } else {
      var last := |samples| - 1;
      ScanLatest(c, t, since, samples[..last]);
      LatestGrows(c, Scan(c, t, samples[..last]).totals.latestClipSample, t.processed - |since|,
                  since + samples[..last], samples[last]);
      assert since + samples == since + samples[..last] + [samples[last]];
      hide IsLatest, Clips, Near, Square;
    }
  }

  /** The headroom warning comes on with the sample that reaches the count, and stays on through the block. */
  lemma {:induction false} ScanRisk(c: Thresholds, t: Totals, since: seq<Float>, samples: seq<Float>)
    requires t.nearFullScaleSamples == |NearAt(c, since)|
    requires t.nearFullScaleRisk ==> 0 < c.riskSampleCount <= |NearAt(c, since)|
    ensures var s := Scan(c, t, samples);
            && s.totals.nearFullScaleSamples == |NearAt(c, since + samples)|
            && (s.totals.nearFullScaleRisk ==> 0 < c.riskSampleCount <= |NearAt(c, since + samples)|)
            && (0 < c.riskSampleCount <= |NearAt(c, since + samples)| ==>
                  s.totals.nearFullScaleRisk || (!t.nearFullScaleRisk && c.riskSampleCount <= |NearAt(c, since)|))
            && s.totals.hardClipLatched == t.hardClipLatched && s.totals.invalidSamples == t.invalidSamples
            && |NearAt(c, since)| <= |NearAt(c, since + samples)|
    decreases |samples|
  {
    if samples == [] {
      assert since + samples == since;
    } else {
      var last := |samples| - 1;
      ScanRisk(c, t, since, samples[..last]);
      NearGrows(c, since + samples[..last], samples[last]);
      assert since + samples == since + samples[..last] + [samples[last]];
      NearNeedsCount(c, samples[last]);
      hide NearAt, Clips, Near, Square;
    }
  }

  lemma NearNeedsCount(c: Thresholds, sample: Float)
    ensures Near(c, sample) ==> c.riskSampleCount > 0
  {
  }

  lemma {:induction false} MarksAdd(c: Thresholds, a: seq<Float>, b: seq<Float>)
    ensures |InvalidAt(a + b)| == |InvalidAt(a)| + |InvalidAt(b)|
    ensures |ClippedAt(c, a + b)| == |ClippedAt(c, a)| + |ClippedAt(c, b)|
    decreases |b|
  {
    if b == [] {
      assert a + b == a && InvalidAt(b) == {} && ClippedAt(c, b) == {};
    } else {
      var last := |b| - 1;
      MarksAdd(c, a, b[..last]);
      InvalidGrows(b[..last], b[last]);
      ClippedGrows(c, b[..last], b[last]);
      InvalidGrows(a + b[..last], b[last]);
      ClippedGrows(c, a + b[..last], b[last]);
      assert b == b[..last] + [b[last]] && a + b == a + b[..last] + [b[last]];
      hide InvalidAt, ClippedAt, Clips;
    }
  }

  lemma InvalidClips(c: Thresholds, samples: seq<Float>)
    ensures |InvalidAt(samples)| > 0 ==> |ClippedAt(c, samples)| > 0
  {
    if k: nat :| k in InvalidAt(samples) {
      assert k in ClippedAt(c, samples);
    }
  }

  lemma PeaksJoin(a: real, front: seq<Float>, b: real, back: seq<Float>)
    requires IsPeak(a, front) && IsPeak(b, back)
    ensures IsPeak(MaxReal(a, b), front + back)
  {
    var all := front + back;
    assert forall k | 0 <= k < |front| :: all[k] == front[k];
    assert forall k | 0 <= k < |back| :: all[|front| + k] == back[k];
    forall k | 0 <= k < |all| && all[k].Finite? ensures Magnitude(all[k].value) <= MaxReal(a, b) {
      assert all[k] == if k < |front| then front[k] else back[k - |front|];
    }
    if a < b {
      var k :| 0 <= k < |back| && back[k].Finite? && Magnitude(back[k].value) == b;
      assert all[|front| + k] == back[k];
    } else if a != 0.0 {
      var k :| 0 <= k < |front| && front[k].Finite? && Magnitude(front[k].value) == a;
      assert all[k] == front[k];
    }
  }

  /** Finishing a block keeps both latches, given what the scan counted. */
  lemma LatchesDescribe(c: Thresholds, t: Totals, since: seq<Float>, samples: seq<Float>, selfTest: bool)
    requires Reports(c, t, since)
    ensures var r, stream := Finish(Scan(c, t, samples), selfTest, |samples|), since + samples;
            && r.nearFullScaleSamples == |NearAt(c, stream)| && r.invalidSamples == |InvalidAt(stream)|
            && (r.hardClipLatched <==> |ClippedAt(c, stream)| > 0)
            && (r.nearFullScaleRisk <==> |ClippedAt(c, stream)| == 0 && 0 < c.riskSampleCount <= |NearAt(c, stream)|)
  {
    ScanRisk(c, t, since, samples);
    BlockMarks(c, t, samples);
    MarksAdd(c, since, samples);
    InvalidClips(c, samples);
    hide Scan, Describes, IsLatest, IsPeak, InvalidAt, ClippedAt, NearAt, MaxReal;
  }

  /** After any blocks the totals are what the whole stream since the last clear defines: clipped samples,
      the runs they form, the last of them, the largest magnitude, the invalid and near-full-scale samples,
      and both latches. Where the blocks were cut cannot be told. */
  lemma TotalsDescribeTheStream(c: Thresholds, t: Totals, since: seq<Float>, samples: seq<Float>, selfTest: bool)
    requires Reports(c, t, since)
    ensures Reports(c, Finish(Scan(c, t, samples), selfTest, |samples|), since + samples)
  {
    ScanDescribes(c, t, since, samples);
    FinishDescribes(c, Scan(c, t, samples), selfTest, |samples|, since + samples);
    ScanLatest(c, t, since, samples);
    LatchesDescribe(c, t, since, samples, selfTest);
    BlockPeaks(c, t, samples);
    PeakHoldKept(c, t, samples);
    PeaksJoin(t.peakHold, since, Scan(c, t, samples).block.peak, samples);
    hide Scan, Describes, IsLatest, IsPeak, InvalidAt, ClippedAt, NearAt, MaxReal;
  }

  lemma FinishDescribes(c: Thresholds, s: Scanned, selfTest: bool, size: nat, stream: seq<Float>)
    requires Describes(c, s.totals, stream)
    ensures Describes(c, Finish(s, selfTest, size), stream)
  {
    hide Clips, ClippedAt, RunStarts, MaxReal;
  }

  lemma ClearedDescribesNothing(c: Thresholds, t: Totals)
    ensures Reports(c, Cleared(t), [])
  {
    var none: seq<Float> := [];
    assert RunStarts(c, none) == {} && ClippedAt(c, none) == {} && InvalidAt(none) == {} && NearAt(c, none) == {};
  }

  // ---------------------------------------------------------------- block size

  predicate Hard(s: Scanned) {
    s.totals.hardClipLatched || s.block.clipped || s.block.invalid != 0
  }

  function Diagnosis(s: Scanned, selfTest: bool): bool {
    if s.block.risk then false else if selfTest then true else s.totals.diagnosticClip
  }

  /** A scan `a` still inside one long block and a scan `b` of its second half leave the same totals. */
  ghost predicate Alike(a: Scanned, selfTest: bool, b: Scanned, earlier: nat) {
    var t, u := a.totals, b.totals;
    && t.clipSamples == u.clipSamples && t.clipEvents == u.clipEvents && t.latestClipSample == u.latestClipSample
    && t.nearFullScaleSamples == u.nearFullScaleSamples && t.previousClipped == u.previousClipped
    && u.processed == t.processed + earlier
    && t.invalidSamples + a.block.invalid == u.invalidSamples + b.block.invalid
    && MaxReal(t.peakHold, a.block.peak) == MaxReal(u.peakHold, b.block.peak)
    && (Hard(a) <==> Hard(b))
    && (!Hard(a) ==> t.nearFullScaleRisk == u.nearFullScaleRisk && Diagnosis(a, selfTest) == Diagnosis(b, false))
  }

  lemma StepAlike(c: Thresholds, a: Scanned, selfTest: bool, b: Scanned, earlier: nat, offset: nat, sample: Float)
    requires Alike(a, selfTest, b, earlier)
    ensures Alike(Step(c, a, earlier + offset, sample), selfTest, Step(c, b, offset, sample), earlier)
  {
  }

  lemma {:induction false} ScansAlike(c: Thresholds, t: Totals, first: seq<Float>, second: seq<Float>, selfTest: bool)
    requires t.peakHold >= 0.0
    ensures Alike(Scan(c, t, first + second), selfTest,
                  Scan(c, Finish(Scan(c, t, first), selfTest, |first|), second), |first|)
    decreases |second|
  {
    if second == [] {
      assert first + second == first;
      BlockPeaks(c, t, first);
      PeakHoldKept(c, t, first);
    } else {
      var last := |second| - 1;
      ScansAlike(c, t, first, second[..last], selfTest);
      var whole := first + second;
      assert whole[..|whole| - 1] == first + second[..last];
      StepAlike(c, Scan(c, t, first + second[..last]), selfTest,
                Scan(c, Finish(Scan(c, t, first), selfTest, |first|), second[..last]), |first|, last, second[last]);
      hide Alike, Step, Finish;
    }
  }

  lemma {:induction false} PeakHoldKept(c: Thresholds, t: Totals, samples: seq<Float>)
    ensures Scan(c, t, samples).totals.peakHold == t.peakHold
    ensures Scan(c, t, samples).totals.processed == t.processed
    decreases |samples|
  {
    if samples != [] {
      PeakHoldKept(c, t, samples[..|samples| - 1]);
    }
  }

  /** Callback size does not change the totals: two blocks leave what one long block would. */
  lemma BlockSizeIsIrrelevant(c: Thresholds, t: Totals, first: seq<Float>, second: seq<Float>, selfTest: bool)
    requires t.peakHold >= 0.0
    ensures Finish(Scan(c, t, first + second), selfTest, |first + second|) ==
            Finish(Scan(c, Finish(Scan(c, t, first), selfTest, |first|), second), false, |second|)
  {
    ScansAlike(c, t, first, second, selfTest);
    PeakHoldKept(c, t, first + second);
    hide Scan;
  }

  // ---------------------------------------------------------------- what is published

  /** The sum of the squares of the finite samples. */
  function Energy(samples: seq<Float>): real {
    if samples == [] then 0.0
    else (if samples[0].Finite? then Square(samples[0].value) else 0.0) + Energy(samples[1..])
  }

  lemma {:induction false} EnergyAppend(samples: seq<Float>, sample: Float)
    ensures Energy(samples + [sample]) == Energy(samples) + if sample.Finite? then Square(sample.value) else 0.0
  {
    hide Square;
    if samples != [] {
      EnergyAppend(samples[1..], sample);
      assert (samples + [sample])[1..] == samples[1..] + [sample];
    }
  }

  lemma {:induction false} BlockEnergy(c: Thresholds, t: Totals, samples: seq<Float>)
    ensures Scan(c, t, samples).block.sumSquares == Energy(samples)
    decreases |samples|
  {
    if samples != [] {
      var last := |samples| - 1;
      BlockEnergy(c, t, samples[..last]);
      EnergyAppend(samples[..last], samples[last]);
      assert samples == samples[..last] + [samples[last]];
      hide Energy, Square, Clips, Near;
    }
  }

  /** No more energy than if every sample were as loud as the loudest. */
  lemma {:induction false} EnergyWithin(samples: seq<Float>, peak: real)
    requires peak >= 0.0 && forall k | 0 <= k < |samples| && samples[k].Finite? :: Magnitude(samples[k].value) <= peak
    ensures 0.0 <= Energy(samples) <= |samples| as real * Square(peak)
  {
    if samples != [] {
      EnergyWithin(samples[1..], peak);
      if samples[0].Finite? {
        SquareWithin(samples[0].value, peak);
      } else {
        SquareWithin(0.0, peak);
      }
      assert |samples| as real * Square(peak) == |samples[1..]| as real * Square(peak) + Square(peak);
    }
  }

  lemma SquareWithin(x: real, peak: real)
    requires Magnitude(x) <= peak
    ensures 0.0 <= Square(x) <= Square(peak)
  {
    var m := Magnitude(x);
    assert Square(x) == m * m;
    Growing(m, peak);
  }

  lemma Growing(x: real, y: real)
    requires 0.0 <= x <= y
    ensures 0.0 <= x * x <= y * y
  {
    assert y * y - x * x == (y - x) * (y + x);
    NotNegative(y - x, y + x);
  }

  lemma NotNegative(x: real, y: real)
    requires x >= 0.0 && y >= 0.0
    ensures x * y >= 0.0
  {
  }

  lemma MeanWithin(sum: real, size: nat, most: real)
    requires 0.0 <= sum <= size as real * most && most >= 0.0
    ensures MeanSquare(sum, size) * size as real == sum && 0.0 <= MeanSquare(sum, size) <= most
    ensures size == 0 ==> MeanSquare(sum, size) == 0.0
  {
    if size > 0 {
      var mean := MeanSquare(sum, size);
      assert mean * size as real == sum;
      QuotientWithin(mean, size as real, most);
    }
  }

  lemma QuotientWithin(x: real, n: real, most: real)
    requires n > 0.0 && 0.0 <= x * n <= n * most
    ensures 0.0 <= x <= most
  {
    if x < 0.0 {
      Negative(-x, n);
    } else if x > most {
      Negative(x - most, n);
    }
  }

  lemma Negative(x: real, y: real)
    requires x > 0.0 && y > 0.0
    ensures x * y > 0.0
  {
  }

  /** The published mean square is the mean over the block of the squares of its finite samples: times the size it is
      their sum, it lies between nothing and the square of the block's peak, and is nothing for an empty block. */
  lemma MeanSquareIsMean(c: Thresholds, t: Totals, samples: seq<Float>, totals: Totals, generation: nat)
    ensures var p := Publication(totals, Scan(c, t, samples).block, |samples|, generation);
            && IsPeak(p.peak, samples)
            && p.meanSquare * |samples| as real == Energy(samples)
            && 0.0 <= p.meanSquare <= Square(p.peak)
            && (samples == [] ==> p.meanSquare == 0.0)
  {
    hide Scan, Energy, Square, IsPeak, MeanSquare;
    var b := Scan(c, t, samples).block;
    BlockPeaks(c, t, samples);
    BlockEnergy(c, t, samples);
    PeakBoundsEnergy(b.peak, samples);
    MeanWithin(b.sumSquares, |samples|, Square(b.peak));
  }

  lemma PeakBoundsEnergy(peak: real, samples: seq<Float>)
    requires IsPeak(peak, samples)
    ensures 0.0 <= Energy(samples) <= |samples| as real * Square(peak) && Square(peak) >= 0.0
  {
    EnergyWithin(samples, peak);
    SquareWithin(0.0, peak);
    hide Energy, Square;
  }

  /** A reading shows the stream since the last clear: how many samples clipped, in how many runs, where the last of
      them is, how many were invalid, the loudest, and whether the headroom warning is on. */
  ghost predicate Shows(c: Thresholds, r: Reading, base: nat, stream: seq<Float>) {
    && r.clipSamples == |ClippedAt(c, stream)| && r.clipEvents == |RunStarts(c, stream)|
    && IsLatest(c, r.latestClipSample, base, stream)
    && r.invalidSamples == |InvalidAt(stream)| && IsPeak(r.peakHold, stream)
    && (r.nearFullScaleRisk <==> |ClippedAt(c, stream)| == 0 && 0 < c.riskSampleCount <= |NearAt(c, stream)|)
  }

  /** What a block publishes shows the stream up to its end, whose samples are numbered on from the ones before. */
  lemma ReadingShowsTheStream(c: Thresholds, t: Totals, since: seq<Float>, samples: seq<Float>, selfTest: bool,
                              generation: nat)
    requires Reports(c, t, since)
    ensures var s := Scan(c, t, samples);
            Shows(c, Publication(Finish(s, selfTest, |samples|), s.block, |samples|, generation),
                  t.processed - |since|, since + samples)
  {
    TotalsDescribeTheStream(c, t, since, samples, selfTest);
    ProcessedCounts(c, t, samples, selfTest);
    hide Scan, Finish, IsLatest, IsPeak, ClippedAt, InvalidAt, NearAt, RunStarts, MeanSquare;
  }

  lemma {:induction false} ProcessedCounts(c: Thresholds, t: Totals, samples: seq<Float>, selfTest: bool)
    ensures Finish(Scan(c, t, samples), selfTest, |samples|).processed == t.processed + |samples|
    decreases |samples|
  {
    if samples != [] {
      ProcessedCounts(c, t, samples[..|samples| - 1], selfTest);
      hide Square, Clips, Near;
    }
  }

  /** Before the first block a meter shows what an empty block after a clear would. */
  lemma SilenceIsAnEmptyBlock(c: Thresholds, t: Totals)
    ensures var s := Scan(c, Cleared(t), []);
            Publication(Finish(s, false, 0), s.block, 0, 0) == Silence()
  {
  }

  /** The three latches: a hard clip puts out the others, a headroom warning in the block puts out the self test, and
      a self test shows only while neither does. */
  lemma LatchesExclude(c: Thresholds, t: Totals, samples: seq<Float>, selfTest: bool)
    ensures var s := Scan(c, t, samples);
            var r := Finish(s, selfTest, |samples|);
            && (r.hardClipLatched ==> !r.nearFullScaleRisk && !r.diagnosticClip)
            && (r.hardClipLatched <==> t.hardClipLatched || |ClippedAt(c, samples)| > 0)
            && (r.diagnosticClip <==> !r.hardClipLatched && !s.block.risk && (selfTest || t.diagnosticClip))
            && (Latches(s.block, selfTest) <==> |ClippedAt(c, samples)| > 0 || s.block.risk || selfTest)
  {
    BlockMarks(c, t, samples);
    InvalidClips(c, samples);
    ScanKeepsLatches(c, t, samples);
    hide Scan, ClippedAt, InvalidAt;
  }

  lemma {:induction false} ScanKeepsLatches(c: Thresholds, t: Totals, samples: seq<Float>)
    ensures var r := Scan(c, t, samples).totals;
            r.hardClipLatched == t.hardClipLatched && r.diagnosticClip == t.diagnosticClip
    decreases |samples|
  {
    if samples != [] {
      ScanKeepsLatches(c, t, samples[..|samples| - 1]);
      hide Square, Clips, Near;
    }
  }

  // ---------------------------------------------------------------- the object

  class Meter {
    const thresholds: Thresholds
    var totals: Totals
    var observedReset: nat
    var observedSelfTest: nat
    var resetRequests: nat
    var selfTestRequests: nat
    var acknowledged: nat
    var published: Reading

    /** No request is observed, and no clip acknowledged, before it is made. */
    ghost predicate Valid()
      reads this
    {
      && observedReset <= resetRequests
      && observedSelfTest <= selfTestRequests
      && acknowledged <= published.clipGeneration
    }

    predicate ResetPending()
      reads this
    {
      observedReset != resetRequests
    }

    predicate SelfTestPending()
      reads this
    {
      observedSelfTest != selfTestRequests
    }

    /** What a snapshot shows as clipped. */
    predicate ClipShows()
      reads this
    {
      published.clipGeneration != acknowledged
    }

    constructor (clipThreshold: real, riskThreshold: real, riskSampleCount: nat)
      ensures 0.5 <= thresholds.risk <= thresholds.clip <= 1.0
      ensures totals == Cleared(totals) && totals.processed == 0 && published == Silence()
      ensures Valid() && !ResetPending() && !SelfTestPending() && !ClipShows()
    {
      var clip := Clamp(clipThreshold, 0.5, 1.0);
      thresholds := Thresholds(clip, Clamp(riskThreshold, 0.5, clip), riskSampleCount);
      totals := Totals(0.0, 0, 0, 0, 0, 0, 0, false, false, false, false);
      observedReset, observedSelfTest, resetRequests, selfTestRequests, acknowledged := 0, 0, 0, 0, 0;
      published := Silence();
    }

    /** One block on the audio thread. */
    method Process(samples: seq<Float>)
      requires Valid()
      modifies this`totals, this`observedReset, this`observedSelfTest, this`published
      ensures Valid() && !ResetPending() && !SelfTestPending()
      ensures var start := if old(ResetPending()) then Cleared(old(totals)) else old(totals);
              var selfTest := old(SelfTestPending());
              var scanned := Scan(thresholds, start, samples);
              && totals == Finish(scanned, selfTest, |samples|)
              && published == Publication(totals, scanned.block, |samples|,
                                          old(published).clipGeneration
                                          + if Latches(scanned.block, selfTest) then 1 else 0)
              && (ClipShows() <==> old(ClipShows()) || Latches(scanned.block, selfTest))
    {
      hide Scan, Finish, MeanSquare;
      if resetRequests != observedReset {
        observedReset := resetRequests;
        totals := Cleared(totals);
      }
      var selfTest := selfTestRequests != observedSelfTest;
      observedSelfTest := selfTestRequests;
      ghost var start := totals;
      var block := ScanBlock(samples);
      FinishBlock(block, selfTest, |samples|);
      var latched := block.clipped || block.risk || selfTest;
      published := Reading(
        block.peak, MeanSquare(block.sumSquares, |samples|), totals.peakHold,
        published.clipGeneration + if latched then 1 else 0,
        totals.clipSamples, totals.clipEvents, totals.latestClipSample, totals.invalidSamples,
        totals.nearFullScaleRisk, totals.diagnosticClip);
    }

    method FinishBlock(block: Block, selfTest: bool, size: nat)
      modifies this`totals
      ensures totals == Finish(Scanned(old(totals), block), selfTest, size)
    {
      if block.clipped || block.invalid != 0 {
        totals := totals.(hardClipLatched := true);
      }
      if totals.hardClipLatched {
        totals := totals.(nearFullScaleRisk := false, diagnosticClip := false);
      } else if block.risk {
        totals := totals.(diagnosticClip := false);
      } else if selfTest {
        totals := totals.(diagnosticClip := true);
      }
      totals := totals.(invalidSamples := totals.invalidSamples + block.invalid,
                        processed := totals.processed + size,
                        peakHold := MaxReal(totals.peakHold, block.peak));
    }

    /** The sample loop. */
    method ScanBlock(samples: seq<Float>) returns (block: Block)
      modifies this`totals
      ensures Scanned(totals, block) == Scan(thresholds, old(totals), samples)
    {
      block := Empty();
      for index := 0 to |samples|
        invariant Scanned(totals, block) == Scan(thresholds, old(totals), samples[..index])
      {
        assert samples[..index + 1][..index] == samples[..index];
        hide Step;
        block := ScanSample(block, index, samples[index]);
      }
      assert samples[..|samples|] == samples;
    }

    /** One more sample near full scale; true when it is the one that raises the risk. */
    method CountNear() returns (risky: bool)
      modifies this`totals
      ensures var t := old(totals);
              && risky == (!t.nearFullScaleRisk && t.nearFullScaleSamples + 1 >= thresholds.riskSampleCount)
              && totals == t.(nearFullScaleSamples := t.nearFullScaleSamples + 1,
                              nearFullScaleRisk := t.nearFullScaleRisk || risky)
    {
      totals := totals.(nearFullScaleSamples := totals.nearFullScaleSamples + 1);
      risky := !totals.nearFullScaleRisk && totals.nearFullScaleSamples >= thresholds.riskSampleCount;
      if risky {
        totals := totals.(nearFullScaleRisk := true);
      }
    }

    method CountClip(clips: bool, index: nat)
      modifies this`totals
      ensures var t := old(totals);
              totals == t.(clipSamples := t.clipSamples + if clips then 1 else 0,
                           latestClipSample := if clips then t.processed + index else t.latestClipSample,
                           clipEvents := t.clipEvents + if clips && !t.previousClipped then 1 else 0,
                           previousClipped := clips)
    {
      if clips {
        totals := totals.(clipSamples := totals.clipSamples + 1, latestClipSample := totals.processed + index);
        if !totals.previousClipped {
          totals := totals.(clipEvents := totals.clipEvents + 1);
        }
      }
      totals := totals.(previousClipped := clips);
    }

    method ScanSample(before: Block, index: nat, sample: Float) returns (block: Block)
      modifies this`totals
      ensures Scanned(totals, block) == Step(thresholds, Scanned(old(totals), before), index, sample)
    {
      hide Square, Magnitude;
      block := before;
      var clips := false;
      match sample {
        case NotFinite =>
          block := block.(invalid := block.invalid + 1);
          clips := true;
        case Finite(value) =>
          var magnitude := Magnitude(value);
          block := block.(peak := MaxReal(block.peak, magnitude), sumSquares := block.sumSquares + Square(value));
          clips := magnitude >= thresholds.clip;
          if !clips && thresholds.riskSampleCount != 0 && magnitude >= thresholds.risk {
            var risky := CountNear();
            block := block.(risk := block.risk || risky);
          }
      }
      block := block.(clipped := block.clipped || clips);
      CountClip(clips, index);
    }

    /** Acknowledges the clips published so far; the next block starts its totals again. */
    method ClearClipLatch()
      requires Valid()
      modifies this`acknowledged, this`resetRequests
      ensures Valid() && ResetPending() && !ClipShows()
      ensures resetRequests == old(resetRequests) + 1
    {
      acknowledged := published.clipGeneration;
      resetRequests := resetRequests + 1;
    }

    /** Makes the next block latch. */
    method RequestClipSelfTest()
      requires Valid()
      modifies this`selfTestRequests
      ensures Valid() && SelfTestPending() && selfTestRequests == old(selfTestRequests) + 1
    {
      selfTestRequests := selfTestRequests + 1;
    }
  }
}
