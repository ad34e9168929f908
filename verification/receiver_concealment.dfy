/** The receiver's own concealment: what it remembers, how loud it is, and where it joins the real sound. */
module ReceiverConcealment {
  import opened Bounds
  import opened CircularSequence
  import opened Samples
  import opened ReceiverModel
  import opened ReceiverIntegrity
  import opened ReceiverRegulation
  import opened ReceiverRuns
  import opened ReceiverLossless

  // ------------------------------------------------------------------ what is remembered

  /** The decodings of the packets that were played, in order, each from the decoder as it then was. */
  function Real(e: Environment, turns: seq<Turn>): seq<Sample> {
    if turns == [] then []
    else
      var before := turns[..|turns| - 1];
      Real(e, before) + Sound(e, before, turns[|turns| - 1].outcome)
  }

  function Sound(e: Environment, before: seq<Turn>, outcome: Outcome): seq<Sample> {
    if outcome.Played? then e.decode(Rendering(before), outcome.payload) else []
  }

  /** `tape` is `sound` with silent samples in between. */
  predicate Woven(tape: seq<Sample>, sound: seq<Sample>)
    decreases |tape|
  {
    if tape == [] then sound == []
    else
      var front, last := tape[..|tape| - 1], tape[|tape| - 1];
      || (last == 0.0 && Woven(front, sound))
      || (sound != [] && sound[|sound| - 1] == last && Woven(front, sound[..|sound| - 1]))
  }

  lemma {:induction false} WovenSilence(tape: seq<Sample>, sound: seq<Sample>, n: nat)
    requires Woven(tape, sound)
    ensures Woven(tape + Zeros(n), sound)
  {
    if n == 0 {
      assert tape + Zeros(0) == tape;
    } else {
      WovenSilence(tape, sound, n - 1);
      assert (tape + Zeros(n))[..|tape| + n - 1] == tape + Zeros(n - 1);
    }
  }

  lemma {:induction false} WovenSound(tape: seq<Sample>, sound: seq<Sample>, more: seq<Sample>)
    requires Woven(tape, sound)
    ensures Woven(tape + more, sound + more)
    decreases |more|
  {
    if more == [] {
      assert tape + more == tape && sound + more == sound;
    } else {
      var last := |more| - 1;
      WovenSound(tape, sound, more[..last]);
      assert (tape + more)[..|tape| + last] == tape + more[..last];
      assert (sound + more)[..|sound| + last] == sound + more[..last];
    }
  }

  /** What the concealment looks back on is the played packets as they were decoded, with the silence that was
      played in between, and nothing else: never a cross-fade, never anything invented. */
  ghost predicate Memory(e: Environment, turns: seq<Turn>, v: Voice, silent: nat) {
    && Woven(v.history, Real(e, turns)) && |v.history| == |Real(e, turns)| + silent
    && v.realRun <= |v.history| && v.realRun <= HISTORY_FRAMES
  }

  ghost predicate Remembers(e: Environment, s: State) {
    s.decoderCalls == Rendering(s.ledger.turns) && Memory(e, s.ledger.turns, s.consumer.voice, s.counters.silentFrames)
  }

  lemma RealAppend(e: Environment, turns: seq<Turn>, t: Turn)
    ensures Real(e, turns + [t]) == Real(e, turns) + Sound(e, turns, t.outcome)
  {
    assert (turns + [t])[..|turns|] == turns;
  }

  /** What a turn does to the memory: a played packet is added as decoded; anything else interrupts the run of
      real sound and adds nothing. */
  lemma TurnRemembers(e: Environment, c: Settings, s: State)
    requires PacketSized(c, s)
    ensures var r, v := PlayNext(e, c, s), s.consumer.voice;
            if NextOutcome(e, c, s).Played? then
              && r.consumer.voice.history == v.history + e.decode(s.decoderCalls, NextOutcome(e, c, s).payload)
              && r.consumer.voice.realRun == Min(v.realRun + c.packetFrames, HISTORY_FRAMES)
            else r.consumer.voice.history == v.history && r.consumer.voice.realRun == 0
    ensures PlayNext(e, c, s).counters.silentFrames == s.counters.silentFrames
  {
    hide SlotOf, Blended, Extrapolated, TurnTaken;
  }

  lemma MemoryGrows(e: Environment, turns: seq<Turn>, v: Voice, silent: nat, t: Turn, w: Voice)
    requires Memory(e, turns, v, silent)
    requires w.history == v.history + Sound(e, turns, t.outcome)
    requires w.realRun <= v.realRun + |Sound(e, turns, t.outcome)| && w.realRun <= HISTORY_FRAMES
    ensures Memory(e, turns + [t], w, silent)
  {
    RealAppend(e, turns, t);
    WovenSound(v.history, Real(e, turns), Sound(e, turns, t.outcome));
    hide Woven, Real, Sound;
  }

  /** A turn adds the sound it played, if any, to the memory. */
  lemma TurnAdds(e: Environment, c: Settings, s: State, r: State, outcome: Outcome)
    requires |s.slots| == c.slotCount > 0 && Consumes(c, s, r, outcome) && Remembers(e, s)
    requires r.consumer.voice.history == s.consumer.voice.history + Sound(e, s.ledger.turns, outcome)
    requires r.consumer.voice.realRun <= s.consumer.voice.realRun + |Sound(e, s.ledger.turns, outcome)|
    requires r.consumer.voice.realRun <= HISTORY_FRAMES && r.counters.silentFrames == s.counters.silentFrames
    ensures Remembers(e, r)
  {
    var t := Turn(s.ledger.segment, s.consumer.playout, outcome);
    RenderingAppend(s.ledger.turns, t);
    hide Memory, Sound, Rendering, CallsFor, SlotOf, Carried;
    MemoryGrows(e, s.ledger.turns, s.consumer.voice, s.counters.silentFrames, t, r.consumer.voice);
  }

  lemma PlayRemembers(e: Environment, c: Settings, s: State)
    requires PacketSized(c, s) && Remembers(e, s)
    ensures Remembers(e, PlayNext(e, c, s))
  {
    var outcome := NextOutcome(e, c, s);
    TurnRemembers(e, c, s);
    PlayConsumes(e, c, s);
    DecodesWhole(e, c, s);
    hide PlayNext, Memory, SlotOf, NextOutcome, CallsFor, Rendering, Consumes;
    assert s.consumer.voice.history + [] == s.consumer.voice.history;
    TurnAdds(e, c, s, PlayNext(e, c, s), outcome);
  }

  lemma TrimRemembers(e: Environment, c: Settings, s: State)
    requires PacketSized(c, s) && Remembers(e, s)
    ensures Remembers(e, Trim(e, c, s))
  {
    TrimConsumes(e, c, s);
    assert s.consumer.voice.history + [] == s.consumer.voice.history;
    assert s.consumer.voice.realRun <= HISTORY_FRAMES;
    hide Memory, SlotOf, CallsFor, Rendering, Consumes;
    TurnAdds(e, c, s, Trim(e, c, s), TrimOutcome(e, c, s));
  }

  lemma DecodesWhole(e: Environment, c: Settings, s: State)
    requires PacketSized(c, s)
    ensures var outcome := NextOutcome(e, c, s);
            outcome.Played? ==> |e.decode(s.decoderCalls, outcome.payload)| == c.packetFrames
  {
  }

  lemma RegulateRemembers(e: Environment, c: Settings, s: State)
    requires PacketSized(c, s) && Remembers(e, s)
    ensures Remembers(e, Regulate(e, c, s))
  {
    var w := WatchArrivals(s);
    WatchOnlyConsumer(s);
    if TooShallow(w) {
      hide Extrapolated, WatchArrivals, Woven, Rendering, Real;
    } else {
      hide Trim, PlayNext, WatchArrivals, SlotOf, Memory, Rendering;
      var t := if TooDeep(w) then Trim(e, c, w) else w;
      if TooDeep(w) {
        TrimRemembers(e, c, w);
      }
      PlayRemembers(e, c, t);
    }
  }

  lemma BeginRemembers(e: Environment, c: Settings, s: State)
    requires PacketSized(c, s) && Remembers(e, s)
    ensures Remembers(e, BeginPacket(e, c, s))
  {
    var o := Observe(s);
    hide Regulate, Memory, Rendering;
    if o.consumer.primed {
      RegulateRemembers(e, c, o);
    } else if CanPrime(o) {
      RegulateRemembers(e, c, Prime(o));
    }
  }

  lemma SilenceRemembers(e: Environment, s: State, n: nat)
    requires Remembers(e, s)
    ensures Remembers(e, Silence(s, n))
  {
    WovenSilence(s.consumer.voice.history, Real(e, s.ledger.turns), n);
    hide Woven, Real, Rendering;
  }

  lemma PullRemembers(e: Environment, c: Settings, s: State, frames: nat)
    requires PacketSized(c, s) && Remembers(e, s)
    ensures Remembers(e, Pull(e, c, s, frames).state)
  {
    hide BeginPacket, Remembers, Silence, Pull;
    forall t | PacketSized(c, t) && Remembers(e, t) ensures Remembers(e, BeginPacket(e, c, t)) {
      BeginRemembers(e, c, t);
    }
    forall t, offset: nat | Remembers(e, t) && offset <= c.packetFrames ensures Remembers(e, AtOffset(t, offset)) {
      SameMemory(e, t, AtOffset(t, offset));
    }
    forall t, n: nat | Remembers(e, t) ensures Remembers(e, Silence(t, n)) {
      SilenceRemembers(e, t, n);
    }
    PullKeeps(e, c, s, frames, t => Remembers(e, t));
  }

  lemma SameMemory(e: Environment, s: State, r: State)
    requires Remembers(e, s) && r.decoderCalls == s.decoderCalls && r.ledger.turns == s.ledger.turns
    requires r.consumer.voice == s.consumer.voice && r.counters.silentFrames == s.counters.silentFrames
    ensures Remembers(e, r)
  {
  }

  lemma SubmitRemembers(e: Environment, c: Settings, s: State, sequence: Sequence, payload: Payload, arrival: nat)
    requires c.Valid() && PacketSized(c, s) && Remembers(e, s)
    ensures Remembers(e, Submit(c, s, sequence, payload, arrival))
  {
    hide Rebase, Measure, Retarget, SlotOf, Classify, Memory, Rendering;
  }

  lemma BlankRemembers(e: Environment, s: State)
    requires s.decoderCalls == [] && s.ledger.turns == [] && s.counters.silentFrames == 0
    requires s.consumer.voice.history == [] && s.consumer.voice.realRun == 0
    ensures Remembers(e, s)
  {
  }

  lemma StepRemembers(e: Environment, c: Settings, s: State, op: Op)
    requires c.Valid() && PacketSized(c, s) && Remembers(e, s)
    ensures Remembers(e, Step(e, c, s, op))
  {
    hide Submit, Pull, Remembers;
    match op {
      case Arrive(sequence, payload, at) => SubmitRemembers(e, c, s, sequence, payload, at);
      case Render(frames) => PullRemembers(e, c, s, frames);
      case Retune(minimum, maximum, safety) => SameMemory(e, s, ConfigureDepth(c, s, minimum, maximum, safety));
      case Restart => BlankRemembers(e, Reset(c, s));
    }
  }

  lemma {:induction false} RunRemembers(e: Environment, c: Settings, s: State, ops: seq<Op>)
    requires c.Valid() && PacketSized(c, s) && Remembers(e, s)
    ensures Remembers(e, Run(e, c, s, ops))
    decreases ops
  {
    hide Step, Remembers;
    if ops != [] {
      RunRemembers(e, c, s, ops[..|ops| - 1]);
      StepRemembers(e, c, Run(e, c, s, ops[..|ops| - 1]), ops[|ops| - 1]);
    }
  }

  /** So in every run the history is exactly the decodings of the played packets, in order and untouched by any
      cross-fade, with as many silent samples in between as were counted. */
  lemma HistoryIsReal(e: Environment, c: Settings, s: State)
    requires Reachable(e, c, s)
    ensures Memory(e, s.ledger.turns, s.consumer.voice, s.counters.silentFrames)
  {
    var ops :| s == Run(e, c, Initial(c), ops);
    BlankRemembers(e, Initial(c));
    RunRemembers(e, c, Initial(c), ops);
    hide Run, Reachable, Memory, Rendering;
  }

  // ------------------------------------------------------------------ how loud it is

  /** No sample of the history is louder than this. */
  predicate Within(history: seq<Sample>, peak: real) {
    peak >= 0.0 && forall i | 0 <= i < |history| :: -peak <= history[i] <= peak
  }

  lemma DecayedShrinks(packets: nat)
    ensures 0.0 < Decayed(packets) <= 1.0
    ensures packets > 0 ==> Decayed(packets) <= DECAY_PER_PACKET
  {
  }

  lemma PartIsPart(i: nat, n: nat)
    requires i <= n
    ensures 0.0 <= Part(i, n) <= 1.0
  {
    if n > 0 {
      Product(1.0 / n as real, i as real, n as real);
    }
  }

  /** Multiplying by something not negative keeps the order. */
  lemma Product(x: real, a: real, b: real)
    requires x >= 0.0 && a <= b
    ensures a * x <= b * x
  {
  }

  lemma Shrunk(x: real, peak: real, factor: real, bound: real)
    requires -peak <= x <= peak && 0.0 <= factor <= bound
    ensures -(peak * bound) <= x * factor <= peak * bound
  {
    Product(factor, x, peak);
    Product(factor, -peak, x);
    Product(peak, factor, bound);
  }

  /** The gain over a packet of a burst falls from one power of a half to the next, or stays at one. */
  lemma GainFalls(burst: nat, decay: bool, position: real)
    requires 0.0 <= position <= 1.0
    ensures if decay then Decayed(burst + 1) <= Gain(burst, decay, position) <= Decayed(burst)
            else Gain(burst, decay, position) == 1.0
  {
    DecayedShrinks(burst);
    assert Decayed(burst + 1) == Decayed(burst) * DECAY_PER_PACKET;
    Falls(Decayed(burst), position);
    hide Decayed, Ramp;
  }

  lemma Falls(start: real, position: real)
    requires start >= 0.0 && 0.0 <= position <= 1.0
    ensures start * DECAY_PER_PACKET <= Ramp(start, start * DECAY_PER_PACKET, position) <= start
  {
    var half := start * 0.5;
    Product(half, 0.0, position);
    Product(half, position, 1.0);
    assert 0.0 <= position * half <= half;
    assert Ramp(start, half, position) == start - position * half;
  }

  lemma ContinuedWithin(v: Voice, i: nat, length: nat, peak: real)
    requires Within(v.history, peak) && i <= length
    ensures -peak <= Continued(v, i, length) <= peak
  {
    PartIsPart(i, length);
    var factor := 1.0 - Part(i, length);
    hide Part;
    Shrunk(LastHeard(v), peak, factor, 1.0);
  }

  function Level(burst: nat, decay: bool): real { if decay then Decayed(burst) else 1.0 }

  lemma SyntheticWithin(c: Settings, v: Voice, burst: nat, decay: bool, i: nat, peak: real)
    requires Within(v.history, peak) && i <= c.packetFrames
    ensures -(peak * Level(burst, decay)) <= Synthetic(c, v, burst, decay, i) <= peak * Level(burst, decay)
  {
    var position := Part(i, c.packetFrames);
    PartIsPart(i, c.packetFrames);
    ContinuedWithin(v, i, c.packetFrames, peak);
    GainFalls(burst, decay, position);
    DecayedShrinks(burst + 1);
    hide Continued, Gain, Decayed, Within, Part;
    Shrunk(Continued(v, i, c.packetFrames), peak, Gain(burst, decay, position), Level(burst, decay));
  }

  /** The repeated sound is never louder than the loudest real sound scaled by the level of the burst: one for a
      stretch, a power of a half for a loss. Only the correction at the entry may exceed it, and never full scale. */
  lemma NeverBeyond(e: Environment, c: Settings, v: Voice, burst: nat, decay: bool, entering: bool, i: nat, peak: real)
    requires Within(v.history, peak) && i < c.packetFrames
    ensures var sample := Extrapolated(e, c, v, burst, decay, entering, i);
            var bound := if Joins(v, entering) && i < FadeFrames(c) then 1.0 else peak * Level(burst, decay);
            -bound <= sample <= bound
  {
    SyntheticWithin(c, v, burst, decay, i, peak);
    hide Synthetic, Level, Within, Joins;
  }

  // ------------------------------------------------------------------ how it joins

  /** The first invented sample is the last real one: the entry is exactly continuous, with a period to repeat, and
      without one too unless loss has lowered the level already. */
  lemma EntryIsContinuous(e: Environment, c: Settings, v: Voice, burst: nat, decay: bool)
    requires e.window(0) == 0.0 && c.packetFrames > 0 && v.history != []
    requires -1.0 <= v.history[|v.history| - 1] <= 1.0
    ensures v.concealPeriod > 0 || (decay ==> burst == 0) ==>
              Extrapolated(e, c, v, burst, decay, true, 0) == v.history[|v.history| - 1]
  {
  }

  /** Whatever was heard before, this sample of a stretch is no louder than the loudest of it. */
  ghost predicate NeverLouder(e: Environment, c: Settings, entering: bool, i: nat) {
    forall v: Voice, peak: real :: Within(v.history, peak) ==>
      -peak <= Extrapolated(e, c, v, 0, false, entering, i) <= peak
  }

  /** The correction keeps the entry from clicking at a price. The samples that are no louder than what they stand in
      for, whatever that was, are exactly the first one, those that the correction does not touch, and those where it
      has faded out. */
  lemma NeverLouderIff(e: Environment, c: Settings, entering: bool, i: nat)
    requires i < c.packetFrames && 0.0 <= e.window(i) <= 1.0
    ensures NeverLouder(e, c, entering, i)
            <==> !entering || i == 0 || i >= FadeFrames(c) || e.window(i) == 1.0
  {
    if entering && 0 < i < FadeFrames(c) && e.window(i) < 1.0 {
      var v := EntryCanBeLouder(e, c, i);
    } else {
      forall v: Voice, peak: real | Within(v.history, peak)
        ensures -peak <= Extrapolated(e, c, v, 0, false, entering, i) <= peak
      {
        QuietSample(e, c, v, entering, i, peak);
      }
    }
  }

  lemma QuietSample(e: Environment, c: Settings, v: Voice, entering: bool, i: nat, peak: real)
    requires i < c.packetFrames && 0.0 <= e.window(i) <= 1.0 && Within(v.history, peak)
    requires !entering || i == 0 || i >= FadeFrames(c) || e.window(i) == 1.0
    ensures -peak <= Extrapolated(e, c, v, 0, false, entering, i) <= peak
  {
    SyntheticWithin(c, v, 0, false, i, peak);
    SyntheticWithin(c, v, 0, false, 0, peak);
    assert -peak <= LastHeard(v) <= peak;
    hide Synthetic, Within, LastHeard;
    if Joins(v, entering) && i < FadeFrames(c) {
      JoinQuiet(e, v, Synthetic(c, v, 0, false, 0), i, Synthetic(c, v, 0, false, i), peak);
    }
    hide Joined, Joins;
  }

  lemma JoinQuiet(e: Environment, v: Voice, first: Sample, i: nat, sample: Sample, peak: real)
    requires -peak <= sample <= peak && -peak <= first <= peak && -peak <= LastHeard(v) <= peak
    requires 0.0 <= e.window(i) <= 1.0 && (e.window(i) == 1.0 || sample == first)
    ensures -peak <= Joined(e, v, first, i, sample) <= peak
  {
    var last, weight := LastHeard(v), 1.0 - e.window(i);
    SumQuiet(sample, first, last, weight, peak);
    hide LastHeard;
  }

  lemma SumQuiet(sample: real, first: real, last: real, weight: real, peak: real)
    requires -peak <= sample <= peak && -peak <= first <= peak && -peak <= last <= peak
    requires 0.0 <= weight <= 1.0 && (weight == 0.0 || sample == first)
    ensures -peak <= sample + (last - first) * weight <= peak
  {
    if weight == 0.0 {
      assert (last - first) * weight == 0.0;
    } else {
      Mixed(first, last, weight);
      assert CrossFaded(first, last, weight) == sample + (last - first) * weight;
    }
  }

  /** For any other sample there is a sound it is louder than. */
  lemma EntryCanBeLouder(e: Environment, c: Settings, i: nat) returns (v: Voice)
    requires 0 < i < FadeFrames(c) && 0.0 <= e.window(i) < 1.0
    ensures |v.history| == 96 && v.concealPeriod == 96 && v.synthesisOffset == 0 && Within(v.history, 0.25)
    ensures Extrapolated(e, c, v, 0, false, true, i) > 0.25
  {
    var history := seq(96, (k: nat) => if k == 0 then -0.25 else 0.25);
    v := Voice(history, 96, 96, 96, 0);
    assert LastHeard(v) == 0.25 && Continued(v, 0, c.packetFrames) == -0.25 && Continued(v, i, c.packetFrames) == 0.25;
    StretchIsFull(c, v, 0);
    StretchIsFull(c, v, i);
    hide Synthetic, Continued, LastHeard;
    Product(0.5, 0.0, 1.0 - e.window(i));
    assert Extrapolated(e, c, v, 0, false, true, i) == Joined(e, v, -0.25, i, 0.25);
  }

  /** A stretch is the continued sound at full level. */
  lemma StretchIsFull(c: Settings, v: Voice, i: nat)
    ensures Synthetic(c, v, 0, false, i) == Continued(v, i, c.packetFrames)
  {
    hide Continued, Part;
  }

  // ------------------------------------------------------------------ a burst of several packets

  /** One more packet of concealment by the receiver itself. */
  function Again(e: Environment, c: Settings, k: Consumer, decay: bool): Consumer {
    CountConcealment(c, Extrapolate(e, c, k, decay), decay)
  }

  function Burst(e: Environment, c: Settings, k: Consumer, decay: bool, n: nat): Consumer {
    if n == 0 then k else Again(e, c, Burst(e, c, k, decay, n - 1), decay)
  }

  /** The voice once a burst has begun: the period to repeat is settled then and kept. */
  function Entered(e: Environment, k: Consumer): Voice {
    var v := k.voice;
    var period := e.measurePeriod(v.history, v.realRun, v.cachedPeriod);
    v.(concealPeriod := period, cachedPeriod := period, synthesisOffset := 0)
  }

  lemma AgainMoves(e: Environment, c: Settings, k: Consumer, decay: bool)
    ensures var r, v := Again(e, c, k, decay), if k.concealBurst == 0 then Entered(e, k) else k.voice;
            && r.concealBurst == k.concealBurst + 1 && r.lossBurst == k.lossBurst + (if decay then 1 else 0)
            && r.voice == v.(realRun := 0, synthesisOffset := v.synthesisOffset + c.packetFrames)
  {
    hide Extrapolated;
  }

  lemma AgainSounds(e: Environment, c: Settings, k: Consumer, decay: bool, i: nat)
    requires k.concealBurst > 0 && i < c.packetFrames
    ensures Again(e, c, k, decay).currentPacket[i] == Synthetic(c, k.voice, k.lossBurst, decay, i)
  {
    hide Synthetic, Joined;
    var v := k.voice;
    assert Again(e, c, k, decay).currentPacket[i] == Extrapolated(e, c, v, k.lossBurst, decay, false, i);
  }

  lemma {:induction false} BurstKeepsPeriod(e: Environment, c: Settings, k: Consumer, decay: bool, n: nat)
    requires k.concealBurst == 0 && n > 0
    ensures var r := Burst(e, c, k, decay, n);
            && r.concealBurst == n && r.lossBurst == k.lossBurst + (if decay then n else 0)
            && r.voice == Entered(e, k).(realRun := 0, synthesisOffset := n * c.packetFrames)
  {
    hide Again, Entered;
    AgainMoves(e, c, Burst(e, c, k, decay, n - 1), decay);
    if n == 1 {
      assert Burst(e, c, k, decay, 0) == k;
      NoOffset(e, k);
    } else {
      BurstKeepsPeriod(e, c, k, decay, n - 1);
      assert (n - 1) * c.packetFrames + c.packetFrames == n * c.packetFrames;
    }
  }

  lemma NoOffset(e: Environment, k: Consumer)
    ensures Entered(e, k).synthesisOffset == 0 && Entered(e, k).history == k.voice.history
  {
  }

  /** The whole burst is one wave under one envelope. Sample `i` of the `n`-th further packet is the last period of
      real sound, taken up where the packet before left it, at a level that halves from packet to packet if the
      audio is missing and stays where it is if it is only being stretched. */
  lemma BurstIsOneWave(e: Environment, c: Settings, k: Consumer, decay: bool, n: nat, i: nat)
    requires k.concealBurst == 0 && k.lossBurst == 0 && n > 0 && i < c.packetFrames
    requires Entered(e, k).concealPeriod > 0
    ensures var period, history := Entered(e, k).concealPeriod, k.voice.history;
            Burst(e, c, k, decay, n + 1).currentPacket[i]
            == Repeated(history, period, n * c.packetFrames + i) * Gain(if decay then n else 0, decay, Part(i, c.packetFrames))
  {
    hide *;
    var b, burst := Burst(e, c, k, decay, n), if decay then n else 0;
    BurstKeepsPeriod(e, c, k, decay, n);
    NoOffset(e, k);
    BurstGoesOn(e, c, k, decay, n);
    AgainSounds(e, c, b, decay, i);
    Wave(c, b.voice, burst, decay, i);
  }

  lemma BurstGoesOn(e: Environment, c: Settings, k: Consumer, decay: bool, n: nat)
    ensures Burst(e, c, k, decay, n + 1) == Again(e, c, Burst(e, c, k, decay, n), decay)
  {
    hide Again;
  }

  lemma Wave(c: Settings, v: Voice, burst: nat, decay: bool, i: nat)
    requires v.concealPeriod > 0
    ensures Synthetic(c, v, burst, decay, i)
            == Repeated(v.history, v.concealPeriod, v.synthesisOffset + i) * Gain(burst, decay, Part(i, c.packetFrames))
  {
  }

  /** The sound that the packet after this one would begin with runs on from where this one ends if and only if
      there is a period to repeat or nothing was heard: without a period every further packet of a burst starts
      again from the last real sample after the one before has run down to zero. */
  lemma PacketsJoinIffPeriodic(c: Settings, v: Voice, burst: nat, decay: bool)
    requires c.packetFrames > 0
    ensures var next := v.(synthesisOffset := v.synthesisOffset + c.packetFrames);
            Synthetic(c, v, burst, decay, c.packetFrames)
            == Synthetic(c, next, if decay then burst + 1 else burst, decay, 0)
            <==> v.concealPeriod > 0 || LastHeard(v) == 0.0
  {
    var next := v.(synthesisOffset := v.synthesisOffset + c.packetFrames);
    var after := if decay then burst + 1 else burst;
    GainMeets(burst, decay);
    DecayedShrinks(after);
    assert Part(c.packetFrames, c.packetFrames) == 1.0 && Part(0, c.packetFrames) == 0.0;
    var level := Gain(after, decay, 0.0);
    hide Gain, Decayed, HistoryAt, Repeated, Part;
    if v.concealPeriod == 0 {
      assert Continued(v, c.packetFrames, c.packetFrames) == 0.0;
      assert Continued(next, 0, c.packetFrames) == LastHeard(v);
    } else {
      assert Continued(v, c.packetFrames, c.packetFrames) == Continued(next, 0, c.packetFrames);
    }
    hide Continued;
    NonzeroProduct(LastHeard(v), level);
  }

  lemma GainMeets(burst: nat, decay: bool)
    ensures Gain(burst, decay, 1.0) == Gain(if decay then burst + 1 else burst, decay, 0.0) > 0.0
  {
    DecayedShrinks(burst);
  }

  lemma NonzeroProduct(x: real, y: real)
    requires y > 0.0
    ensures x * y == 0.0 <==> x == 0.0
  {
  }

  // ------------------------------------------------------------------ recovery

  /** Each sample of the cross-fade lies between the decoded packet and the sound that was going on. */
  lemma RecoveryRises(e: Environment, c: Settings, v: Voice, burst: nat, decoded: seq<Sample>, i: nat)
    requires i < FadeFrames(c) <= |decoded| && 0.0 <= e.window(i) <= 1.0
    ensures var going := AtLevel(Continued(v, i, FadeFrames(c)), Decayed(burst));
            var sample := Blended(e, c, v, burst, decoded, i);
            going <= sample <= decoded[i] || decoded[i] <= sample <= going
  {
    var going, weight := AtLevel(Continued(v, i, FadeFrames(c)), Decayed(burst)), e.window(i);
    Mixed(going, decoded[i], weight);
    hide Continued, Decayed, CrossFaded;
  }

  /** And it rises out of exactly the sound that another packet of concealment would have gone on with. */
  lemma RecoveryStarts(e: Environment, c: Settings, v: Voice, burst: nat, decoded: seq<Sample>)
    requires 0 < FadeFrames(c) <= |decoded| && e.window(0) == 0.0
    ensures Blended(e, c, v, burst, decoded, 0) == Synthetic(c, v, burst, true, 0)
  {
    hide Decayed, HistoryAt, Repeated;
  }

  lemma Mixed(a: real, b: real, weight: real)
    requires 0.0 <= weight <= 1.0
    ensures a <= CrossFaded(a, b, weight) <= b || b <= CrossFaded(a, b, weight) <= a
  {
    if a <= b {
      MixedUp(a, b, weight);
    } else {
      MixedUp(b, a, 1.0 - weight);
      assert CrossFaded(a, b, weight) == CrossFaded(b, a, 1.0 - weight);
    }
  }

  lemma MixedUp(a: real, b: real, weight: real)
    requires 0.0 <= weight <= 1.0 && a <= b
    ensures a <= CrossFaded(a, b, weight) <= b
  {
    NotNegative(b - a, weight);
    NotNegative(b - a, 1.0 - weight);
    assert CrossFaded(a, b, weight) - a == (b - a) * weight;
    assert b - CrossFaded(a, b, weight) == (b - a) * (1.0 - weight);
    hide CrossFaded;
  }

  lemma NotNegative(x: real, y: real)
    requires x >= 0.0 && y >= 0.0
    ensures x * y >= 0.0
  {
  }

  // ------------------------------------------------------------------ a stream that stops

  /** Of so many packets of playback with nothing arriving, those that are faded: all but the first three or so, by
      when the stream counts as stopped. */
  function Fading(stalled: nat, n: nat): int {
    Max(0, stalled + n - (STALL_LIMIT - 1)) - Max(0, stalled - (STALL_LIMIT - 1))
  }

  /** A stream that has run dry is stretched at full level while it still counts as arriving, and from the fourth
      packet without an arrival on fades by half with each. */
  lemma {:induction false} StoppedStreamFades(e: Environment, c: Settings, s: State, n: nat)
    requires Settled(c, s) && DepthOf(s) < LowDepth(s.depth.target)
    requires s.consumer.previousHighest == s.producer.highest && s.consumer.stalledPackets <= STALL_LIMIT
    ensures Begins(e, c, s, n).consumer.lossBurst == s.consumer.lossBurst + Fading(s.consumer.stalledPackets, n)
    decreases n
  {
    hide DepthOf, Settled, BeginPacket;
    SettledSizes(c, s);
    if n > 0 {
      StoppedStretches(e, c, s);
      StoppedStreamFades(e, c, BeginPacket(e, c, s), n - 1);
    }
  }

  lemma StoppedStretches(e: Environment, c: Settings, s: State)
    requires Settled(c, s) && DepthOf(s) < LowDepth(s.depth.target)
    requires s.consumer.previousHighest == s.producer.highest && s.consumer.stalledPackets <= STALL_LIMIT
    ensures var r := BeginPacket(e, c, s);
            && Settled(c, r) && DepthOf(r) < LowDepth(r.depth.target)
            && r.consumer.previousHighest == r.producer.highest
            && r.consumer.stalledPackets == Min(s.consumer.stalledPackets + 1, STALL_LIMIT)
            && r.consumer.lossBurst
               == s.consumer.lossBurst + if s.consumer.stalledPackets + 1 >= STALL_LIMIT then 1 else 0
  {
    hide Extrapolated;
    BeginSettled(e, c, s);
  }

  /** While packets arrive, a stretch is at full level: it does not add to the loss. */
  lemma ArrivingStretchKeepsLevel(e: Environment, c: Settings, s: State, a: Arrival)
    requires Settled(c, s) && Fits(c, a) && s.consumer.previousHighest == s.producer.highest
    requires DepthOf(SubmitNext(c, s, a)) < LowDepth(SubmitNext(c, s, a).depth.target)
    ensures Cycle(e, c, s, a).consumer.lossBurst == s.consumer.lossBurst
  {
    var t := SubmitNext(c, s, a);
    SubmitNextTracks(c, s, a);
    assert t.producer.highest != s.producer.highest;
    hide SubmitNext, DepthOf, Extrapolated, Settled;
    BeginSettled(e, c, t);
    SettledSizes(c, t);
  }

  // ------------------------------------------------------------------ when it is heard

  /** A turn that plays nothing and for which the decoder has nothing whole to offer sounds as one more packet of the
      receiver's own concealment, fading; one for which it has adds to the burst just the same. */
  lemma LossSounds(e: Environment, c: Settings, s: State)
    requires PacketSized(c, s) && !NextOutcome(e, c, s).Played?
    ensures var k, r := s.consumer, PlayNext(e, c, s).consumer;
            var calls := s.decoderCalls + CallsFor(NextOutcome(e, c, s))[..|CallsFor(NextOutcome(e, c, s))| - 1];
            && r.lossBurst == k.lossBurst + 1 && r.concealBurst == k.concealBurst + 1 && r.recoveryPending
            && (|e.conceal(calls)| != c.packetFrames ==>
                  var again := Again(e, c, k, true);
                  r.currentPacket == again.currentPacket && r.voice == again.voice)
            && (|e.conceal(calls)| == c.packetFrames ==> r.voice == k.voice.(realRun := 0))
  {
    var outcome := NextOutcome(e, c, s);
    var calls := s.decoderCalls + CallsFor(outcome)[..|CallsFor(outcome)| - 1];
    assert CallsFor(outcome)[..|CallsFor(outcome)| - 1] == if outcome.Lost? then [] else [Decode(outcome.payload)];
    assert s.decoderCalls + [] == s.decoderCalls;
    CoverSounds(e, c, s.consumer, calls);
    hide SlotOf, Extrapolate, Cover, TurnTaken, Again;
  }

  lemma CoverSounds(e: Environment, c: Settings, k: Consumer, calls: seq<DecoderCall>)
    ensures var r := Cover(e, c, k, calls);
            && r.lossBurst == k.lossBurst && r.concealBurst == k.concealBurst
            && (|e.conceal(calls)| != c.packetFrames ==>
                  r.currentPacket == Again(e, c, k, true).currentPacket && r.voice == Again(e, c, k, true).voice)
            && (|e.conceal(calls)| == c.packetFrames ==> r.voice == k.voice.(realRun := 0))
  {
    hide Extrapolated;
  }

  /** A packet of playback that takes no turn is one more packet of the receiver's own concealment: at full level as
      long as packets still come, fading once none has come for four packets. */
  lemma StretchSounds(e: Environment, c: Settings, s: State)
    requires Settled(c, s) && DepthOf(s) < LowDepth(s.depth.target)
    ensures var k, r := s.consumer, BeginPacket(e, c, s).consumer;
            var stalled := if s.producer.highest != k.previousHighest then 0 else Min(k.stalledPackets + 1, STALL_LIMIT);
            k.stalledPackets <= STALL_LIMIT ==>
              r == Again(e, c, k, stalled >= STALL_LIMIT).(previousHighest := s.producer.highest, stalledPackets := stalled)
  {
    hide Extrapolated;
    BeginSettled(e, c, s);
  }

  /** What is going on when a decoded packet comes: in a burst the sound of it, from where it was left; after any
      other splice the last period that was measured, from its start. */
  function GoingOn(c: Settings, k: Consumer, i: nat): Sample {
    var inside := k.concealBurst > 0;
    var period := if inside then k.voice.concealPeriod else k.voice.cachedPeriod;
    var sound := if period > 0 then Repeated(k.voice.history, period, if inside then k.voice.synthesisOffset + i else i)
                 else AtLevel(LastHeard(k.voice), 1.0 - Part(i, FadeFrames(c)));
    AtLevel(sound, Decayed(k.lossBurst))
  }

  /** After a splice the packet played rises out of what is going on. */
  lemma SpliceSounds(e: Environment, c: Settings, s: State, i: nat)
    requires PacketSized(c, s) && NextOutcome(e, c, s).Played? && i < FadeFrames(c)
    requires s.consumer.concealBurst > 0 || s.consumer.recoveryPending
    ensures var r := PlayNext(e, c, s).consumer;
            var decoded := e.decode(s.decoderCalls, NextOutcome(e, c, s).payload);
            && i < |r.currentPacket| && i < |decoded|
            && r.currentPacket[i] == CrossFaded(GoingOn(c, s.consumer, i), decoded[i], e.window(i))
  {
    PlayRecovers(e, c, s);
    RecoverBlends(e, c, s.consumer, e.decode(s.decoderCalls, NextOutcome(e, c, s).payload), i);
    hide PlayNext, NextOutcome, Recover, GoingOn, CrossFaded;
  }

  /** A trim is a splice: the packet played after it rises out of what was going on before it. */
  lemma TrimIsFaded(e: Environment, c: Settings, s: State, i: nat)
    requires Settled(c, s) && DepthOf(s) > HighDepth(s.depth.target) && i < FadeFrames(c)
    requires NextOutcome(e, c, Trim(e, c, s)).Played?
    ensures var t, r := Trim(e, c, s), BeginPacket(e, c, s).consumer;
            var decoded := e.decode(t.decoderCalls, NextOutcome(e, c, t).payload);
            && i < |r.currentPacket| && i < |decoded|
            && r.currentPacket[i] == CrossFaded(GoingOn(c, s.consumer, i), decoded[i], e.window(i))
  {
    var w := WatchArrivals(s);
    SettledSizes(c, s);
    WatchKeepsSize(c, s);
    DeepTrims(e, c, s);
    WatchKeepsVoice(s);
    hide BeginPacket, PlayNext, Trim, GoingOn, CrossFaded, WatchArrivals, Settled, DepthOf, AtCursorHolds, SlotOf, NextOutcome;
    TrimSplices(e, c, s);
    TrimSplices(e, c, w);
    SameNext(e, c, Trim(e, c, w), Trim(e, c, s));
    SpliceSounds(e, c, Trim(e, c, w), i);
    SameGoingOn(c, Trim(e, c, w).consumer, s.consumer, i);
  }

  lemma WatchKeepsVoice(s: State)
    ensures var w := WatchArrivals(s);
            && w.consumer.voice == s.consumer.voice && w.consumer.concealBurst == s.consumer.concealBurst
            && w.consumer.lossBurst == s.consumer.lossBurst
  {
  }

  lemma DeepTrims(e: Environment, c: Settings, s: State)
    requires Settled(c, s) && DepthOf(s) > HighDepth(s.depth.target)
    ensures PacketSized(c, s) && PacketSized(c, WatchArrivals(s))
    ensures BeginPacket(e, c, s) == PlayNext(e, c, Trim(e, c, WatchArrivals(s)))
  {
    BeginSettled(e, c, s);
    WatchOnly(c, s);
    hide PlayNext, Trim, WatchArrivals, BeginPacket, Distance;
  }

  lemma TrimSplices(e: Environment, c: Settings, s: State)
    requires PacketSized(c, s)
    ensures var t := Trim(e, c, s);
            && t.consumer.recoveryPending && t.consumer.voice == s.consumer.voice
            && t.consumer.concealBurst == s.consumer.concealBurst && t.consumer.lossBurst == s.consumer.lossBurst
            && t.slots == (if AtCursorHolds(c, s) then Release(s, SlotOf(c, s.consumer.playout)).slots else s.slots)
            && t.decoderCalls == s.decoderCalls
               + (if AtCursorHolds(c, s) then [Decode(s.slots[SlotOf(c, s.consumer.playout)].bytes)] else [])
            && t.consumer.playout == Plus(s.consumer.playout, 1)
  {
    assert s.decoderCalls + [] == s.decoderCalls;
    hide SlotOf, TrimOutcome;
  }

  predicate AtCursorHolds(c: Settings, s: State)
    requires PacketSized(c, s)
  {
    Holds(s.slots[SlotOf(c, s.consumer.playout)], s.consumer.playout)
  }

  lemma SameGoingOn(c: Settings, k: Consumer, r: Consumer, i: nat)
    requires k.voice == r.voice && k.concealBurst == r.concealBurst && k.lossBurst == r.lossBurst
    ensures GoingOn(c, k, i) == GoingOn(c, r, i)
  {
    hide Repeated, AtLevel, Decayed, Part, LastHeard;
  }

  lemma SameNext(e: Environment, c: Settings, s: State, r: State)
    requires PacketSized(c, s) && r.slots == s.slots && r.decoderCalls == s.decoderCalls
    requires r.consumer.playout == s.consumer.playout
    ensures NextOutcome(e, c, s) == NextOutcome(e, c, r)
  {
  }

  /** So is a start: the first packet rises out of the last period that was measured. */
  lemma StartIsFaded(e: Environment, c: Settings, s: State, i: nat)
    requires PacketSized(c, s) && CanPrime(s) && NextOutcome(e, c, Prime(s)).Played? && i < FadeFrames(c)
    ensures var p := Prime(s);
            var r := PlayNext(e, c, p).consumer;
            var decoded := e.decode(p.decoderCalls, NextOutcome(e, c, p).payload);
            && i < |r.currentPacket| && i < |decoded|
            && r.currentPacket[i] == CrossFaded(GoingOn(c, s.consumer.(concealBurst := 0), i), decoded[i], e.window(i))
  {
    SpliceSounds(e, c, Prime(s), i);
    SameGoingOn(c, Prime(s).consumer, s.consumer.(concealBurst := 0), i);
    hide PlayNext, GoingOn, CrossFaded, NextOutcome;
  }

  lemma PlayRecovers(e: Environment, c: Settings, s: State)
    requires PacketSized(c, s) && NextOutcome(e, c, s).Played?
    ensures var decoded := e.decode(s.decoderCalls, NextOutcome(e, c, s).payload);
            |decoded| == c.packetFrames
            && PlayNext(e, c, s).consumer.currentPacket == Recover(e, c, s.consumer, decoded).currentPacket
  {
    hide SlotOf, Recover, TurnTaken;
  }

  lemma RecoverBlends(e: Environment, c: Settings, k: Consumer, decoded: seq<Sample>, i: nat)
    requires |decoded| == c.packetFrames && i < FadeFrames(c) && (k.concealBurst > 0 || k.recoveryPending)
    ensures Recover(e, c, k, decoded).currentPacket[i] == CrossFaded(GoingOn(c, k, i), decoded[i], e.window(i))
  {
    hide CrossFaded, AtLevel, Repeated, Part, Decayed, Append;
    var v := if k.concealBurst == 0 then k.voice.(concealPeriod := k.voice.cachedPeriod, synthesisOffset := 0) else k.voice;
    assert Recover(e, c, k, decoded).currentPacket[i] == Blended(e, c, v, k.lossBurst, decoded, i);
    assert LastHeard(v) == LastHeard(k.voice);
  }

  /** The loss that sets the level is within the burst, and there is no burst when nothing plays. */
  predicate Levelled(k: Consumer) {
    k.lossBurst <= k.concealBurst && (!k.primed ==> k.concealBurst == 0)
  }

  lemma TurnLevels(e: Environment, c: Settings, s: State)
    requires PacketSized(c, s) && Levelled(s.consumer) && s.consumer.primed
    ensures var r := PlayNext(e, c, s).consumer;
            Levelled(r) && (NextOutcome(e, c, s).Played? ==> r.concealBurst == 0 && r.lossBurst == 0)
  {
    PlayConsumes(e, c, s);
    if !NextOutcome(e, c, s).Played? {
      LossSounds(e, c, s);
      hide PlayNext, Extrapolate, NextOutcome, SlotOf, CallsFor;
    } else {
      hide SlotOf, Blended, Append, TurnTaken;
    }
  }

  lemma RegulateLevels(e: Environment, c: Settings, s: State)
    requires PacketSized(c, s) && Levelled(s.consumer) && s.consumer.primed
    ensures Levelled(Regulate(e, c, s).consumer)
  {
    var w := WatchArrivals(s);
    WatchOnlyConsumer(s);
    hide WatchArrivals, PlayNext, SlotOf;
    if TooShallow(w) {
      hide Extrapolated;
    } else {
      if TooDeep(w) {
        TurnLevels(e, c, Trim(e, c, w));
      } else {
        TurnLevels(e, c, w);
      }
      hide TrimOutcome;
    }
  }

  lemma BeginLevels(e: Environment, c: Settings, s: State)
    requires PacketSized(c, s) && Levelled(s.consumer)
    ensures Levelled(BeginPacket(e, c, s).consumer)
  {
    hide Regulate;
    var o := Observe(s);
    if o.consumer.primed {
      RegulateLevels(e, c, o);
    } else if CanPrime(o) {
      RegulateLevels(e, c, Prime(o));
    }
  }

  lemma PullLevels(e: Environment, c: Settings, s: State, frames: nat)
    requires PacketSized(c, s) && Levelled(s.consumer)
    ensures Levelled(Pull(e, c, s, frames).state.consumer)
  {
    hide BeginPacket, Levelled, Silence, Pull, AtOffset;
    forall t: State | PacketSized(c, t) && Levelled(t.consumer) ensures Levelled(BeginPacket(e, c, t).consumer) {
      BeginLevels(e, c, t);
    }
    forall t: State, offset: nat | Levelled(t.consumer) && offset <= c.packetFrames
      ensures Levelled(AtOffset(t, offset).consumer)
    {
      OffsetLevels(t, offset);
    }
    forall t: State, n: nat | Levelled(t.consumer) ensures Levelled(Silence(t, n).consumer) {
      SilenceLevels(t, n);
    }
    PullKeeps(e, c, s, frames, (t: State) => Levelled(t.consumer));
  }

  lemma OffsetLevels(s: State, offset: nat)
    requires Levelled(s.consumer)
    ensures Levelled(AtOffset(s, offset).consumer)
  {
  }

  lemma SilenceLevels(s: State, n: nat)
    requires Levelled(s.consumer)
    ensures Levelled(Silence(s, n).consumer)
  {
  }

  lemma {:induction false} RunLevels(e: Environment, c: Settings, ops: seq<Op>)
    requires c.Valid()
    ensures Levelled(Run(e, c, Initial(c), ops).consumer)
    decreases ops
  {
    if ops != [] {
      var s, op := Run(e, c, Initial(c), ops[..|ops| - 1]), ops[|ops| - 1];
      RunLevels(e, c, ops[..|ops| - 1]);
      if op.Render? {
        PullLevels(e, c, s, op.frames);
      }
      hide Submit, Pull;
    }
  }

  /** In every run a packet of playback that plays a packet ends the burst, and what is lost next starts from full
      level again. */
  lemma PlayingRestoresTheLevel(e: Environment, c: Settings, ops: seq<Op>)
    requires c.Valid()
    ensures var s := Run(e, c, Initial(c), ops);
            s.consumer.primed && NextOutcome(e, c, s).Played? ==>
              PlayNext(e, c, s).consumer.lossBurst == PlayNext(e, c, s).consumer.concealBurst == 0
  {
    RunLevels(e, c, ops);
    var s := Run(e, c, Initial(c), ops);
    if s.consumer.primed {
      TurnLevels(e, c, s);
    }
    hide Run, PlayNext, NextOutcome;
  }
}
