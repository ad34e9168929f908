/** How the jitter buffer plays out over time: the size of the rendering request does not matter,
    the depth settles on the target, and once settled the buffer is a lossless queue. */
module ReceiverPlayout {
  import opened Bounds
  import opened CircularSequence
  import opened Samples
  import opened ReceiverModel
  import opened ReceiverIntegrity

  // ------------------------------------------- the request size does not matter

  /** The claim of `PullSplits` for one state and one split. */
  ghost predicate SplitsAt(e: Environment, c: Settings, s: State, n: nat, m: nat)
    requires PacketSized(c, s)
  {
    var first := Pull(e, c, s, n);
    var second := Pull(e, c, first.state, m);
    Pull(e, c, s, n + m) == Pulled(second.state, first.samples + second.samples, first.live + second.live)
  }

  /** One request for `n + m` frames renders what `n` and then `m` would, leaves the same state
      and counts the same live frames, across packet boundaries, failed priming and resyncs. */
  lemma {:induction false} PullSplits(e: Environment, c: Settings, s: State, n: nat, m: nat)
    requires PacketSized(c, s)
    ensures SplitsAt(e, c, s, n, m)
    decreases n
  {
    hide SplitsAt, Pull, CanBegin, BeginPacket, Ready, Window;
    if n == 0 || m == 0 {
      EmptySplits(e, c, s, n, m);
    } else if s.consumer.currentOffset >= c.packetFrames && !CanBegin(s) {
      SilenceSplits(e, c, s, n, m);
    } else {
      var ready := Ready(e, c, s);
      var left := c.packetFrames - ready.consumer.currentOffset;
      if left <= n {
        PullSplits(e, c, Advance(ready, left), n - left, m);
        NextPacketSplits(e, c, s, n, m);
      } else {
        PacketSplits(e, c, s, n, m);
      }
    }
  }

  lemma EmptySplits(e: Environment, c: Settings, s: State, n: nat, m: nat)
    requires PacketSized(c, s) && (n == 0 || m == 0)
    ensures SplitsAt(e, c, s, n, m)
  {
    hide Pull;
    PullStops(e, c, s, n);
    var first := Pull(e, c, s, n);
    PullStops(e, c, first.state, m);
    assert [] + Pull(e, c, s, m).samples == Pull(e, c, s, m).samples;
    assert first.samples + [] == first.samples;
  }

  /** If the first request finishes the current packet, both sides go on from the next one. */
  lemma NextPacketSplits(e: Environment, c: Settings, s: State, n: nat, m: nat)
    requires PacketSized(c, s) && n > 0 && m > 0
    requires s.consumer.currentOffset < c.packetFrames || CanBegin(s)
    requires var ready := Ready(e, c, s);
             var left := c.packetFrames - ready.consumer.currentOffset;
             left <= n && SplitsAt(e, c, Advance(ready, left), n - left, m)
    ensures SplitsAt(e, c, s, n, m)
  {
    hide Pull, CanBegin, BeginPacket, Ready, Window;
    PullUnfold(e, c, s, n);
    PullUnfold(e, c, s, n + m);
    var left := c.packetFrames - Ready(e, c, s).consumer.currentOffset;
    assert n + m - left == (n - left) + m;
    var rest := Advance(Ready(e, c, s), left);
    var head := Window(Ready(e, c, s), left);
    var first := Pull(e, c, rest, n - left);
    var second := Pull(e, c, first.state, m);
    assert head + (first.samples + second.samples) == (head + first.samples) + second.samples;
  }

  lemma SilenceSplits(e: Environment, c: Settings, s: State, n: nat, m: nat)
    requires PacketSized(c, s) && n > 0 && m > 0
    requires s.consumer.currentOffset >= c.packetFrames && !CanBegin(s)
    ensures SplitsAt(e, c, s, n, m)
  {
    var stopped := BeginPacket(e, c, s);
    assert stopped == Observe(s);
    var quiet := Silence(stopped, n);
    assert PacketSized(c, quiet) && Observe(quiet) == quiet && !CanBegin(quiet) && BeginPacket(e, c, quiet) == quiet;
    hide Pull, CanBegin, BeginPacket;
    PullStops(e, c, s, n);
    PullStops(e, c, s, n + m);
    PullStops(e, c, quiet, m);
    assert Zeros(n) + Zeros(m) == Zeros(n + m);
    assert stopped.consumer.voice.history + Zeros(n) + Zeros(m) == stopped.consumer.voice.history + Zeros(n + m);
    assert Silence(quiet, m) == Silence(stopped, n + m);
  }

  /** Splitting a request inside the current packet. */
  lemma PacketSplits(e: Environment, c: Settings, s: State, n: nat, m: nat)
    requires PacketSized(c, s) && n > 0 && m > 0
    requires s.consumer.currentOffset < c.packetFrames || CanBegin(s)
    requires Ready(e, c, s).consumer.currentOffset + n < c.packetFrames
    ensures SplitsAt(e, c, s, n, m)
  {
    hide Pull, CanBegin, BeginPacket, Ready, Window;
    var ready := Ready(e, c, s);
    PullUnfold(e, c, s, n);
    PullUnfold(e, c, s, n + m);
    var part := Advance(ready, n);
    PullStops(e, c, part, 0);
    var chunk := Chunk(e, c, s, n + m);
    var rest := Pull(e, c, Advance(ready, chunk), n + m - chunk);
    ResumePacket(e, c, ready, n, m);
    WindowSplits(ready, n, chunk - n, rest.samples);
  }

  lemma WindowSplits(s: State, n: nat, k: nat, rest: seq<Sample>)
    requires s.consumer.currentOffset + n + k <= |s.consumer.currentPacket|
    ensures Window(s, n) + [] == Window(s, n)
    ensures Window(s, n + k) + rest == (Window(s, n) + []) + (Window(Advance(s, n), k) + rest)
  {
    assert Window(s, n + k) == Window(s, n) + Window(Advance(s, n), k);
  }

  /** A request that starts inside a packet goes on from where the last one stopped. */
  lemma ResumePacket(e: Environment, c: Settings, ready: State, n: nat, m: nat)
    requires PacketSized(c, ready) && m > 0
    requires ready.consumer.currentOffset + n < c.packetFrames
    ensures var part := Advance(ready, n);
            var chunk := Min(n + m, c.packetFrames - ready.consumer.currentOffset);
            var rest := Pull(e, c, Advance(ready, chunk), n + m - chunk);
            Pull(e, c, part, m) == Pulled(rest.state, Window(part, chunk - n) + rest.samples, chunk - n + rest.live)
  {
    hide Pull, CanBegin, BeginPacket, Window;
    var part := Advance(ready, n);
    PullUnfold(e, c, part, m);
    assert Ready(e, c, part) == part;
    var chunk := Min(n + m, c.packetFrames - ready.consumer.currentOffset);
    assert Advance(part, chunk - n) == Advance(ready, chunk);
    assert m - (chunk - n) == n + m - chunk;
  }

  // ------------------------------------------- one packet at a time

  /** With the current packet used up, a request for one packet's worth is exactly the next packet of playback. */
  lemma PullsOnePacket(e: Environment, c: Settings, s: State)
    requires PacketSized(c, s) && s.consumer.currentOffset >= c.packetFrames && CanBegin(s)
    ensures Pull(e, c, s, c.packetFrames)
            == Pulled(AtOffset(BeginPacket(e, c, s), c.packetFrames), BeginPacket(e, c, s).consumer.currentPacket,
                      c.packetFrames)
  {
    hide BeginPacket, CanBegin;
    PullUnfold(e, c, s, c.packetFrames);
    var ready := Ready(e, c, s);
    PullStops(e, c, Advance(ready, c.packetFrames), 0);
    hide Pull;
    assert Window(ready, c.packetFrames) == ready.consumer.currentPacket;
  }

  /** With the current packet used up and none to begin, a request is silence, none of it live, which enters
      the history and is counted. */
  lemma PullsSilence(e: Environment, c: Settings, s: State, frames: nat)
    requires PacketSized(c, s) && s.consumer.currentOffset >= c.packetFrames && !CanBegin(s)
    ensures var p := Pull(e, c, s, frames);
            && |p.samples| == frames && (forall i | 0 <= i < frames :: p.samples[i] == 0.0) && p.live == 0
            && p.state.slots == s.slots && p.state.ledger == s.ledger && p.state.decoderCalls == s.decoderCalls
            && p.state.counters == s.counters.(silentFrames := s.counters.silentFrames + frames)
            && p.state.consumer.voice.history == s.consumer.voice.history + Zeros(frames)
  {
  }
}
