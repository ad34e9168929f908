/** What the path finder's list holds and when it acts, responds and gives up. */
module IceLaws {
  import opened IceChecklist
  import opened StableSorting

  // ---------------------------------------------------------------- priority

  /** From the best kind of address to the worst. */
  function Rank(kind: Kind): nat {
    match kind
    case Host => 0
    case ServerReflexive => 1
    case Relayed => 2
  }

  function Worse(p: Pair): nat {
    if Rank(p.local.kind) < Rank(p.remote.kind) then Rank(p.remote.kind) else Rank(p.local.kind)
  }

  function Better(p: Pair): nat {
    if Rank(p.local.kind) < Rank(p.remote.kind) then Rank(p.local.kind) else Rank(p.remote.kind)
  }

  /** A pair comes before another if its worse half is better, or that is equal and its better half is. So two hosts
      come first, and whatever goes through a relay comes after all that does not. */
  lemma WorseHalfDecides(p: Pair, q: Pair)
    ensures Priority(p) < Priority(q) <==> Worse(p) < Worse(q) || (Worse(p) == Worse(q) && Better(p) < Better(q))
  {
  }

  // ---------------------------------------------------------------- candidates

  ghost predicate Listed(candidates: seq<Candidate>) {
    && (forall i | 0 <= i < |candidates| :: candidates[i].address != "" && candidates[i].port != 0)
    && (forall i, j | 0 <= i < j < |candidates| :: candidates[i] != candidates[j])
  }

  /** A candidate joins the end of its list if it has an address and a port and is not there yet. */
  lemma CandidateIsListedOnce(candidates: seq<Candidate>, c: Candidate)
    requires Listed(candidates)
    ensures var r := Added(candidates, c);
            && Listed(r) && candidates <= r <= candidates + [c]
            && (c in r <==> c.address != "" && c.port != 0)
  {
    if c in candidates {
      var i :| 0 <= i < |candidates| && candidates[i] == c;
      assert candidates <= candidates + [c];
    }
  }

  /** Over every run both lists hold valid candidates, each once. */
  lemma {:induction false} CandidatesStayListed(c: Settings, s: State, ops: seq<Op>)
    requires Listed(s.local) && Listed(s.remote)
    ensures Listed(Run(c, s, ops).local) && Listed(Run(c, s, ops).remote)
    decreases |ops|
  {
    if ops != [] {
      match ops[0] {
        case AddLocal(candidate) => CandidateIsListedOnce(s.local, candidate);
        case AddRemote(candidate) => CandidateIsListedOnce(s.remote, candidate);
        case _ =>
      }
      assert Listed(Initial().local);
      hide Listed, BeginChecks, OnProbeResponse, Scan;
      CandidatesStayListed(c, Perform(c, s, ops[0]), ops[1..]);
    }
  }

  // ---------------------------------------------------------------- the list

  lemma {:induction false} CrossSize(local: seq<Candidate>, remote: seq<Candidate>)
    ensures |Cross(local, remote)| == |local| * |remote|
  {
    if local != [] {
      CrossSize(local[..|local| - 1], remote);
      assert (|local| - 1) * |remote| + |remote| == |local| * |remote|;
    }
  }

  lemma {:induction false} CrossPlaces(local: seq<Candidate>, remote: seq<Candidate>, i: nat, j: nat)
    requires i < |local| && j < |remote|
    ensures i * |remote| + j < |Cross(local, remote)|
    ensures Cross(local, remote)[i * |remote| + j] == NewPair(local[i], remote[j])
    decreases |local|
  {
    var last := |local| - 1;
    CrossSize(local[..last], remote);
    CrossSize(local, remote);
    if i < last {
      CrossPlaces(local[..last], remote, i, j);
    }
  }

  lemma ListHoldsTheFirst(c: Settings, s: State, now: nat, p: Pair)
    ensures p in BeginChecks(c, s, now).pairs <==> p in Take(Cross(s.local, s.remote), c.maximumPairs)
  {
    ChecklistIsSorted(c, s, now);
    var pairs, kept := BeginChecks(c, s, now).pairs, Take(Cross(s.local, s.remote), c.maximumPairs);
    hide BeginChecks, Take, Cross, WithKey;
    assert p in pairs <==> p in multiset(pairs);
    assert p in kept <==> p in multiset(kept);
  }

  /** Every local candidate is paired with every remote one, locals first, as far as the list is allowed to grow. The
      cut is made before the sorting: what is left out is what was listed last, however good it is. */
  lemma PairsAreTheFirstListed(c: Settings, s: State, now: nat, i: nat, j: nat)
    requires Listed(s.local) && Listed(s.remote) && i < |s.local| && j < |s.remote|
    ensures NewPair(s.local[i], s.remote[j]) in BeginChecks(c, s, now).pairs <==> i * |s.remote| + j < c.maximumPairs
  {
    var all, place := Cross(s.local, s.remote), i * |s.remote| + j;
    CrossPlaces(s.local, s.remote, i, j);
    ListHoldsTheFirst(c, s, now, all[place]);
    forall k | 0 <= k < |all| && k != place ensures all[k] != all[place] {
      if k < place {
        CrossIsInjective(s.local, s.remote, k, place);
      } else {
        CrossIsInjective(s.local, s.remote, place, k);
      }
    }
    hide Cross, BeginChecks, Listed;
    var kept := Take(all, c.maximumPairs);
    assert forall k | 0 <= k < |kept| :: kept[k] == all[k];
    if place < c.maximumPairs {
      assert kept[place] == all[place];
    }
  }

  lemma CrossIsInjective(local: seq<Candidate>, remote: seq<Candidate>, k: nat, m: nat)
    requires Listed(local) && Listed(remote) && k < m < |Cross(local, remote)|
    ensures Cross(local, remote)[k] != Cross(local, remote)[m]
  {
    var a, x := PlaceOf(local, remote, k);
    var b, y := PlaceOf(local, remote, m);
    hide Cross;
    if local[a] == local[b] && remote[x] == remote[y] {
      SamePlace(local, a, b);
      SamePlace(remote, x, y);
    }
  }

  lemma PlaceOf(local: seq<Candidate>, remote: seq<Candidate>, k: nat) returns (i: nat, j: nat)
    requires k < |Cross(local, remote)|
    ensures i < |local| && j < |remote| && k == i * |remote| + j
    ensures Cross(local, remote)[k] == NewPair(local[i], remote[j])
  {
    CrossSize(local, remote);
    Divides(k, |remote|, |local|);
    i, j := k / |remote|, k % |remote|;
    CrossPlaces(local, remote, i, j);
  }

  lemma SamePlace(candidates: seq<Candidate>, i: nat, j: nat)
    requires Listed(candidates) && i < |candidates| && j < |candidates| && candidates[i] == candidates[j]
    ensures i == j
  {
  }

  lemma Divides(k: nat, n: nat, rows: nat)
    requires k < rows * n
    ensures n > 0 && k / n < rows && k % n < n && k / n * n + k % n == k
  {
    assert n > 0;
    Grows(k / n, rows, n);
  }

  lemma Grows(a: nat, b: nat, n: nat)
    ensures a >= b ==> a * n >= b * n
  {
    if a >= b {
      assert a * n - b * n == (a - b) * n;
    }
  }

  /** So the pair worth most can be missing: two hosts, listed after as many others as the list may hold. */
  lemma BestPairMayBeLeftOut(c: Settings, relay: Candidate, host: Candidate, peer: Candidate, now: nat)
    requires relay.Valid() && host.Valid() && peer.Valid() && relay.kind == Relayed && host.kind == peer.kind == Host
    requires c.maximumPairs == 1
    ensures var ops := [AddLocal(relay), AddLocal(host), AddRemote(peer), Begin(now)];
            var pairs := Run(c, Initial(), ops).pairs;
            pairs == [NewPair(relay, peer)] && Priority(NewPair(host, peer)) < Priority(NewPair(relay, peer))
  {
    OneListed(c, relay, host, peer, now);
    ThreeAdded(c, relay, host, peer);
    hide BeginChecks, Run;
    RunFour(c, AddLocal(relay), AddLocal(host), AddRemote(peer), Begin(now));
  }

  lemma ThreeAdded(c: Settings, a: Candidate, b: Candidate, peer: Candidate)
    requires a.Valid() && b.Valid() && peer.Valid() && a != b
    ensures Perform(c, Perform(c, Perform(c, Initial(), AddLocal(a)), AddLocal(b)), AddRemote(peer))
            == State([a, b], [peer], [], 0, false, [])
  {
    assert [] + [a] == [a] && [a] + [b] == [a, b] && [] + [peer] == [peer];
  }

  lemma OneListed(c: Settings, first: Candidate, second: Candidate, peer: Candidate, now: nat)
    requires c.maximumPairs == 1
    ensures BeginChecks(c, State([first, second], [peer], [], 0, false, []), now).pairs == [NewPair(first, peer)]
  {
    CrossSize([first, second], [peer]);
    CrossPlaces([first, second], [peer], 0, 0);
    hide Sort, Cross;
    assert Take(Cross([first, second], [peer]), 1) == [NewPair(first, peer)];
    SortOne(NewPair(first, peer));
  }

  lemma SortOne(p: Pair)
    ensures Sort([p], Priority) == [p]
  {
    SortSorts([p], Priority);
    var r := Sort([p], Priority);
    assert |multiset(r)| == |r| == 1 && r[0] in multiset(r);
  }

  lemma RunFour(c: Settings, a: Op, b: Op, d: Op, e: Op)
    ensures Run(c, Initial(), [a, b, d, e])
            == Perform(c, Perform(c, Perform(c, Perform(c, Initial(), a), b), d), e)
  {
    hide Perform;
    var s1 := Perform(c, Initial(), a);
    var s2 := Perform(c, s1, b);
    var s3 := Perform(c, s2, d);
    RunOne(c, Initial(), a, [b, d, e]);
    RunOne(c, s1, b, [d, e]);
    RunOne(c, s2, d, [e]);
    RunOne(c, s3, e, []);
  }

  lemma RunOne(c: Settings, s: State, op: Op, rest: seq<Op>)
    ensures Run(c, s, [op] + rest) == Run(c, Perform(c, s, op), rest)
  {
    assert ([op] + rest)[1..] == rest;
    hide Perform;
  }

  /** Checks begin at the clock reading given, with no probe sent and the candidates as they were. */
  lemma BeginningStarts(c: Settings, s: State, now: nat)
    ensures var r := BeginChecks(c, s, now);
            && r.started && r.startedAt == now && r.probes == [] && r.local == s.local && r.remote == s.remote
    ensures !Initial().started && Initial().local == Initial().remote == []
    ensures !Exhausted(c, Initial(), now) && NextAction(c, Initial(), now) == Outcome(Initial(), Nothing)
  {
    hide Sort, Cross, Scan;
  }

  // ---------------------------------------------------------------- acting

  /** Still open, with a probe left, and its time has come: at once for the first probe, and for each further one a
      whole number of intervals after the first. */
  predicate Ready(c: Settings, p: Pair, now: nat) {
    && p.state != Succeeded && p.state != Failed && p.probesSent < c.probesBeforeFailure
    && (p.probesSent == 0 || now >= p.firstProbe + p.probesSent * c.probeInterval)
  }

  ghost predicate Running(c: Settings, s: State, now: nat) {
    s.started && !Connected(s.pairs) && !Exhausted(c, s, now)
  }

  /** A pair that has had all its probes fails when a scan comes by it. */
  function Skipped(c: Settings, p: Pair): Pair {
    if p.state != Succeeded && p.state != Failed && p.probesSent >= c.probesBeforeFailure then p.(state := Failed) else p
  }

  lemma {:induction false} ScanSkipsExactly(c: Settings, pairs: seq<Pair>, k: nat, now: nat)
    requires k <= |pairs|
    ensures var r := Scan(c, pairs, k, now);
            && (forall i | k <= i < r.probed :: r.pairs[i] == Skipped(c, pairs[i]))
            && (forall i | r.probed < i < |pairs| :: r.pairs[i] == pairs[i])
    decreases |pairs| - k
  {
    ScanSkips(c, pairs, k, now);
    if k < |pairs| {
      hide TooSoon, Probed;
      if Settled(pairs[k]) {
        ScanSkipsExactly(c, pairs, k + 1, now);
        ScanSkips(c, pairs, k + 1, now);
      } else if pairs[k].probesSent >= c.probesBeforeFailure {
        var failed := pairs[k := pairs[k].(state := Failed)];
        ScanSkipsExactly(c, failed, k + 1, now);
        ScanSkips(c, failed, k + 1, now);
      } else if TooSoon(c, pairs[k], now) {
        ScanSkipsExactly(c, pairs, k + 1, now);
        ScanSkips(c, pairs, k + 1, now);
      }
    }
  }

  /** While checks run, what is asked for next is a probe of the first pair in the list that is ready, from its local
      end to its remote one; that pair is then being probed, one probe further, from now on if it is the first. Nothing
      is sent if none is ready. Pairs passed over on the way that have had all their probes fail, and that is all that
      changes; if checks are not running, nothing does. */
  lemma FirstReadyPairIsProbed(c: Settings, s: State, now: nat)
    ensures var r := NextAction(c, s, now);
            && (!Running(c, s, now) ==> r == Outcome(s, Nothing))
            && (r.action.SendProbe? <==> Running(c, s, now) && exists p :: p in s.pairs && Ready(c, p, now))
            && (r.action.SendProbe? ==>
                  exists k :: && 0 <= k < |s.pairs| == |r.state.pairs| && Ready(c, s.pairs[k], now)
                              && (forall i | 0 <= i < k :: !Ready(c, s.pairs[i], now))
                              && r.action == SendProbe(s.pairs[k].remote, s.pairs[k].local)
                              && r.state.probes == s.probes + [Probe(k, s.pairs[k].probesSent, now)]
                              && r.state.pairs[k] == s.pairs[k].(
                                   state := Probing, probesSent := s.pairs[k].probesSent + 1,
                                   firstProbe := if s.pairs[k].probesSent == 0 then now else s.pairs[k].firstProbe)
                              && (forall i | 0 <= i < k :: r.state.pairs[i] == Skipped(c, s.pairs[i]))
                              && (forall i | k < i < |s.pairs| :: r.state.pairs[i] == s.pairs[i]))
            && (r.action.Nothing? && Running(c, s, now) ==>
                  && |r.state.pairs| == |s.pairs| && r.state == s.(pairs := r.state.pairs)
                  && forall i | 0 <= i < |s.pairs| :: r.state.pairs[i] == Skipped(c, s.pairs[i]))
  {
    ScanFacts(c, s.pairs, 0, now);
    ScanSkipsExactly(c, s.pairs, 0, now);
    var r := Scan(c, s.pairs, 0, now);
    hide Scan, Exhausted, Connected, PassedOver, Skipped;
    if Running(c, s, now) && r.probed == |s.pairs| {
      forall p | p in s.pairs ensures !Ready(c, p, now) {
        var i :| 0 <= i < |s.pairs| && s.pairs[i] == p;
      }
    } else if Running(c, s, now) {
      assert Ready(c, s.pairs[r.probed], now);
    }
  }

  /** An answer makes every open pair to that remote candidate succeed, at the time it came, and touches no other. */
  lemma AnswerCountsForItsPairs(s: State, remote: Candidate, now: nat)
    ensures var r := OnProbeResponse(s, remote, now);
            && |r.pairs| == |s.pairs| && r == s.(pairs := r.pairs)
            && forall i | 0 <= i < |s.pairs| ::
                 var before, after := s.pairs[i], r.pairs[i];
                 if before.remote == remote && (before.state == Waiting || before.state == Probing)
                 then after == before.(state := Succeeded, responded := now)
                 else after == before
  {
  }

  // ---------------------------------------------------------------- giving up

  /** Checks have failed once the time is up, or there was nothing to check, or every pair had all its probes, and
      none answered. */
  lemma ExhaustedExactly(c: Settings, s: State, now: nat)
    requires s.startedAt <= now < s.startedAt + 0x1_0000_0000_0000_0000
    ensures Exhausted(c, s, now) <==>
            && s.started && (forall p | p in s.pairs :: p.state != Succeeded)
            && (now - s.startedAt >= c.overallTimeout
                || (forall p | p in s.pairs :: p.state == Failed || p.probesSent >= c.probesBeforeFailure))
  {
    assert Elapsed(now, s.startedAt) == now - s.startedAt;
  }

  /** Only asking and waiting: the clock goes on within its range. */
  ghost predicate Waits(s: State, since: nat, ops: seq<Op>) {
    && (forall i | 0 <= i < |ops| :: ops[i].Act?)
    && (forall i | 0 <= i < |ops| :: since <= ops[i].now < s.startedAt + TICKS)
  }

  /** Once they have failed they stay so until a late answer or a new beginning: nothing is sent and nothing changes. */
  lemma {:induction false} ExhaustionLasts(c: Settings, s: State, since: nat, ops: seq<Op>)
    requires s.startedAt <= since < s.startedAt + TICKS && Exhausted(c, s, since) && Waits(s, since, ops)
    ensures Run(c, s, ops) == s
    decreases |ops|
  {
    if ops != [] {
      LaterStillExhausted(c, s, since, ops[0].now);
      hide Exhausted;
      assert Perform(c, s, ops[0]) == s;
      ExhaustionLasts(c, s, since, ops[1..]);
    }
  }

  lemma LaterStillExhausted(c: Settings, s: State, since: nat, now: nat)
    requires s.startedAt <= since <= now < s.startedAt + TICKS && Exhausted(c, s, since)
    ensures Exhausted(c, s, now)
  {
    ExhaustedExactly(c, s, since);
    ExhaustedExactly(c, s, now);
  }
}
