/** Path finding between two homes: candidate pairs in priority order, probed until one answers. */
module IceChecklist {
  import opened StableSorting

  datatype Kind = Host | ServerReflexive | Relayed

  datatype Candidate = Candidate(address: string, port: nat, kind: Kind) {
    predicate Valid() { address != "" && port != 0 }
  }

  datatype PairState = Waiting | Probing | Succeeded | Failed

  datatype Pair = Pair(local: Candidate, remote: Candidate, state: PairState, probesSent: nat, firstProbe: nat, responded: nat)

  datatype Settings = Settings(probeInterval: nat, probesBeforeFailure: nat, overallTimeout: nat, maximumPairs: nat)

  function Weight(kind: Kind): nat {
    match kind
    case Host => 0
    case ServerReflexive => 100
    case Relayed => 200
  }

  /** Lower is better: a pair is only as good as its worse half. */
  function Priority(p: Pair): int {
    var l, r := Weight(p.local.kind), Weight(p.remote.kind);
    (if l < r then r else l) + l + r
  }

  /** `index` and `ordinal` say which pair was probed and how many probes it had been sent before. */
  datatype Probe = Probe(index: nat, ordinal: nat, time: nat)

  /** The agent, and every probe sent since the checks began. */
  datatype State = State(local: seq<Candidate>, remote: seq<Candidate>, pairs: seq<Pair>, startedAt: nat, started: bool,
                         probes: seq<Probe>)

  function Initial(): State { State([], [], [], 0, false, []) }

  // ---------------------------------------------------------------- the list

  function Added(candidates: seq<Candidate>, c: Candidate): seq<Candidate> {
    if !c.Valid() || c in candidates then candidates else candidates + [c]
  }

  function NewPair(local: Candidate, remote: Candidate): Pair { Pair(local, remote, Waiting, 0, 0, 0) }

  function Row(local: Candidate, remote: seq<Candidate>): seq<Pair> {
    seq(|remote|, (i: nat) requires i < |remote| => NewPair(local, remote[i]))
  }

  /** Every local candidate against every remote one, in listed order. */
  function Cross(local: seq<Candidate>, remote: seq<Candidate>): seq<Pair> {
    if local == [] then [] else Cross(local[..|local| - 1], remote) + Row(local[|local| - 1], remote)
  }

  function Take<T>(items: seq<T>, n: nat): seq<T> { if n < |items| then items[..n] else items }

  function BeginChecks(c: Settings, s: State, now: nat): State {
    s.(pairs := Sort(Take(Cross(s.local, s.remote), c.maximumPairs), Priority), startedAt := now, started := true,
       probes := [])
  }

  // ---------------------------------------------------------------- probing

  predicate Connected(pairs: seq<Pair>) {
    exists p :: p in pairs && p.state == Succeeded
  }

  const TICKS: nat := 0x1_0000_0000_0000_0000

  /** Unsigned 64-bit difference: a clock before the start wraps round. */
  function Elapsed(now: nat, startedAt: nat): int { (now - startedAt) % TICKS }

  predicate GivenUp(c: Settings, p: Pair) { p.state == Failed || p.probesSent >= c.probesBeforeFailure }

  predicate Exhausted(c: Settings, s: State, now: nat) {
    && s.started && !Connected(s.pairs)
    && (|| Elapsed(now, s.startedAt) >= c.overallTimeout
        || s.pairs == []
        || forall p | p in s.pairs :: GivenUp(c, p))
  }

  predicate Settled(p: Pair) { p.state == Succeeded || p.state == Failed }

  predicate TooSoon(c: Settings, p: Pair, now: nat) {
    p.probesSent != 0 && now < p.firstProbe + p.probesSent * c.probeInterval
  }

  function Probed(p: Pair, now: nat): Pair {
    p.(firstProbe := if p.probesSent == 0 then now else p.firstProbe, probesSent := p.probesSent + 1, state := Probing)
  }

  /** The list after a scan from a place on, and the place probed, or the end. */
  datatype Scanned = Scanned(pairs: seq<Pair>, probed: nat)

  function Scan(c: Settings, pairs: seq<Pair>, k: nat, now: nat): (r: Scanned)
    requires k <= |pairs|
    ensures |r.pairs| == |pairs| && k <= r.probed <= |pairs|
    decreases |pairs| - k
  {
    if k == |pairs| then Scanned(pairs, k)
    else if Settled(pairs[k]) then Scan(c, pairs, k + 1, now)
    else if pairs[k].probesSent >= c.probesBeforeFailure then Scan(c, pairs[k := pairs[k].(state := Failed)], k + 1, now)
    else if TooSoon(c, pairs[k], now) then Scan(c, pairs, k + 1, now)
    else Scanned(pairs[k := Probed(pairs[k], now)], k)
  }

  datatype Action = Nothing | SendProbe(to: Candidate, from: Candidate)

  datatype Outcome = Outcome(state: State, action: Action)

  function NextAction(c: Settings, s: State, now: nat): Outcome {
    if !s.started || Connected(s.pairs) || Exhausted(c, s, now) then Outcome(s, Nothing)
    else
      var r := Scan(c, s.pairs, 0, now);
      if r.probed == |r.pairs| then Outcome(s.(pairs := r.pairs), Nothing)
      else
        var p := r.pairs[r.probed];
        Outcome(s.(pairs := r.pairs, probes := s.probes + [Probe(r.probed, s.pairs[r.probed].probesSent, now)]),
                SendProbe(p.remote, p.local))
  }

  function Answered(p: Pair, remote: Candidate, now: nat): Pair {
    if p.remote != remote || Settled(p) then p else p.(state := Succeeded, responded := now)
  }

  function OnProbeResponse(s: State, remote: Candidate, now: nat): State {
    s.(pairs := seq(|s.pairs|, (i: nat) requires i < |s.pairs| => Answered(s.pairs[i], remote, now)))
  }

  // ---------------------------------------------------------------- runs

  datatype Op =
    | AddLocal(candidate: Candidate)
    | AddRemote(candidate: Candidate)
    | Begin(now: nat)
    | Act(now: nat)
    | Respond(remote: Candidate, now: nat)
    | Clear

  function Perform(c: Settings, s: State, op: Op): State {
    match op
    case AddLocal(candidate) => s.(local := Added(s.local, candidate))
    case AddRemote(candidate) => s.(remote := Added(s.remote, candidate))
    case Begin(now) => BeginChecks(c, s, now)
    case Act(now) => NextAction(c, s, now).state
    case Respond(remote, now) => OnProbeResponse(s, remote, now)
    case Clear => Initial()
  }

  function Run(c: Settings, s: State, ops: seq<Op>): State
    decreases |ops|
  {
    if ops == [] then s else Run(c, Perform(c, s, ops[0]), ops[1..])
  }

  function TotalProbes(pairs: seq<Pair>): nat {
    if pairs == [] then 0 else TotalProbes(pairs[..|pairs| - 1]) + pairs[|pairs| - 1].probesSent
  }

  /** Pairs are probed from the front of the list. */
  ghost predicate ProbedFirst(pairs: seq<Pair>) {
    forall i, j | 0 <= i < j < |pairs| :: pairs[j].probesSent > 0 ==> pairs[i].probesSent > 0
  }

  ghost predicate Limited(c: Settings, pairs: seq<Pair>) {
    forall i | 0 <= i < |pairs| ::
      && pairs[i].probesSent <= c.probesBeforeFailure
      && (pairs[i].state == Waiting ==> pairs[i].probesSent == 0)
      && (pairs[i].state == Failed ==> pairs[i].probesSent == c.probesBeforeFailure)
  }

  function Due(c: Settings, first: nat, ordinal: nat): nat { first + ordinal * c.probeInterval }

  /** Every probe kept its pair's cadence, and belongs to a different place in it. */
  ghost predicate OnTime(c: Settings, pairs: seq<Pair>, probes: seq<Probe>) {
    && (forall k | 0 <= k < |probes| ::
          && probes[k].index < |pairs| && probes[k].ordinal < pairs[probes[k].index].probesSent
          && probes[k].time >= Due(c, pairs[probes[k].index].firstProbe, probes[k].ordinal)
          && (probes[k].ordinal == 0 ==> probes[k].time == pairs[probes[k].index].firstProbe))
    && (forall k, l | 0 <= k < l < |probes| && probes[k].index == probes[l].index :: probes[k].ordinal < probes[l].ordinal)
  }

  ghost predicate Invariant(c: Settings, s: State) {
    && |s.pairs| <= c.maximumPairs && Sorted(s.pairs, Priority)
    && ProbedFirst(s.pairs) && Limited(c, s.pairs) && OnTime(c, s.pairs, s.probes)
    && |s.probes| == TotalProbes(s.pairs)
  }

  lemma {:induction false} Unprobed(pairs: seq<Pair>)
    requires forall p | p in pairs :: p.probesSent == 0
    ensures TotalProbes(pairs) == 0
  {
    if pairs != [] { Unprobed(pairs[..|pairs| - 1]); }
  }

  lemma {:induction false} CrossIsNew(local: seq<Candidate>, remote: seq<Candidate>)
    ensures forall p | p in Cross(local, remote) :: p == NewPair(p.local, p.remote)
  {
    if local != [] { CrossIsNew(local[..|local| - 1], remote); }
  }

  /** The checklist is a stable, priority-sorted permutation of the first pairs of the cross product, all
      new. */
  lemma ChecklistIsSorted(c: Settings, s: State, now: nat)
    ensures var pairs := BeginChecks(c, s, now).pairs;
            && Sorted(pairs, Priority)
            && multiset(pairs) == multiset(Take(Cross(s.local, s.remote), c.maximumPairs))
            && |pairs| <= c.maximumPairs
            && (forall k :: WithKey(pairs, Priority, k) == WithKey(Take(Cross(s.local, s.remote), c.maximumPairs), Priority, k))
            && (forall p | p in pairs :: p == NewPair(p.local, p.remote))
  {
    var listed := Take(Cross(s.local, s.remote), c.maximumPairs);
    SortSorts(listed, Priority);
    forall k ensures WithKey(Sort(listed, Priority), Priority, k) == WithKey(listed, Priority, k) {
      SortIsStable(listed, Priority, k);
    }
    CrossIsNew(s.local, s.remote);
    forall p | p in Sort(listed, Priority) ensures p in listed {
      assert p in multiset(Sort(listed, Priority));
    }
    assert |multiset(Sort(listed, Priority))| == |Sort(listed, Priority)|;
    assert |multiset(listed)| == |listed|;
  }

  lemma BeginKeepsInvariant(c: Settings, s: State, now: nat)
    ensures Invariant(c, BeginChecks(c, s, now))
  {
    ChecklistIsSorted(c, s, now);
    var pairs := BeginChecks(c, s, now).pairs;
    hide Cross, Sort, Take, WithKey;
    assert forall i | 0 <= i < |pairs| :: pairs[i] in pairs;
    Unprobed(pairs);
  }

  // ---------------------------------------------------------------- one scan

  /** A pair a scan passed over, before and after. */
  ghost predicate PassedOver(c: Settings, before: Pair, after: Pair) {
    after == before || (after == before.(state := Failed) && !Settled(before) && before.probesSent >= c.probesBeforeFailure)
  }

  lemma {:induction false} ScanFacts(c: Settings, pairs: seq<Pair>, k: nat, now: nat)
    requires k <= |pairs|
    ensures var r := Scan(c, pairs, k, now);
            && (forall i | 0 <= i < |pairs| && i != r.probed :: PassedOver(c, pairs[i], r.pairs[i]))
            && (forall i | k <= i < r.probed ::
                  Settled(pairs[i]) || pairs[i].probesSent >= c.probesBeforeFailure || TooSoon(c, pairs[i], now))
            && (r.probed < |pairs| ==>
                  && !Settled(pairs[r.probed]) && pairs[r.probed].probesSent < c.probesBeforeFailure
                  && !TooSoon(c, pairs[r.probed], now) && r.pairs[r.probed] == Probed(pairs[r.probed], now))
    decreases |pairs| - k
  {
    if k < |pairs| {
      hide TooSoon, Probed;
      if Settled(pairs[k]) {
        ScanFacts(c, pairs, k + 1, now);
      } else if pairs[k].probesSent >= c.probesBeforeFailure {
        ScanFacts(c, pairs[k := pairs[k].(state := Failed)], k + 1, now);
        ScanSkips(c, pairs[k := pairs[k].(state := Failed)], k + 1, now);
      } else if TooSoon(c, pairs[k], now) {
        ScanFacts(c, pairs, k + 1, now);
      }
    }
  }

  lemma {:induction false} ScanSkips(c: Settings, pairs: seq<Pair>, k: nat, now: nat)
    requires k <= |pairs|
    ensures forall i | 0 <= i < k :: Scan(c, pairs, k, now).pairs[i] == pairs[i]
    decreases |pairs| - k
  {
    if k < |pairs| {
      hide TooSoon, Probed;
      if Settled(pairs[k]) {
        ScanSkips(c, pairs, k + 1, now);
      } else if pairs[k].probesSent >= c.probesBeforeFailure {
        ScanSkips(c, pairs[k := pairs[k].(state := Failed)], k + 1, now);
      } else if TooSoon(c, pairs[k], now) {
        ScanSkips(c, pairs, k + 1, now);
      }
    }
  }

  /** The same candidates in the same places. */
  ghost predicate SamePlaces(a: seq<Pair>, b: seq<Pair>) {
    |a| == |b| && forall i | 0 <= i < |a| :: a[i].local == b[i].local && a[i].remote == b[i].remote
  }

  lemma SamePlacesSorted(a: seq<Pair>, b: seq<Pair>)
    requires SamePlaces(a, b) && Sorted(a, Priority)
    ensures Sorted(b, Priority)
  {
    forall i | 0 <= i < |a| ensures Priority(a[i]) == Priority(b[i]) {
    }
  }

  /** Probe counts agree except at one place, where there is one more. */
  ghost predicate OneMore(a: seq<Pair>, b: seq<Pair>, j: nat) {
    |a| == |b| && forall i | 0 <= i < |a| :: b[i].probesSent == a[i].probesSent + if i == j then 1 else 0
  }

  lemma {:induction false} TotalAdds(a: seq<Pair>, b: seq<Pair>, j: nat)
    requires OneMore(a, b, j)
    ensures TotalProbes(b) == TotalProbes(a) + if j < |a| then 1 else 0
  {
    if a != [] {
      TotalAdds(a[..|a| - 1], b[..|b| - 1], j);
    }
  }

  lemma ScanKeepsLimits(c: Settings, pairs: seq<Pair>, now: nat)
    requires Limited(c, pairs)
    ensures var r := Scan(c, pairs, 0, now);
            SamePlaces(pairs, r.pairs) && Limited(c, r.pairs) && OneMore(pairs, r.pairs, r.probed)
  {
    ScanFacts(c, pairs, 0, now);
    hide Scan, TooSoon;
  }

  lemma ScanKeepsFront(c: Settings, pairs: seq<Pair>, now: nat)
    requires Limited(c, pairs) && ProbedFirst(pairs) && !Connected(pairs)
    ensures ProbedFirst(Scan(c, pairs, 0, now).pairs)
  {
    ScanFacts(c, pairs, 0, now);
    ScanKeepsLimits(c, pairs, now);
    var r := Scan(c, pairs, 0, now);
    hide Scan, PassedOver, SamePlaces;
    forall i | 0 <= i < r.probed && r.probed < |pairs| ensures pairs[i].probesSent > 0 {
      assert pairs[i] in pairs;
    }
  }

  lemma ScanKeepsTime(c: Settings, pairs: seq<Pair>, probes: seq<Probe>, now: nat)
    requires OnTime(c, pairs, probes)
    ensures var r := Scan(c, pairs, 0, now);
            OnTime(c, r.pairs, if r.probed == |pairs| then probes
                               else probes + [Probe(r.probed, pairs[r.probed].probesSent, now)])
  {
    ScanFacts(c, pairs, 0, now);
    var r := Scan(c, pairs, 0, now);
    FirstDue(c, now);
    hide Scan, Due;
    if r.probed < |pairs| {
      var more := probes + [Probe(r.probed, pairs[r.probed].probesSent, now)];
      assert forall k | 0 <= k < |probes| :: more[k] == probes[k];
    }
  }

  lemma FirstDue(c: Settings, first: nat)
    ensures Due(c, first, 0) == first
  {
  }

  lemma ActKeepsInvariant(c: Settings, s: State, now: nat)
    requires Invariant(c, s)
    ensures Invariant(c, NextAction(c, s, now).state)
  {
    if s.started && !Connected(s.pairs) && !Exhausted(c, s, now) {
      ScanKeepsLimits(c, s.pairs, now);
      ScanKeepsFront(c, s.pairs, now);
      ScanKeepsTime(c, s.pairs, s.probes, now);
      var r := Scan(c, s.pairs, 0, now);
      SamePlacesSorted(s.pairs, r.pairs);
      TotalAdds(s.pairs, r.pairs, r.probed);
      hide Scan, OnTime, Limited, ProbedFirst, Connected, Exhausted, OneMore, Sorted;
    }
  }

  lemma ResponseKeepsPlaces(c: Settings, s: State, remote: Candidate, now: nat)
    requires Limited(c, s.pairs)
    ensures var r := OnProbeResponse(s, remote, now).pairs;
            && SamePlaces(s.pairs, r) && OneMore(s.pairs, r, |r|) && Limited(c, r)
            && forall i | 0 <= i < |r| :: r[i].firstProbe == s.pairs[i].firstProbe
  {
  }

  lemma SameProbesOnTime(c: Settings, a: seq<Pair>, b: seq<Pair>, probes: seq<Probe>)
    requires OneMore(a, b, |a|) && (forall i | 0 <= i < |a| :: b[i].firstProbe == a[i].firstProbe)
    requires OnTime(c, a, probes) && ProbedFirst(a)
    ensures OnTime(c, b, probes) && ProbedFirst(b)
  {
    hide Due;
  }

  lemma ResponseKeepsInvariant(c: Settings, s: State, remote: Candidate, now: nat)
    requires Invariant(c, s)
    ensures Invariant(c, OnProbeResponse(s, remote, now))
  {
    hide OnTime, Limited, ProbedFirst, Sorted, OneMore, Answered;
    var r := OnProbeResponse(s, remote, now).pairs;
    ResponseKeepsPlaces(c, s, remote, now);
    SamePlacesSorted(s.pairs, r);
    SameProbesOnTime(c, s.pairs, r, s.probes);
    TotalAdds(s.pairs, r, |r|);
  }

  lemma {:induction false} RunKeepsInvariant(c: Settings, s: State, ops: seq<Op>)
    requires Invariant(c, s)
    ensures Invariant(c, Run(c, s, ops))
    decreases |ops|
  {
    if ops != [] {
      StepKeepsInvariant(c, s, ops[0]);
      hide Invariant, Perform;
      RunKeepsInvariant(c, Perform(c, s, ops[0]), ops[1..]);
    }
  }

  lemma StepKeepsInvariant(c: Settings, s: State, op: Op)
    requires Invariant(c, s)
    ensures Invariant(c, Perform(c, s, op))
  {
    match op
    case Begin(now) => BeginKeepsInvariant(c, s, now); hide BeginChecks;
    case Act(now) => ActKeepsInvariant(c, s, now); hide NextAction;
    case Respond(remote, now) => ResponseKeepsInvariant(c, s, remote, now); hide OnProbeResponse;
    case _ =>
  }

  // ---------------------------------------------------------------- what runs guarantee

  lemma {:induction false} TotalBounded(c: Settings, pairs: seq<Pair>)
    requires Limited(c, pairs)
    ensures TotalProbes(pairs) <= |pairs| * c.probesBeforeFailure
  {
    if pairs != [] {
      TotalBounded(c, pairs[..|pairs| - 1]);
    }
  }

  /** Over any run: pairs are probed from the front of a sorted list, no pair's k-th retry is earlier than
      its first probe plus k intervals, retries of a pair are in order, and the number of probes sent is
      bounded by the pairs and the settings. */
  lemma ProbesAreBounded(c: Settings, ops: seq<Op>)
    ensures var s := Run(c, Initial(), ops);
            && Sorted(s.pairs, Priority) && ProbedFirst(s.pairs) && OnTime(c, s.pairs, s.probes)
            && |s.probes| <= |s.pairs| * c.probesBeforeFailure && |s.pairs| <= c.maximumPairs
  {
    RunKeepsInvariant(c, Initial(), ops);
    var s := Run(c, Initial(), ops);
    hide Run;
    TotalBounded(c, s.pairs);
  }

  /** Nothing is sent once a path is known. */
  lemma SilentOnceConnected(c: Settings, s: State, ops: seq<Op>)
    requires Connected(s.pairs) && forall op | op in ops :: op.Act? || op.Respond?
    ensures Connected(Run(c, s, ops).pairs) && Run(c, s, ops).probes == s.probes
    decreases |ops|
  {
    if ops != [] {
      assert ops[0] in ops;
      if ops[0].Respond? { ResponseConnects(s, ops[0].remote, ops[0].now); }
      SilentOnceConnected(c, Perform(c, s, ops[0]), ops[1..]);
    }
  }

  /** A response connects exactly when some pair to that candidate has not failed, however late it comes:
      an exhausted agent can still connect. */
  lemma ResponseConnects(s: State, remote: Candidate, now: nat)
    ensures Connected(OnProbeResponse(s, remote, now).pairs)
            <==> Connected(s.pairs) || exists p :: p in s.pairs && p.remote == remote && p.state != Failed
  {
    var r := OnProbeResponse(s, remote, now).pairs;
    if p :| p in s.pairs && (p.state == Succeeded || (p.remote == remote && p.state != Failed)) {
      var i :| 0 <= i < |s.pairs| && s.pairs[i] == p;
      assert r[i] in r && r[i].state == Succeeded;
    }
    if q :| q in r && q.state == Succeeded {
      var i :| 0 <= i < |r| && r[i] == q;
      assert s.pairs[i] in s.pairs;
    }
  }

  /** While there is something left to try, asking when nothing is too soon sends a probe. */
  lemma ActsWhenDue(c: Settings, s: State, now: nat)
    requires s.started && !Connected(s.pairs) && !Exhausted(c, s, now)
    requires forall p | p in s.pairs :: !TooSoon(c, p, now)
    ensures NextAction(c, s, now).action.SendProbe?
  {
    ScanFacts(c, s.pairs, 0, now);
    var p :| p in s.pairs && !GivenUp(c, p);
    var i :| 0 <= i < |s.pairs| && s.pairs[i] == p;
    hide Scan, TooSoon;
  }

  // ---------------------------------------------------------------- nomination

  /** The best of the pairs so far that answered: an earlier one wins ties. */
  function Nominated(pairs: seq<Pair>): seq<Pair> {
    if pairs == [] then []
    else
      var best, last := Nominated(pairs[..|pairs| - 1]), pairs[|pairs| - 1];
      if last.state == Succeeded && (best == [] || Priority(last) < Priority(best[0])) then [last] else best
  }

  function FirstSucceeded(pairs: seq<Pair>): seq<Pair> {
    if pairs == [] then [] else if pairs[0].state == Succeeded then [pairs[0]] else FirstSucceeded(pairs[1..])
  }

  lemma {:induction false} FirstAppends(pairs: seq<Pair>, last: Pair)
    ensures FirstSucceeded(pairs + [last]) ==
            if FirstSucceeded(pairs) != [] then FirstSucceeded(pairs) else if last.state == Succeeded then [last] else []
    ensures FirstSucceeded(pairs) != [] ==> FirstSucceeded(pairs)[0] in pairs
  {
    if pairs == [] {
      assert [last][1..] == [];
    } else {
      assert (pairs + [last])[1..] == pairs[1..] + [last];
      FirstAppends(pairs[1..], last);
    }
  }

  /** In a sorted list the nominated pair is simply the first that succeeded. */
  lemma {:induction false} NominatedIsFirstSucceeded(pairs: seq<Pair>)
    requires Sorted(pairs, Priority)
    ensures Nominated(pairs) == FirstSucceeded(pairs)
  {
    if pairs != [] {
      var front, last := pairs[..|pairs| - 1], pairs[|pairs| - 1];
      NominatedIsFirstSucceeded(front);
      FirstAppends(front, last);
      assert pairs == front + [last];
      hide Priority, FirstSucceeded;
    }
  }

  /** After any run the nominated pair is the first in the list that succeeded, and exists exactly when
      the agent is connected. */
  lemma NominationIsFirst(c: Settings, ops: seq<Op>)
    ensures var s := Run(c, Initial(), ops);
            Nominated(s.pairs) == FirstSucceeded(s.pairs) && (Nominated(s.pairs) != [] <==> Connected(s.pairs))
  {
    RunKeepsInvariant(c, Initial(), ops);
    var s := Run(c, Initial(), ops);
    hide Run;
    NominatedIsFirstSucceeded(s.pairs);
    FirstFinds(s.pairs);
  }

  lemma {:induction false} FirstFinds(pairs: seq<Pair>)
    ensures FirstSucceeded(pairs) != [] <==> Connected(pairs)
  {
    if pairs != [] {
      FirstFinds(pairs[1..]);
      assert pairs == [pairs[0]] + pairs[1..];
      assert pairs[0] in pairs;
    }
  }
}
