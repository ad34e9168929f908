/** One frame of a routing pass: what a list of routes means, and why one in-place pass computes it. */
module RouteMixing {
  import opened Samples
  import opened StableSorting

  datatype Port = Port(bus: nat, channel: nat)
  datatype Route = Route(source: Port, destination: Port, gain: real)

  /** One sample for every port. */
  type Levels = map<Port, Float>

  /** What a source sample adds: a non-finite one counts as silence. */
  function Contribution(sample: Float, gain: real): real {
    match sample
    case Finite(value) => value * gain
    case NotFinite => 0.0
  }

  function Mixed(destination: Float, source: Float, gain: real): Float {
    match destination
    case Finite(value) => Finite(value + Contribution(source, gain))
    case NotFinite => Finite(0.0)
  }

  ghost predicate Connects(levels: Levels, routes: seq<Route>) {
    forall r | r in routes :: r.source in levels && r.destination in levels
  }

  ghost function Apply(levels: Levels, r: Route): Levels
    requires r.source in levels && r.destination in levels
  {
    levels[r.destination := Mixed(levels[r.destination], levels[r.source], r.gain)]
  }

  /** The pass: every route mixed in place, in the listed order. */
  ghost function Pass(levels: Levels, routes: seq<Route>): (after: Levels)
    requires Connects(levels, routes)
    ensures after.Keys == levels.Keys
    decreases |routes|
  {
    if routes == [] then levels else Pass(Apply(levels, routes[0]), routes[1..])
  }

  /** No route writes a bus that an earlier route, or the route itself, has already read. */
  ghost predicate SourcesFirst(routes: seq<Route>) {
    forall i, j | 0 <= i <= j < |routes| :: routes[j].destination.bus != routes[i].source.bus
  }

  /** What one route delivers to a port. */
  ghost function Delivered(levels: Levels, r: Route, port: Port): real
    requires r.source in levels
  {
    if r.destination == port then Contribution(levels[r.source], r.gain) else 0.0
  }

  /** What arrives at a port when every source has its final level. */
  ghost function Arriving(levels: Levels, routes: seq<Route>, port: Port): real
    requires Connects(levels, routes)
    decreases |routes|
  {
    if routes == [] then 0.0
    else
      Delivered(levels, routes[0], port)
      + Arriving(levels, routes[1..], port)
  }

  ghost predicate Fed(routes: seq<Route>, port: Port) {
    exists r | r in routes :: r.destination == port
  }

  /** The meaning of a graph: each level is what was injected plus what arrives from final levels. */
  ghost predicate Solves(injected: Levels, routes: seq<Route>, final: Levels)
    requires Connects(injected, routes)
  {
    && final.Keys == injected.Keys
    && (forall p | p in injected && injected[p].Finite? ::
          final[p] == Finite(injected[p].value + Arriving(final, routes, p)))
  }

  lemma {:induction false} PassAppends(levels: Levels, routes: seq<Route>, last: Route)
    requires Connects(levels, routes) && last.source in levels && last.destination in levels
    ensures Connects(levels, routes + [last])
    ensures Pass(levels, routes + [last]) == Apply(Pass(levels, routes), last)
    decreases |routes|
  {
    if routes == [] {
      assert [last][1..] == [];
    } else {
      assert (routes + [last])[1..] == routes[1..] + [last];
      PassAppends(Apply(levels, routes[0]), routes[1..], last);
    }
  }

  lemma {:induction false} UnfedUntouched(levels: Levels, routes: seq<Route>, port: Port)
    requires Connects(levels, routes) && port in levels && !Fed(routes, port)
    ensures Pass(levels, routes)[port] == levels[port]
    decreases |routes|
  {
    if routes != [] {
      assert routes[0] in routes;
      UnfedUntouched(Apply(levels, routes[0]), routes[1..], port);
    }
  }

  lemma {:induction false} PassSolvesAt(injected: Levels, routes: seq<Route>, port: Port)
    requires Connects(injected, routes) && SourcesFirst(routes) && port in injected && injected[port].Finite?
    ensures var final := Pass(injected, routes);
            final[port] == Finite(injected[port].value + Arriving(final, routes, port))
    decreases |routes|
  {
    if routes != [] {
      var r, rest := routes[0], routes[1..];
      hide SourcesFirst, Fed;
      var next := Apply(injected, r);
      PassSolvesAt(next, rest, port);
      UnfedUntouched(next, rest, r.source);
    }
  }

  /** One in-place pass in a sources-first order solves the recursive equations, whatever non-finite
      samples are about. */
  lemma PassSolves(injected: Levels, routes: seq<Route>)
    requires Connects(injected, routes) && SourcesFirst(routes)
    ensures Solves(injected, routes, Pass(injected, routes))
  {
    forall p | p in injected && injected[p].Finite?
      ensures Pass(injected, routes)[p] == Finite(injected[p].value + Arriving(Pass(injected, routes), routes, p))
    {
      PassSolvesAt(injected, routes, p);
    }
  }

  /** A pass leaves nothing non-finite behind except an input nothing is routed to. */
  lemma {:induction false} PassCleans(injected: Levels, routes: seq<Route>, port: Port)
    requires Connects(injected, routes) && port in injected
    ensures Pass(injected, routes)[port].Finite? <==> injected[port].Finite? || Fed(routes, port)
    decreases |routes|
  {
    if routes != [] {
      var next := Apply(injected, routes[0]);
      assert routes == [routes[0]] + routes[1..];
      PassCleans(next, routes[1..], port);
      if routes[0].destination == port { assert routes[0] in routes; }
    }
  }

  /** What the first listed route into a port delivers. */
  ghost function FirstArrival(levels: Levels, routes: seq<Route>, port: Port): real
    requires Connects(levels, routes)
    decreases |routes|
  {
    if routes == [] then 0.0
    else if routes[0].destination == port then Delivered(levels, routes[0], port)
    else FirstArrival(levels, routes[1..], port)
  }

  /** A port injected with a non-finite sample loses the first arrival, which only resets it. */
  lemma {:induction false} NonFiniteInputCostsOneArrival(injected: Levels, routes: seq<Route>, port: Port)
    requires Connects(injected, routes) && SourcesFirst(routes)
    requires port in injected && injected[port].NotFinite? && Fed(routes, port)
    ensures var final := Pass(injected, routes);
            final[port] == Finite(Arriving(final, routes, port) - FirstArrival(final, routes, port))
    decreases |routes|
  {
    var r, rest := routes[0], routes[1..];
    var next := Apply(injected, r);
    assert routes == [r] + rest;
    assert Fed(rest, port) || r.destination == port;
    hide SourcesFirst, Fed;
    if r.destination == port {
      PassSolvesAt(next, rest, port);
      UnfedUntouched(next, rest, r.source);
    } else {
      NonFiniteInputCostsOneArrival(next, rest, port);
    }
  }

  // ---------------------------------------------------------------- one meaning only

  ghost predicate Climbs(routes: seq<Route>, rank: nat -> int) {
    forall r | r in routes :: rank(r.source.bus) < rank(r.destination.bus)
  }

  lemma {:induction false} ArrivingAgrees(a: Levels, b: Levels, routes: seq<Route>, port: Port)
    requires Connects(a, routes) && Connects(b, routes)
    requires forall r | r in routes && r.destination == port :: a[r.source] == b[r.source]
    ensures Arriving(a, routes, port) == Arriving(b, routes, port)
    decreases |routes|
  {
    if routes != [] {
      assert routes[0] in routes;
      ArrivingAgrees(a, b, routes[1..], port);
    }
  }

  lemma {:induction false} SolutionsAgree(injected: Levels, routes: seq<Route>, rank: nat -> int,
                                          a: Levels, b: Levels, height: nat, port: Port)
    requires Connects(injected, routes) && Climbs(routes, rank)
    requires (forall n :: 0 <= rank(n)) && (forall p | p in injected :: injected[p].Finite?)
    requires Solves(injected, routes, a) && Solves(injected, routes, b)
    requires port in injected && rank(port.bus) <= height
    ensures a[port] == b[port]
    decreases height
  {
    forall r | r in routes && r.destination == port ensures a[r.source] == b[r.source] {
      SolutionsAgree(injected, routes, rank, a, b, height - 1, r.source);
    }
    ArrivingAgrees(a, b, routes, port);
  }

  /** A graph whose routes climb has one solution: the pass computes the meaning of the graph. */
  lemma SolutionIsUnique(injected: Levels, routes: seq<Route>, rank: nat -> int, a: Levels, b: Levels)
    requires Connects(injected, routes) && Climbs(routes, rank)
    requires (forall n :: 0 <= rank(n)) && (forall p | p in injected :: injected[p].Finite?)
    requires Solves(injected, routes, a) && Solves(injected, routes, b)
    ensures a == b
  {
    forall p | p in injected ensures a[p] == b[p] {
      SolutionsAgree(injected, routes, rank, a, b, rank(p.bus), p);
    }
  }

  // ---------------------------------------------------------------- listing order

  lemma {:induction false} ArrivingSplits(levels: Levels, front: seq<Route>, back: seq<Route>, port: Port)
    requires Connects(levels, front) && Connects(levels, back)
    ensures Connects(levels, front + back)
    ensures Arriving(levels, front + back, port) == Arriving(levels, front, port) + Arriving(levels, back, port)
    decreases |front|
  {
    if front == [] {
      assert front + back == back;
    } else {
      ArrivingSplits(levels, front[1..], back, port);
      assert (front + back)[1..] == front[1..] + back;
    }
  }

  lemma ArrivingMoves(levels: Levels, front: seq<Route>, r: Route, back: seq<Route>, port: Port)
    requires Connects(levels, front) && Connects(levels, back) && Connects(levels, [r])
    ensures Connects(levels, front + [r] + back) && Connects(levels, front + back)
    ensures Arriving(levels, front + [r] + back, port) ==
            Delivered(levels, r, port)
            + Arriving(levels, front + back, port)
  {
    ArrivingSplits(levels, front, back, port);
    ArrivingSplits(levels, front + [r], back, port);
    ArrivingSplits(levels, front, [r], port);
    assert [r][1..] == [];
  }

  lemma RemoveOne<T>(x: T, rest: seq<T>, front: seq<T>, back: seq<T>)
    requires multiset([x] + rest) == multiset(front + [x] + back)
    ensures multiset(rest) == multiset(front + back)
  {
    assert multiset([x] + rest) == multiset{x} + multiset(rest);
    assert multiset(front + [x] + back) == multiset(front) + multiset{x} + multiset(back);
    assert multiset(front + back) == multiset(front) + multiset(back);
    Cancel(multiset{x}, multiset(rest), multiset(front) + multiset(back));
  }

  lemma Cancel<T>(common: multiset<T>, a: multiset<T>, b: multiset<T>)
    requires common + a == common + b
    ensures a == b
  {
    assert a == (common + a) - common;
    assert b == (common + b) - common;
  }

  lemma EmptyPermutation<T>(items: seq<T>)
    requires multiset(items) == multiset([])
    ensures items == []
  {
    assert |multiset(items)| == 0;
  }

  /** Taking one occurrence out of two permutations leaves permutations. */
  lemma FindFirst<T>(a: seq<T>, b: seq<T>) returns (front: seq<T>, back: seq<T>)
    requires multiset(a) == multiset(b) && a != []
    ensures b == front + [a[0]] + back && multiset(a[1..]) == multiset(front + back)
  {
    SameMembers(a, b);
    assert a[0] in b;
    var k :| 0 <= k < |b| && b[k] == a[0];
    front, back := b[..k], b[k + 1..];
    assert b == front + [a[0]] + back;
    assert a == [a[0]] + a[1..];
    RemoveOne(a[0], a[1..], front, back);
  }

  lemma ConnectsPermutes(levels: Levels, a: seq<Route>, b: seq<Route>)
    requires Connects(levels, a) && forall r :: r in b <==> r in a
    ensures Connects(levels, b)
  {
  }

  lemma ClimbsPermutes(a: seq<Route>, b: seq<Route>, rank: nat -> int)
    requires Climbs(a, rank) && forall r :: r in b <==> r in a
    ensures Climbs(b, rank)
  {
  }

  lemma SameMembers<T>(a: seq<T>, b: seq<T>)
    requires multiset(a) == multiset(b)
    ensures forall x :: x in a <==> x in b
  {
    forall x ensures x in a <==> x in b {
      assert x in multiset(a) <==> x in multiset(b);
    }
  }

  lemma {:induction false} ArrivingPermutes(levels: Levels, a: seq<Route>, b: seq<Route>, port: Port)
    requires Connects(levels, a) && multiset(a) == multiset(b)
    ensures Connects(levels, b) && Arriving(levels, a, port) == Arriving(levels, b, port)
    decreases |a|
  {
    if a == [] {
      EmptyPermutation(b);
    } else {
      hide Connects, Arriving, Delivered;
      var front, back := FindFirst(a, b);
      ArrivingPermutes(levels, a[1..], front + back, port);
      ArrivingMoves(levels, front, a[0], back, port);
    }
  }

  // ---------------------------------------------------------------- compiled order

  /** The compiled order: a stable sort by the rank of the source bus. */
  function ByRank(routes: seq<Route>, rank: nat -> int): seq<Route> {
    Sort(routes, (r: Route) => rank(r.source.bus))
  }

  lemma ByRankPermutes(routes: seq<Route>, rank: nat -> int)
    ensures multiset(ByRank(routes, rank)) == multiset(routes)
    ensures forall r :: r in ByRank(routes, rank) <==> r in routes
  {
    SortSorts(routes, (r: Route) => rank(r.source.bus));
    forall r ensures r in ByRank(routes, rank) <==> r in routes {
      assert r in multiset(ByRank(routes, rank)) <==> r in multiset(routes);
    }
  }

  /** Sorted by the rank of their sources, routes that climb are sources-first. */
  lemma ByRankIsSourcesFirst(routes: seq<Route>, rank: nat -> int)
    requires Climbs(routes, rank)
    ensures SourcesFirst(ByRank(routes, rank))
  {
    var sorted := ByRank(routes, rank);
    var key := (r: Route) => rank(r.source.bus);
    SortSorts(routes, key);
    ByRankPermutes(routes, rank);
    forall i, j | 0 <= i <= j < |sorted| ensures sorted[j].destination.bus != sorted[i].source.bus {
      assert sorted[j] in routes;
      assert key(sorted[i]) <= key(sorted[j]);
    }
  }

  /** The order routes were listed in, and which topological order was found, make no difference. */
  lemma ListingOrderIsIrrelevant(injected: Levels, a: seq<Route>, b: seq<Route>, rankA: nat -> int, rankB: nat -> int)
    requires multiset(a) == multiset(b) && Connects(injected, a)
    requires Climbs(a, rankA) && Climbs(b, rankB) && (forall n :: 0 <= rankA(n))
    requires forall p | p in injected :: injected[p].Finite?
    ensures Connects(injected, ByRank(a, rankA)) && Connects(injected, ByRank(b, rankB))
    ensures Pass(injected, ByRank(a, rankA)) == Pass(injected, ByRank(b, rankB))
  {
    ByRankPermutes(a, rankA);
    ByRankPermutes(b, rankB);
    hide ByRank, Connects, Climbs, SourcesFirst;
    SameMembers(a, b);
    ConnectsPermutes(injected, a, ByRank(a, rankA));
    ConnectsPermutes(injected, a, ByRank(b, rankB));
    ClimbsPermutes(a, ByRank(a, rankA), rankA);
    ByRankIsSourcesFirst(a, rankA);
    ByRankIsSourcesFirst(b, rankB);
    PermutedPassesAgree(injected, ByRank(a, rankA), ByRank(b, rankB), rankA);
  }

  lemma SolutionPermutes(injected: Levels, a: seq<Route>, b: seq<Route>, final: Levels)
    requires multiset(a) == multiset(b) && Connects(injected, a) && Connects(injected, b)
    requires Solves(injected, b, final)
    ensures Solves(injected, a, final)
  {
    forall p | p in injected ensures Arriving(final, a, p) == Arriving(final, b, p) {
      ArrivingPermutes(final, a, b, p);
    }
  }

  lemma PermutedPassesAgree(injected: Levels, a: seq<Route>, b: seq<Route>, rank: nat -> int)
    requires multiset(a) == multiset(b) && SourcesFirst(a) && SourcesFirst(b)
    requires Connects(injected, a) && Connects(injected, b)
    requires Climbs(a, rank) && (forall n :: 0 <= rank(n))
    requires forall p | p in injected :: injected[p].Finite?
    ensures Pass(injected, a) == Pass(injected, b)
  {
    hide Connects, Solves, SourcesFirst, Climbs, Arriving;
    PassSolves(injected, a);
    PassSolves(injected, b);
    SolutionPermutes(injected, a, b, Pass(injected, b));
    SolutionIsUnique(injected, a, rank, Pass(injected, a), Pass(injected, b));
  }
}
