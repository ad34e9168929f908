/** Kahn's algorithm over the buses: it orders every bus exactly when no routes form a cycle. */
module RouteOrdering {

  datatype Edge = Edge(from: nat, to: nat)

  ghost predicate Within(edges: seq<Edge>, n: nat) {
    forall e | e in edges :: e.from < n && e.to < n
  }

  ghost predicate Distinct(order: seq<nat>) {
    forall i, j | 0 <= i < j < |order| :: order[i] != order[j]
  }

  ghost predicate Below(order: seq<nat>, n: nat) {
    forall x | x in order :: x < n
  }

  predicate Joined(edges: seq<Edge>, from: nat, to: nat) {
    Edge(from, to) in edges
  }

  /** A walk along edges, first bus to last. */
  ghost predicate Walk(edges: seq<Edge>, walk: seq<nat>) {
    forall i, j | 0 <= i && j == i + 1 && j < |walk| :: Joined(edges, walk[i], walk[j])
  }

  ghost predicate Closed(edges: seq<Edge>, walk: seq<nat>) {
    |walk| >= 2 && Walk(edges, walk) && walk[0] == walk[|walk| - 1]
  }

  ghost predicate Cyclic(edges: seq<Edge>) {
    exists walk :: Closed(edges, walk)
  }

  ghost predicate Precedes(order: seq<nat>, a: nat, b: nat) {
    exists i, j | 0 <= i < j < |order| :: order[i] == a && order[j] == b
  }

  ghost predicate Topological(edges: seq<Edge>, order: seq<nat>) {
    forall e | e in edges :: Precedes(order, e.from, e.to)
  }

  // ---------------------------------------------------------------- counting

  /** Edges into a bus from buses that are not done. */
  ghost function Pending(edges: seq<Edge>, done: set<nat>, bus: nat): nat {
    if edges == [] then 0
    else
      var last := edges[|edges| - 1];
      Pending(edges[..|edges| - 1], done, bus) + if last.to == bus && last.from !in done then 1 else 0
  }

  /** The destinations routed from a bus, in listed order, repeats and all. */
  ghost function Targets(edges: seq<Edge>, bus: nat): seq<nat> {
    if edges == [] then []
    else
      var last := edges[|edges| - 1];
      Targets(edges[..|edges| - 1], bus) + if last.from == bus then [last.to] else []
  }

  ghost function Times(items: seq<nat>, x: nat): nat {
    multiset(items)[x]
  }

  lemma {:induction false} PendingStep(edges: seq<Edge>, done: set<nat>, source: nat, bus: nat)
    requires source !in done
    ensures Pending(edges, done, bus) == Pending(edges, done + {source}, bus) + Times(Targets(edges, source), bus)
  {
    if edges != [] {
      PendingStep(edges[..|edges| - 1], done, source, bus);
    }
  }

  ghost predicate Settled(e: Edge, done: set<nat>, bus: nat) {
    e.to == bus ==> e.from in done
  }

  ghost predicate AllSettled(edges: seq<Edge>, done: set<nat>, bus: nat) {
    forall k: nat | k < |edges| :: Settled(edges[k], done, bus)
  }

  lemma {:induction false} NonePending(edges: seq<Edge>, done: set<nat>, bus: nat)
    ensures Pending(edges, done, bus) == 0 <==> AllSettled(edges, done, bus)
  {
    if edges != [] {
      var front := edges[..|edges| - 1];
      assert edges == front + [edges[|edges| - 1]];
      NonePending(front, done, bus);
    }
  }

  lemma {:induction false} TargetsWithin(edges: seq<Edge>, source: nat, n: nat)
    requires Within(edges, n)
    ensures Below(Targets(edges, source), n)
  {
    if edges != [] {
      TargetsWithin(edges[..|edges| - 1], source, n);
    }
  }

  // ---------------------------------------------------------------- cycles

  lemma {:induction false} DistinctFits(items: seq<nat>, n: nat)
    requires Distinct(items) && Below(items, n)
    ensures |items| <= n
    ensures |items| == n ==> forall x: nat | x < n :: x in items
    decreases n
  {
    assert |items| > 0 ==> items[0] in items;
    if n == 0 {
    } else if top: nat :| top < |items| && items[top] == n - 1 {
      var rest := items[..top] + items[top + 1..];
      forall x | x in rest ensures x in items && x != n - 1 {
      }
      DistinctFits(rest, n - 1);
      forall x: nat | |items| == n && x < n - 1 ensures x in items {
        assert x in rest;
      }
    } else {
      DistinctFits(items, n - 1);
    }
  }

  ghost predicate FedFrom(edges: seq<Edge>, left: set<nat>, bus: nat) {
    exists from :: from in left && Joined(edges, from, bus)
  }

  /** If every bus left over has an edge from another one left over, a walk of any length ends there. */
  lemma {:induction false} WalkBack(edges: seq<Edge>, left: set<nat>, steps: nat, end: nat) returns (walk: seq<nat>)
    requires end in left && forall bus | bus in left :: FedFrom(edges, left, bus)
    ensures |walk| == steps + 1 && Walk(edges, walk) && (forall x | x in walk :: x in left)
  {
    if steps == 0 {
      walk := [end];
    } else {
      var tail := WalkBack(edges, left, steps - 1, end);
      assert tail[0] in tail && FedFrom(edges, left, tail[0]);
      var from :| from in left && Joined(edges, from, tail[0]);
      walk := [from] + tail;
    }
  }

  /** A walk longer than the number of buses meets itself. */
  lemma LongWalkCloses(edges: seq<Edge>, walk: seq<nat>, n: nat)
    requires Walk(edges, walk) && Below(walk, n) && |walk| > n
    ensures Cyclic(edges)
  {
    if Distinct(walk) {
      DistinctFits(walk, n);
    }
    var i, j :| 0 <= i < j < |walk| && walk[i] == walk[j];
    var loop := walk[i..j + 1];
    forall a, b | 0 <= a && b == a + 1 && b < |loop| ensures Joined(edges, loop[a], loop[b]) {
      assert loop[a] == walk[i + a] && loop[b] == walk[i + b];
    }
    assert Closed(edges, loop);
  }

  lemma {:induction false} WalkClimbs(edges: seq<Edge>, order: seq<nat>, walk: seq<nat>) returns (first: nat, last: nat)
    requires Distinct(order) && Topological(edges, order) && Walk(edges, walk) && |walk| >= 2
    ensures first < last < |order| && order[first] == walk[0] && order[last] == walk[|walk| - 1]
    decreases |walk|
  {
    assert Joined(edges, walk[0], walk[1]);
    assert Precedes(order, walk[0], walk[1]);
    var i, j :| 0 <= i < j < |order| && order[i] == walk[0] && order[j] == walk[1];
    if |walk| == 2 {
      first, last := i, j;
    } else {
      var f, l := WalkClimbs(edges, order, walk[1..]);
      first, last := i, l;
    }
  }

  lemma TopologicalIsAcyclic(edges: seq<Edge>, order: seq<nat>)
    requires Distinct(order) && Topological(edges, order)
    ensures !Cyclic(edges)
  {
    forall walk | Closed(edges, walk) ensures false {
      var first, last := WalkClimbs(edges, order, walk);
    }
  }

  // ---------------------------------------------------------------- the algorithm

  ghost function Done(order: seq<nat>, count: nat): set<nat>
    requires count <= |order|
  {
    set x | x in order[..count]
  }

  /** Every bus so far comes after all the buses routed to it. */
  ghost predicate Supported(edges: seq<Edge>, order: seq<nat>) {
    forall e, k | e in edges && 0 <= k < |order| && order[k] == e.to :: e.from in order[..k]
  }

  lemma ExtendSupported(edges: seq<Edge>, order: seq<nat>, count: nat, bus: nat)
    requires Supported(edges, order) && count <= |order| && Pending(edges, Done(order, count), bus) == 0
    requires bus !in order
    ensures Supported(edges, order + [bus])
  {
    NonePending(edges, Done(order, count), bus);
    var next := order + [bus];
    forall e, k | e in edges && 0 <= k < |next| && next[k] == e.to ensures e.from in next[..k] {
      if k < |order| {
        assert next[..k] == order[..k];
      } else {
        assert next[..k] == order;
        var i :| 0 <= i < |edges| && edges[i] == e;
        assert Settled(edges[i], Done(order, count), bus);
      }
    }
  }

  lemma CompleteIsTopological(edges: seq<Edge>, order: seq<nat>, n: nat)
    requires Within(edges, n) && Distinct(order) && Below(order, n) && |order| == n && Supported(edges, order)
    ensures Topological(edges, order)
  {
    DistinctFits(order, n);
    forall e | e in edges ensures Precedes(order, e.from, e.to) {
      assert e.to in order;
      var k :| 0 <= k < |order| && order[k] == e.to;
      assert e.from in order[..k];
      var i :| 0 <= i < k && order[..k][i] == e.from;
      assert order[i] == e.from;
    }
  }

  lemma LeftAreFed(edges: seq<Edge>, order: seq<nat>, n: nat, left: set<nat>, bus: nat)
    requires Within(edges, n) && left == (set x: nat | x < n && x !in order)
    requires bus in left && Pending(edges, Done(order, |order|), bus) > 0
    ensures FedFrom(edges, left, bus)
  {
    NonePending(edges, Done(order, |order|), bus);
    var k: nat :| k < |edges| && !Settled(edges[k], Done(order, |order|), bus);
    var e := edges[k];
    assert order[..|order|] == order;
    assert e == Edge(e.from, bus);
    assert e.from in left && Joined(edges, e.from, bus);
  }

  lemma StuckIsCyclic(edges: seq<Edge>, order: seq<nat>, n: nat)
    requires Within(edges, n) && |order| < n
    requires forall bus: nat | bus < n :: bus in order <==> Pending(edges, Done(order, |order|), bus) == 0
    ensures Cyclic(edges)
  {
    var left := set bus: nat | bus < n && bus !in order;
    forall bus | bus in left ensures FedFrom(edges, left, bus) {
      LeftAreFed(edges, order, n, left, bus);
    }
    hide Pending, Done, FedFrom;
    if forall bus: nat | bus < n :: bus in order {
      AllListed(order, n);
    }
    var end: nat :| end < n && end !in order;
    var walk := WalkBack(edges, left, n, end);
    assert Below(walk, n);
    LongWalkCloses(edges, walk, n);
  }

  lemma {:induction false} AllListed(order: seq<nat>, n: nat)
    requires forall bus: nat | bus < n :: bus in order
    ensures |order| >= n
    decreases n
  {
    if n > 0 {
      assert n - 1 in order;
      var k :| 0 <= k < |order| && order[k] == n - 1;
      var rest := order[..k] + order[k + 1..];
      forall bus: nat | bus < n - 1 ensures bus in rest {
        assert bus in order;
        var i :| 0 <= i < |order| && order[i] == bus;
        assert bus == if i < k then rest[i] else rest[i - 1];
      }
      AllListed(rest, n - 1);
    }
  }

  /** An order under construction. */
  ghost predicate Partial(edges: seq<Edge>, order: seq<nat>, n: nat) {
    Distinct(order) && Below(order, n) && Supported(edges, order)
  }

  lemma ExtendPartial(edges: seq<Edge>, order: seq<nat>, n: nat, count: nat, bus: nat)
    requires Partial(edges, order, n) && count <= |order| && Pending(edges, Done(order, count), bus) == 0
    requires bus !in order && bus < n
    ensures Partial(edges, order + [bus], n) && Done(order + [bus], count) == Done(order, count)
  {
    ExtendSupported(edges, order, count, bus);
    assert (order + [bus])[..count] == order[..count];
  }

  lemma PartialFits(edges: seq<Edge>, order: seq<nat>, n: nat)
    requires Partial(edges, order, n)
    ensures |order| <= n
  {
    DistinctFits(order, n);
  }

  lemma NothingDone(order: seq<nat>)
    ensures Done(order, 0) == {}
  {
  }

  /** The counts hold the edges from buses not yet done. */
  ghost predicate Counts(edges: seq<Edge>, done: set<nat>, incoming: seq<nat>) {
    forall bus: nat | bus < |incoming| :: incoming[bus] == Pending(edges, done, bus)
  }

  /** The buses in the order are exactly those with nothing left to wait for. */
  ghost predicate Free(order: seq<nat>, incoming: seq<nat>) {
    forall bus: nat | bus < |incoming| :: bus in order <==> incoming[bus] == 0
  }

  /** Kahn's algorithm, as the graph's constructor runs it. */
  method Order(n: nat, edges: seq<Edge>) returns (order: seq<nat>)
    requires Within(edges, n)
    ensures Distinct(order) && Below(order, n)
    ensures |order| == n <==> !Cyclic(edges)
    ensures |order| == n ==> Topological(edges, order)
  {
    var incoming, outgoing := Tally(n, edges);
    order := Seed(n, edges, incoming);
    var index := 0;
    NothingDone(order);
    PartialFits(edges, order, n);
    while index < |order|
      invariant index <= |order| <= n && Partial(edges, order, n)
      invariant Counts(edges, Done(order, index), incoming[..]) && Free(order, incoming[..])
      decreases n - index
    {
      assert order[index] in order;
      order := Release(n, edges, order, index, incoming, outgoing[order[index]]);
      index := index + 1;
    }
    if |order| == n {
      CompleteIsTopological(edges, order, n);
      TopologicalIsAcyclic(edges, order);
    } else {
      StuckIsCyclic(edges, order, n);
    }
  }

  /** How many routes enter each bus, and where each bus is routed to. */
  method Tally(n: nat, edges: seq<Edge>) returns (incoming: array<nat>, outgoing: seq<seq<nat>>)
    requires Within(edges, n)
    ensures fresh(incoming) && incoming.Length == n && Counts(edges, {}, incoming[..])
    ensures |outgoing| == n && forall bus: nat | bus < n :: outgoing[bus] == Targets(edges, bus)
  {
    incoming := new nat[n](_ => 0);
    outgoing := seq(n, _ => []);
    for k := 0 to |edges|
      invariant |outgoing| == n
      invariant forall bus: nat | bus < n :: incoming[bus] == Pending(edges[..k], {}, bus)
      invariant forall bus: nat | bus < n :: outgoing[bus] == Targets(edges[..k], bus)
    {
      var e := edges[k];
      assert edges[..k + 1][..k] == edges[..k] && e in edges;
      incoming[e.to] := incoming[e.to] + 1;
      outgoing := outgoing[e.from := outgoing[e.from] + [e.to]];
    }
    assert edges[..|edges|] == edges;
  }

  /** The buses no route enters. */
  method Seed(n: nat, edges: seq<Edge>, incoming: array<nat>) returns (order: seq<nat>)
    requires Within(edges, n) && incoming.Length == n && Counts(edges, {}, incoming[..])
    ensures Partial(edges, order, n) && Free(order, incoming[..])
  {
    order := [];
    for bus := 0 to n
      invariant Partial(edges, order, n)
      invariant forall x: nat :: x in order <==> x < bus && incoming[x] == 0
    {
      if incoming[bus] == 0 {
        NothingDone(order);
        assert incoming[..][bus] == Pending(edges, {}, bus);
        ExtendPartial(edges, order, n, 0, bus);
        order := order + [bus];
      }
    }
  }

  /** The inner loop: the routes of one ordered bus stop counting against their destinations. */
  method Release(n: nat, edges: seq<Edge>, order: seq<nat>, index: nat, incoming: array<nat>, targets: seq<nat>)
    returns (grown: seq<nat>)
    requires Within(edges, n) && incoming.Length == n && index < |order|
    requires targets == Targets(edges, order[index]) && Partial(edges, order, n)
    requires Counts(edges, Done(order, index), incoming[..]) && Free(order, incoming[..])
    modifies incoming
    ensures order <= grown && |grown| <= n && Partial(edges, grown, n)
    ensures Counts(edges, Done(grown, index + 1), incoming[..]) && Free(grown, incoming[..])
  {
    hide Distinct, Below, Supported, Pending, Targets, Times;
    grown := order;
    ghost var done := Done(order, index + 1);
    StepDone(edges, order, n, index);
    TargetsWithin(edges, order[index], n);
    forall bus: nat | bus < n ensures incoming[bus] == Pending(edges, done, bus) + Times(targets, bus) {
      PendingStep(edges, Done(order, index), order[index], bus);
      assert incoming[..][bus] == Pending(edges, Done(order, index), bus);
    }
    hide Done;
    assert targets[0..] == targets;
    for k := 0 to |targets|
      invariant order <= grown && Done(grown, index + 1) == done && Partial(edges, grown, n)
      invariant forall bus: nat | bus < n :: incoming[bus] == Pending(edges, done, bus) + Times(targets[k..], bus)
      invariant Free(grown, incoming[..])
    {
      var target := targets[k];
      BelowAt(targets, n, k);
      TimesStep(targets, k);
      ghost var counts := incoming[..];
      incoming[target] := incoming[target] - 1;
      assert incoming[..] == counts[target := counts[target] - 1];
      if incoming[target] == 0 {
        ExtendPartial(edges, grown, n, index + 1, target);
        grown := grown + [target];
      }
    }
    TimesEnd(targets);
    PartialFits(edges, grown, n);
  }

  lemma BelowAt(items: seq<nat>, n: nat, k: nat)
    requires Below(items, n) && k < |items|
    ensures items[k] < n
  {
    assert items[k] in items;
  }

  lemma StepDone(edges: seq<Edge>, order: seq<nat>, n: nat, index: nat)
    requires index < |order| && Partial(edges, order, n)
    ensures order[index] !in Done(order, index) && Done(order, index + 1) == Done(order, index) + {order[index]}
  {
    assert order[..index + 1] == order[..index] + [order[index]];
  }

  lemma TimesStep(items: seq<nat>, k: nat)
    requires k < |items|
    ensures forall x :: Times(items[k..], x) == Times(items[k + 1..], x) + if x == items[k] then 1 else 0
  {
    assert items[k..] == [items[k]] + items[k + 1..];
  }

  lemma TimesEnd(items: seq<nat>)
    ensures forall x :: Times(items[|items|..], x) == 0
  {
  }
}
