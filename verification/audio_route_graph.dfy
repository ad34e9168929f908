/** The compiled route graph: definitions are checked and ordered once, then every block is mixed in
    place. `RouteMixing` says what one frame of a pass means and `RouteOrdering` how buses are ordered. */
module AudioRouteGraph {
  import opened RouteMixing
  import opened RouteOrdering
  import opened Samples

  const SIZE_MAX: nat := 0xFFFF_FFFF_FFFF_FFFF

  datatype Purpose = PrivateSoundcheck | Session

  datatype Role =
    | HardwareInput | LocalMusic | LocalVoice | RemoteMusic | RemoteVoice | Monitor | Cue
    | NetworkSend | NetworkReceive | Record | DawBridge | Talkback | Click | HardwareOutput

  datatype BusDefinition = BusDefinition(id: nat, role: Role, channelCount: nat)

  datatype RouteDefinition = RouteDefinition(
    sourceBus: nat,
    sourceChannel: nat,
    destinationBus: nat,
    destinationChannel: nat,
    linearGain: Float)

  datatype Rejection = NoFramesOrBuses | BusInvalid | NetworkBusInSoundcheck | RouteInvalid | RouteCycle

  // ---------------------------------------------------------------- definitions

  predicate NetworkOrRemote(role: Role) {
    role in {NetworkSend, NetworkReceive, RemoteMusic, RemoteVoice}
  }

  /** The first bus with an id, or the number of buses. */
  function FindBus(buses: seq<BusDefinition>, id: nat): (index: nat)
    ensures index <= |buses|
    ensures index < |buses| ==> buses[index].id == id
    ensures forall k | 0 <= k < index :: buses[k].id != id
  {
    if buses == [] || buses[0].id == id then 0 else 1 + FindBus(buses[1..], id)
  }

  predicate BusSound(maximumFrames: nat, earlier: seq<BusDefinition>, bus: BusDefinition) {
    bus.channelCount > 0 && FindBus(earlier, bus.id) == |earlier| && maximumFrames <= SIZE_MAX / bus.channelCount
  }

  predicate BusPermitted(purpose: Purpose, bus: BusDefinition) {
    !(purpose.PrivateSoundcheck? && NetworkOrRemote(bus.role))
  }

  ghost predicate BusesFine(purpose: Purpose, maximumFrames: nat, buses: seq<BusDefinition>) {
    forall k | 0 <= k < |buses| :: BusSound(maximumFrames, buses[..k], buses[k]) && BusPermitted(purpose, buses[k])
  }

  predicate RouteSound(buses: seq<BusDefinition>, route: RouteDefinition) {
    var source, destination := FindBus(buses, route.sourceBus), FindBus(buses, route.destinationBus);
    && source < |buses| && destination < |buses|
    && route.sourceChannel < buses[source].channelCount
    && route.destinationChannel < buses[destination].channelCount
    && route.linearGain.Finite?
  }

  ghost predicate RoutesFine(buses: seq<BusDefinition>, routes: seq<RouteDefinition>) {
    forall k | 0 <= k < |routes| :: RouteSound(buses, routes[k])
  }

  function CompiledRoute(buses: seq<BusDefinition>, route: RouteDefinition): Route
    requires RouteSound(buses, route)
  {
    Route(Port(FindBus(buses, route.sourceBus), route.sourceChannel),
          Port(FindBus(buses, route.destinationBus), route.destinationChannel),
          route.linearGain.value)
  }

  ghost function Compiled(buses: seq<BusDefinition>, routes: seq<RouteDefinition>): seq<Route>
    requires RoutesFine(buses, routes)
  {
    seq(|routes|, (k: nat) requires k < |routes| => CompiledRoute(buses, routes[k]))
  }

  /** The bus graph: one edge for each route. */
  function Edges(routes: seq<Route>): seq<Edge> {
    seq(|routes|, (k: nat) requires k < |routes| => Edge(routes[k].source.bus, routes[k].destination.bus))
  }

  /** The definitions the constructor accepts. */
  ghost predicate Buildable(purpose: Purpose, maximumFrames: nat, buses: seq<BusDefinition>, routes: seq<RouteDefinition>) {
    && maximumFrames > 0 && buses != []
    && BusesFine(purpose, maximumFrames, buses)
    && RoutesFine(buses, routes)
    && !Cyclic(Edges(Compiled(buses, routes)))
  }

  /** What each refusal means: the first check, in the constructor's order, that fails. */
  ghost predicate Explains(reason: Rejection, purpose: Purpose, maximumFrames: nat,
                           buses: seq<BusDefinition>, routes: seq<RouteDefinition>) {
    match reason
    case NoFramesOrBuses => maximumFrames == 0 || buses == []
    case BusInvalid =>
      && maximumFrames > 0
      && exists k :: 0 <= k < |buses| && BusesFine(purpose, maximumFrames, buses[..k])
                     && !BusSound(maximumFrames, buses[..k], buses[k])
    case NetworkBusInSoundcheck =>
      && maximumFrames > 0
      && exists k :: 0 <= k < |buses| && BusesFine(purpose, maximumFrames, buses[..k])
                     && BusSound(maximumFrames, buses[..k], buses[k]) && !BusPermitted(purpose, buses[k])
    case RouteInvalid =>
      maximumFrames > 0 && buses != [] && BusesFine(purpose, maximumFrames, buses) && !RoutesFine(buses, routes)
    case RouteCycle =>
      && maximumFrames > 0 && buses != [] && BusesFine(purpose, maximumFrames, buses)
      && RoutesFine(buses, routes) && Cyclic(Edges(Compiled(buses, routes)))
  }

  lemma {:induction false} FindFinds(buses: seq<BusDefinition>, k: nat)
    requires k < |buses| && forall j | 0 <= j < k :: buses[j].id != buses[k].id
    ensures FindBus(buses, buses[k].id) == k
  {
    var i := FindBus(buses, buses[k].id);
    assert i <= k;
    hide FindBus;
  }

  /** What makes a list of buses fine: each has a channel and a buffer that can be addressed, all ids differ, and a
      private soundcheck has no bus that sends to, receives from or plays somebody else. */
  lemma BusesFineMeans(purpose: Purpose, maximumFrames: nat, buses: seq<BusDefinition>)
    ensures BusesFine(purpose, maximumFrames, buses) <==>
            && (forall k | 0 <= k < |buses| ::
                  buses[k].channelCount > 0 && maximumFrames * buses[k].channelCount <= SIZE_MAX)
            && (forall i, j | 0 <= i < j < |buses| :: buses[i].id != buses[j].id)
            && (purpose == PrivateSoundcheck ==>
                  forall k | 0 <= k < |buses| ::
                    && buses[k].role != NetworkSend && buses[k].role != NetworkReceive
                    && buses[k].role != RemoteMusic && buses[k].role != RemoteVoice)
  {
    forall k | 0 <= k < |buses|
      ensures BusSound(maximumFrames, buses[..k], buses[k]) <==>
              && buses[k].channelCount > 0 && maximumFrames * buses[k].channelCount <= SIZE_MAX
              && (forall j | 0 <= j < k :: buses[j].id != buses[k].id)
    {
      BusSoundMeans(maximumFrames, buses[..k], buses[k]);
      assert forall j | 0 <= j < k :: buses[..k][j] == buses[j];
    }
    hide BusSound;
  }

  lemma BusSoundMeans(maximumFrames: nat, earlier: seq<BusDefinition>, bus: BusDefinition)
    ensures BusSound(maximumFrames, earlier, bus) <==>
            && bus.channelCount > 0 && maximumFrames * bus.channelCount <= SIZE_MAX
            && (forall j | 0 <= j < |earlier| :: earlier[j].id != bus.id)
  {
    if bus.channelCount > 0 {
      DivisionLimit(maximumFrames, bus.channelCount, SIZE_MAX);
    }
    if j: nat :| j < |earlier| && earlier[j].id == bus.id {
      assert FindBus(earlier, bus.id) <= j;
    }
  }

  lemma DivisionLimit(a: nat, n: nat, limit: nat)
    requires n > 0
    ensures a <= limit / n <==> a * n <= limit
  {
    var q, r := limit / n, limit % n;
    assert limit == q * n + r;
    Multiples(a, q, n);
    Multiples(q + 1, a, n);
    assert (q + 1) * n == q * n + n;
  }

  lemma Multiples(a: nat, b: nat, n: nat)
    ensures a <= b ==> a * n <= b * n
  {
    if a <= b {
      assert b * n - a * n == (b - a) * n;
    }
  }

  /** What makes a list of routes fine: each one leads from a channel of a bus there is to a channel of a bus there is,
      with a finite gain; and it is compiled to just those two, whichever place they have in the list. */
  lemma RoutesFineMeans(purpose: Purpose, maximumFrames: nat, buses: seq<BusDefinition>, routes: seq<RouteDefinition>)
    requires BusesFine(purpose, maximumFrames, buses)
    ensures RoutesFine(buses, routes) <==>
            forall k | 0 <= k < |routes| ::
              && (exists i :: 0 <= i < |buses| && buses[i].id == routes[k].sourceBus
                              && routes[k].sourceChannel < buses[i].channelCount)
              && (exists j :: 0 <= j < |buses| && buses[j].id == routes[k].destinationBus
                              && routes[k].destinationChannel < buses[j].channelCount)
              && routes[k].linearGain.Finite?
    ensures RoutesFine(buses, routes) ==>
              forall k | 0 <= k < |routes| ::
                var r := Compiled(buses, routes)[k];
                && r.source.bus < |buses| && buses[r.source.bus].id == routes[k].sourceBus
                && r.source.channel == routes[k].sourceChannel
                && r.destination.bus < |buses| && buses[r.destination.bus].id == routes[k].destinationBus
                && r.destination.channel == routes[k].destinationChannel
                && Finite(r.gain) == routes[k].linearGain
  {
    BusesFineMeans(purpose, maximumFrames, buses);
    forall i | 0 <= i < |buses| ensures FindBus(buses, buses[i].id) == i {
      FindFinds(buses, i);
    }
    hide BusesFine, FindBus;
  }

  /** Place in an order, one past the end for buses not in it. */
  function RankOf(order: seq<nat>): nat -> int {
    (bus: nat) => PlaceOf(order, bus)
  }

  function PlaceOf(order: seq<nat>, bus: nat): nat {
    if order == [] || order[0] == bus then 0 else 1 + PlaceOf(order[1..], bus)
  }

  /** The stored routes: the compiled ones, sorted by some topological order of the buses. */
  ghost predicate SortedFrom(sorted: seq<Route>, compiled: seq<Route>) {
    exists order :: Distinct(order) && Topological(Edges(compiled), order) && sorted == ByRank(compiled, RankOf(order))
  }

  lemma {:induction false} PlaceFound(order: seq<nat>, k: nat)
    requires k < |order| && Distinct(order)
    ensures PlaceOf(order, order[k]) == k
  {
    if k > 0 {
      assert order[0] != order[k];
      PlaceFound(order[1..], k - 1);
    }
  }

  lemma TopologicalClimbs(routes: seq<Route>, order: seq<nat>)
    requires Distinct(order) && Topological(Edges(routes), order)
    ensures Climbs(routes, RankOf(order))
  {
    forall r | r in routes ensures RankOf(order)(r.source.bus) < RankOf(order)(r.destination.bus) {
      var k :| 0 <= k < |routes| && routes[k] == r;
      var e := Edges(routes)[k];
      assert e in Edges(routes) && Precedes(order, e.from, e.to);
      var i, j :| 0 <= i < j < |order| && order[i] == e.from && order[j] == e.to;
      PlaceFound(order, i);
      PlaceFound(order, j);
    }
  }

  /** Sorted routes never read a bus that is still to be written. */
  lemma SortedIsSourcesFirst(sorted: seq<Route>, compiled: seq<Route>)
    requires SortedFrom(sorted, compiled)
    ensures SourcesFirst(sorted) && (forall r :: r in sorted <==> r in compiled)
  {
    var order :| Distinct(order) && Topological(Edges(compiled), order) && sorted == ByRank(compiled, RankOf(order));
    TopologicalClimbs(compiled, order);
    ByRankIsSourcesFirst(compiled, RankOf(order));
    ByRankPermutes(compiled, RankOf(order));
  }

  lemma {:induction false} CompiledPermutes(buses: seq<BusDefinition>, a: seq<RouteDefinition>, b: seq<RouteDefinition>)
    requires RoutesFine(buses, a) && multiset(a) == multiset(b)
    ensures RoutesFine(buses, b) && multiset(Compiled(buses, a)) == multiset(Compiled(buses, b))
    decreases |a|
  {
    if a == [] {
      EmptyPermutation(b);
    } else {
      SameMembers(a, b);
      forall k | 0 <= k < |b| ensures RouteSound(buses, b[k]) {
        assert b[k] in a;
        var i :| 0 <= i < |a| && a[i] == b[k];
      }
      var front, back := FindFirst(a, b);
      assert RoutesFine(buses, a[1..]);
      CompiledPermutes(buses, a[1..], front + back);
      CompiledParts(buses, front, a[0], back);
      assert Compiled(buses, a) == [CompiledRoute(buses, a[0])] + Compiled(buses, a[1..]);
      Reinsert(CompiledRoute(buses, a[0]), Compiled(buses, a[1..]), Compiled(buses, front), Compiled(buses, back));
    }
  }

  lemma CompiledSplits(buses: seq<BusDefinition>, front: seq<RouteDefinition>, back: seq<RouteDefinition>)
    requires RoutesFine(buses, front + back)
    ensures RoutesFine(buses, front) && RoutesFine(buses, back)
    ensures Compiled(buses, front + back) == Compiled(buses, front) + Compiled(buses, back)
  {
    var all := front + back;
    assert forall k | 0 <= k < |front| :: all[k] == front[k];
    assert forall k | 0 <= k < |back| :: all[|front| + k] == back[k];
  }

  lemma CompiledParts(buses: seq<BusDefinition>, front: seq<RouteDefinition>, route: RouteDefinition,
                      back: seq<RouteDefinition>)
    requires RoutesFine(buses, front + [route] + back) && RoutesFine(buses, front + back)
    ensures RoutesFine(buses, front) && RoutesFine(buses, back) && RouteSound(buses, route)
    ensures Compiled(buses, front + back) == Compiled(buses, front) + Compiled(buses, back)
    ensures Compiled(buses, front + [route] + back) ==
            Compiled(buses, front) + [CompiledRoute(buses, route)] + Compiled(buses, back)
  {
    CompiledSplits(buses, front, back);
    CompiledSplits(buses, front + [route], back);
    CompiledSplits(buses, front, [route]);
    assert RouteSound(buses, [route][0]);
    assert Compiled(buses, [route]) == [CompiledRoute(buses, route)];
  }

  lemma Reinsert<T>(x: T, rest: seq<T>, front: seq<T>, back: seq<T>)
    requires multiset(rest) == multiset(front + back)
    ensures multiset([x] + rest) == multiset(front + [x] + back)
  {
    assert multiset([x] + rest) == multiset{x} + multiset(rest);
    assert multiset(front + [x] + back) == multiset(front) + multiset{x} + multiset(back);
  }

  /** Graphs built from the same buses and the same routes, listed in any order, mix every frame alike. */
  lemma ListingsMixAlike(buses: seq<BusDefinition>, a: seq<RouteDefinition>, b: seq<RouteDefinition>,
                         sortedA: seq<Route>, sortedB: seq<Route>, injected: Levels)
    requires multiset(a) == multiset(b) && RoutesFine(buses, a) && RoutesFine(buses, b)
    requires SortedFrom(sortedA, Compiled(buses, a)) && SortedFrom(sortedB, Compiled(buses, b))
    requires Connects(injected, Compiled(buses, a)) && forall p | p in injected :: injected[p].Finite?
    ensures Connects(injected, sortedA) && Connects(injected, sortedB)
    ensures Pass(injected, sortedA) == Pass(injected, sortedB)
  {
    var ca, cb := Compiled(buses, a), Compiled(buses, b);
    CompiledPermutes(buses, a, b);
    var orderA :| Distinct(orderA) && Topological(Edges(ca), orderA) && sortedA == ByRank(ca, RankOf(orderA));
    var orderB :| Distinct(orderB) && Topological(Edges(cb), orderB) && sortedB == ByRank(cb, RankOf(orderB));
    TopologicalClimbs(ca, orderA);
    TopologicalClimbs(cb, orderB);
    ListingOrderIsIrrelevant(injected, ca, cb, RankOf(orderA), RankOf(orderB));
  }

  /** A built graph has one meaning: any levels that solve its equations are the ones a pass leaves. */
  lemma PassIsTheMeaning(sorted: seq<Route>, compiled: seq<Route>, injected: Levels, levels: Levels)
    requires SortedFrom(sorted, compiled) && Connects(injected, sorted)
    requires (forall p | p in injected :: injected[p].Finite?)
    requires Connects(injected, compiled) && Solves(injected, compiled, levels)
    ensures levels == Pass(injected, sorted)
  {
    var order :| Distinct(order) && Topological(Edges(compiled), order) && sorted == ByRank(compiled, RankOf(order));
    SortedIsSourcesFirst(sorted, compiled);
    ByRankPermutes(compiled, RankOf(order));
    TopologicalClimbs(compiled, order);
    PassSolves(injected, sorted);
    SolutionPermutes(injected, compiled, sorted, Pass(injected, sorted));
    SolutionIsUnique(injected, compiled, RankOf(order), levels, Pass(injected, sorted));
  }

  // ---------------------------------------------------------------- blocks

  /** Where a channel's sample of one frame sits in its bus's interleaved buffer. */
  function CellOf(frame: nat, channel: nat, channels: nat): nat {
    frame * channels + channel
  }

  lemma CellInside(frame: nat, channel: nat, frames: nat, channels: nat)
    requires frame < frames && channel < channels
    ensures CellOf(frame, channel, channels) < frames * channels
  {
    assert (frame + 1) * channels <= frames * channels;
  }

  lemma CellsApart(frame: nat, channel: nat, laterFrame: nat, laterChannel: nat, channels: nat)
    requires channel < channels && frame < laterFrame
    ensures CellOf(frame, channel, channels) < CellOf(laterFrame, laterChannel, channels)
  {
    assert (frame + 1) * channels <= laterFrame * channels;
  }

  lemma CellUnique(frame: nat, channel: nat, otherFrame: nat, otherChannel: nat, channels: nat)
    requires channel < channels && otherChannel < channels
    ensures CellOf(frame, channel, channels) == CellOf(otherFrame, otherChannel, channels)
            <==> frame == otherFrame && channel == otherChannel
  {
    if frame < otherFrame {
      CellsApart(frame, channel, otherFrame, otherChannel, channels);
    } else if otherFrame < frame {
      CellsApart(otherFrame, otherChannel, frame, channel, channels);
    }
  }

  lemma ActiveFits(active: nat, frames: nat, channels: nat)
    requires active <= frames
    ensures active * channels <= frames * channels
  {
  }

  /** The cells of the active frames come before all the others. */
  lemma ActiveCell(frame: nat, channel: nat, active: nat, channels: nat)
    requires channel < channels
    ensures CellOf(frame, channel, channels) < active * channels <==> frame < active
  {
    if frame < active {
      CellInside(frame, channel, active, channels);
    } else {
      ActiveFits(active, frame, channels);
    }
  }

  ghost predicate Shaped(buses: seq<BusDefinition>, frames: nat, blocks: seq<seq<Float>>) {
    && |blocks| == |buses|
    && forall b | 0 <= b < |buses| :: |blocks[b]| == frames * buses[b].channelCount
  }

  ghost function Ports(buses: seq<BusDefinition>): set<Port> {
    set b, c | 0 <= b < |buses| && 0 <= c < buses[b].channelCount :: Port(b, c)
  }

  ghost function LevelAt(buses: seq<BusDefinition>, frames: nat, blocks: seq<seq<Float>>, frame: nat, p: Port): Float
    requires Shaped(buses, frames, blocks) && frame < frames && p in Ports(buses)
  {
    CellInside(frame, p.channel, frames, buses[p.bus].channelCount);
    blocks[p.bus][CellOf(frame, p.channel, buses[p.bus].channelCount)]
  }

  /** One frame across all buses. */
  ghost function Frame(buses: seq<BusDefinition>, frames: nat, blocks: seq<seq<Float>>, frame: nat): Levels
    requires Shaped(buses, frames, blocks) && frame < frames
  {
    map p | p in Ports(buses) :: LevelAt(buses, frames, blocks, frame, p)
  }

  /** Writing one sample changes one port of one frame. */
  lemma FrameUpdate(buses: seq<BusDefinition>, frames: nat, blocks: seq<seq<Float>>, after: seq<seq<Float>>,
                    p: Port, frame: nat, sample: Float, other: nat)
    requires Shaped(buses, frames, blocks) && frame < frames && other < frames && p in Ports(buses)
    requires CellOf(frame, p.channel, buses[p.bus].channelCount) < |blocks[p.bus]|
    requires after == blocks[p.bus := blocks[p.bus][CellOf(frame, p.channel, buses[p.bus].channelCount) := sample]]
    ensures Shaped(buses, frames, after)
    ensures Frame(buses, frames, after, other) ==
            if other == frame then Frame(buses, frames, blocks, frame)[p := sample]
            else Frame(buses, frames, blocks, other)
  {
    hide CellOf;
    forall q | q in Ports(buses)
      ensures LevelAt(buses, frames, after, other, q) ==
              if other == frame && q == p then sample else LevelAt(buses, frames, blocks, other, q)
    {
      CellInside(other, q.channel, frames, buses[q.bus].channelCount);
      if q.bus == p.bus {
        var channels := buses[p.bus].channelCount;
        CellUnique(other, q.channel, frame, p.channel, channels);
      }
    }
  }

  ghost function Silenced(block: seq<Float>, active: nat): seq<Float> {
    seq(|block|, (i: nat) requires i < |block| => if i < active then Finite(0.0) else block[i])
  }

  ghost predicate SilencedUpTo(buses: seq<BusDefinition>, frames: nat, active: nat, was: seq<seq<Float>>,
                               blocks: seq<seq<Float>>, count: nat)
  {
    && Shaped(buses, frames, was) && Shaped(buses, frames, blocks)
    && forall b | 0 <= b < |buses| ::
         blocks[b] == if b < count then Silenced(was[b], active * buses[b].channelCount) else was[b]
  }

  lemma SilencedLevel(buses: seq<BusDefinition>, frames: nat, active: nat, was: seq<seq<Float>>,
                      blocks: seq<seq<Float>>, frame: nat, p: Port)
    requires SilencedUpTo(buses, frames, active, was, blocks, |buses|) && frame < frames && p in Ports(buses)
    ensures LevelAt(buses, frames, blocks, frame, p) ==
            if frame < active then Finite(0.0) else LevelAt(buses, frames, was, frame, p)
  {
    var channels := buses[p.bus].channelCount;
    CellInside(frame, p.channel, frames, channels);
    ActiveCell(frame, p.channel, active, channels);
  }

  datatype Outcome = Rejected(reason: Rejection) | Built(graph: Graph)

  class Graph {
    const maximumFrames: nat
    const buses: seq<BusDefinition>
    const routes: seq<Route>
    const buffers: seq<array<Float>>
    var currentFrames: nat

    ghost predicate Sized() {
      && |buffers| == |buses|
      && (forall b | 0 <= b < |buses| :: buffers[b].Length == maximumFrames * buses[b].channelCount)
      && (forall a, b | 0 <= a < b < |buses| :: buffers[a] != buffers[b])
    }

    ghost predicate Valid()
      reads this
    {
      && Sized() && currentFrames <= maximumFrames
      && SourcesFirst(routes)
      && forall r | r in routes :: r.source in Ports(buses) && r.destination in Ports(buses)
    }

    ghost function Blocks(): (blocks: seq<seq<Float>>)
      reads buffers
    {
      seq(|buffers|, (b: nat) requires b < |buffers| reads buffers => buffers[b][..])
    }

    /** One frame of the buffers. */
    ghost function Heard(frame: nat): (levels: Levels)
      requires Sized() && frame < maximumFrames
      reads buffers
      ensures levels.Keys == Ports(buses)
    {
      Frame(buses, maximumFrames, Blocks(), frame)
    }

    constructor (maximumFrames: nat, buses: seq<BusDefinition>, routes: seq<Route>, buffers: seq<array<Float>>)
      ensures this.maximumFrames == maximumFrames && this.buses == buses
      ensures this.routes == routes && this.buffers == buffers && currentFrames == 0
    {
      this.maximumFrames, this.buses, this.routes, this.buffers := maximumFrames, buses, routes, buffers;
      currentFrames := 0;
    }

    /** Silences the active frames of one bus. */
    method ZeroBus(bus: nat, active: nat)
      requires Sized() && bus < |buses| && active <= buffers[bus].Length
      modifies buffers[bus]
      ensures Blocks() == old(Blocks())[bus := Silenced(old(Blocks())[bus], active)]
    {
      ghost var was := buffers[bus][..];
      for i := 0 to active
        invariant buffers[bus][..] == Silenced(was, i)
      {
        buffers[bus][i] := Finite(0.0);
      }
      forall b | 0 <= b < |buses| && b != bus ensures buffers[b] != buffers[bus] {
        if b < bus { assert buffers[b] != buffers[bus]; } else { assert buffers[bus] != buffers[b]; }
      }
    }

    /** Active frames start silent on every bus; frames beyond them are left alone. */
    method BeginBlock(frameCount: nat) returns (fits: bool)
      requires Valid()
      modifies this, buffers
      ensures Valid() && (fits <==> frameCount <= maximumFrames)
      ensures currentFrames == if frameCount < maximumFrames then frameCount else maximumFrames
      ensures forall g: nat, p | g < maximumFrames && p in Ports(buses) ::
                Heard(g)[p] == if g < currentFrames then Finite(0.0) else old(Heard(g)[p])
    {
      hide SourcesFirst, Silenced;
      currentFrames := if frameCount < maximumFrames then frameCount else maximumFrames;
      ghost var was := Blocks();
      for b := 0 to |buses|
        modifies buffers
        invariant SilencedUpTo(buses, maximumFrames, currentFrames, was, Blocks(), b)
      {
        ActiveFits(currentFrames, maximumFrames, buses[b].channelCount);
        ZeroBus(b, currentFrames * buses[b].channelCount);
      }
      forall g: nat, p | g < maximumFrames && p in Ports(buses)
        ensures Heard(g)[p] == if g < currentFrames then Finite(0.0) else LevelAt(buses, maximumFrames, was, g, p)
      {
        SilencedLevel(buses, maximumFrames, currentFrames, was, Blocks(), g, p);
      }
      fits := frameCount <= maximumFrames;
    }

    /** Mixes one sample of one route, in place. */
    method MixSample(r: Route, frame: nat)
      requires Sized() && frame < maximumFrames && r.source in Ports(buses) && r.destination in Ports(buses)
      modifies buffers[r.destination.bus]
      ensures forall g: nat | g < maximumFrames ::
                Heard(g) == if g == frame then Apply(old(Heard(g)), r) else old(Heard(g))
    {
      ghost var was := Blocks();
      var from, to := r.source, r.destination;
      CellInside(frame, from.channel, maximumFrames, buses[from.bus].channelCount);
      CellInside(frame, to.channel, maximumFrames, buses[to.bus].channelCount);
      var cell := CellOf(frame, to.channel, buses[to.bus].channelCount);
      var sourceSample := buffers[from.bus][CellOf(frame, from.channel, buses[from.bus].channelCount)];
      var mixed := Mixed(buffers[to.bus][cell], sourceSample, r.gain);
      buffers[to.bus][cell] := mixed;
      forall b | 0 <= b < |buses| && b != to.bus ensures buffers[b] != buffers[to.bus] {
        if b < to.bus { assert buffers[b] != buffers[to.bus]; } else { assert buffers[to.bus] != buffers[b]; }
      }
      assert Blocks() == was[to.bus := was[to.bus][cell := mixed]];
      forall g: nat | g < maximumFrames
        ensures Heard(g) == if g == frame then Apply(Frame(buses, maximumFrames, was, g), r)
                            else Frame(buses, maximumFrames, was, g)
      {
        FrameUpdate(buses, maximumFrames, was, Blocks(), to, frame, mixed, g);
      }
    }

    /** Mixes one route over the active frames, in place. */
    method MixRoute(r: Route)
      requires Valid() && r in routes
      modifies buffers
      ensures forall g: nat | g < maximumFrames ::
                && r.source in old(Heard(g)) && r.destination in old(Heard(g))
                && Heard(g) == if g < currentFrames then Apply(old(Heard(g)), r) else old(Heard(g))
    {
      hide SourcesFirst;
      for frame := 0 to currentFrames
        modifies buffers
        invariant forall g: nat | g < maximumFrames ::
                    && r.source in old(Heard(g)) && r.destination in old(Heard(g))
                    && Heard(g) == if g < frame then Apply(old(Heard(g)), r) else old(Heard(g))
      {
        MixSample(r, frame);
      }
    }

    /** Mixes every route in compiled order: each active frame becomes the solution of its own equations. */
    method ProcessRoutes()
      requires Valid()
      modifies buffers
      ensures Valid()
      ensures forall g: nat | g < maximumFrames ::
                && Connects(old(Heard(g)), routes)
                && Heard(g) == if g < currentFrames then Pass(old(Heard(g)), routes) else old(Heard(g))
      ensures forall g: nat | g < currentFrames :: Solves(old(Heard(g)), routes, Heard(g))
    {
      hide SourcesFirst;
      for k := 0 to |routes|
        modifies buffers
        invariant forall g: nat | g < maximumFrames ::
                    && Connects(old(Heard(g)), routes[..k])
                    && Heard(g) == if g < currentFrames then Pass(old(Heard(g)), routes[..k]) else old(Heard(g))
      {
        MixRoute(routes[k]);
        forall g: nat | g < maximumFrames
          ensures Connects(old(Heard(g)), routes[..k + 1])
          ensures g < currentFrames ==> Heard(g) == Pass(old(Heard(g)), routes[..k + 1])
        {
          assert routes[..k + 1] == routes[..k] + [routes[k]];
          PassAppends(old(Heard(g)), routes[..k], routes[k]);
        }
      }
      assert routes[..|routes|] == routes;
      forall g: nat | g < currentFrames ensures Solves(old(Heard(g)), routes, Heard(g)) {
        PassSolves(old(Heard(g)), routes);
      }
    }
  }

  /** The storage for the buses, or why they are refused. */
  method AllocateBuses(purpose: Purpose, maximumFrames: nat, buses: seq<BusDefinition>)
    returns (fault: seq<Rejection>, buffers: seq<array<Float>>)
    requires maximumFrames > 0
    ensures |fault| <= 1
    ensures fault == [] <==> BusesFine(purpose, maximumFrames, buses)
    ensures fault != [] ==> forall routes :: Explains(fault[0], purpose, maximumFrames, buses, routes)
    ensures fault == [] ==> |buffers| == |buses|
    ensures forall b | 0 <= b < |buffers| :: fresh(buffers[b])
    ensures fault == [] ==> forall b | 0 <= b < |buses| :: buffers[b].Length == maximumFrames * buses[b].channelCount
    ensures forall b, i | 0 <= b < |buffers| && 0 <= i < buffers[b].Length :: buffers[b][i] == Finite(0.0)
    ensures forall a, b | 0 <= a < b < |buffers| :: buffers[a] != buffers[b]
  {
    fault, buffers := [], [];
    for k := 0 to |buses|
      invariant fault == [] && |buffers| == k && BusesFine(purpose, maximumFrames, buses[..k])
      invariant forall b | 0 <= b < k :: fresh(buffers[b]) && buffers[b].Length == maximumFrames * buses[b].channelCount
      invariant forall b, i | 0 <= b < k && 0 <= i < buffers[b].Length :: buffers[b][i] == Finite(0.0)
      invariant forall a, b | 0 <= a < b < k :: buffers[a] != buffers[b]
    {
      FinePrefix(purpose, maximumFrames, buses, k);
      if !BusSound(maximumFrames, buses[..k], buses[k]) {
        fault := [BusInvalid];
        return;
      }
      if !BusPermitted(purpose, buses[k]) {
        fault := [NetworkBusInSoundcheck];
        return;
      }
      var samples := new Float[maximumFrames * buses[k].channelCount](_ => Finite(0.0));
      buffers := buffers + [samples];
    }
    assert buses[..|buses|] == buses;
  }

  lemma FinePrefix(purpose: Purpose, maximumFrames: nat, buses: seq<BusDefinition>, k: nat)
    requires k < |buses| && BusesFine(purpose, maximumFrames, buses[..k])
    ensures var fits := BusSound(maximumFrames, buses[..k], buses[k]) && BusPermitted(purpose, buses[k]);
            && (fits ==> BusesFine(purpose, maximumFrames, buses[..k + 1]))
            && (BusesFine(purpose, maximumFrames, buses) ==> fits)
  {
    var next := buses[..k + 1];
    assert forall j | 0 <= j < k :: next[j] == buses[..k][j] && next[..j] == buses[..k][..j];
    assert next[..k] == buses[..k] && next[k] == buses[k];
  }

  /** Routes by bus index, unless one of them is refused. */
  method CompileRoutes(buses: seq<BusDefinition>, routes: seq<RouteDefinition>) returns (sound: bool, compiled: seq<Route>)
    ensures sound <==> RoutesFine(buses, routes)
    ensures sound ==> compiled == Compiled(buses, routes)
  {
    compiled := [];
    for k := 0 to |routes|
      invariant RoutesFine(buses, routes[..k]) && compiled == Compiled(buses, routes[..k])
    {
      if !RouteSound(buses, routes[k]) {
        return false, compiled;
      }
      assert routes[..k + 1] == routes[..k] + [routes[k]];
      compiled := compiled + [CompiledRoute(buses, routes[k])];
    }
    assert routes[..|routes|] == routes;
    sound := true;
  }

  lemma CompiledInside(buses: seq<BusDefinition>, routes: seq<RouteDefinition>)
    requires RoutesFine(buses, routes)
    ensures Within(Edges(Compiled(buses, routes)), |buses|)
    ensures forall r | r in Compiled(buses, routes) :: r.source in Ports(buses) && r.destination in Ports(buses)
  {
  }

  /** The constructor: a graph exactly when the definitions are valid and no routes form a cycle,
      otherwise the first check that fails. */
  method Build(purpose: Purpose, maximumFrames: nat, buses: seq<BusDefinition>, routes: seq<RouteDefinition>)
    returns (result: Outcome)
    ensures result.Built? <==> Buildable(purpose, maximumFrames, buses, routes)
    ensures result.Rejected? ==> Explains(result.reason, purpose, maximumFrames, buses, routes)
    ensures result.Built? ==>
              var g := result.graph;
              && fresh(g) && g.Valid() && (forall b | 0 <= b < |g.buffers| :: fresh(g.buffers[b]))
              && g.maximumFrames == maximumFrames && g.buses == buses && g.currentFrames == 0
              && SortedFrom(g.routes, Compiled(buses, routes))
              && (forall f: nat, p | f < maximumFrames && p in Ports(buses) :: g.Heard(f)[p] == Finite(0.0))
  {
    if maximumFrames == 0 || buses == [] {
      return Rejected(NoFramesOrBuses);
    }
    var fault, buffers := AllocateBuses(purpose, maximumFrames, buses);
    if fault != [] {
      return Rejected(fault[0]);
    }
    var sound, compiled := CompileRoutes(buses, routes);
    if !sound {
      return Rejected(RouteInvalid);
    }
    CompiledInside(buses, routes);
    var order := Order(|buses|, Edges(compiled));
    if |order| != |buses| {
      return Rejected(RouteCycle);
    }
    var sorted := ByRank(compiled, RankOf(order));
    assert SortedFrom(sorted, compiled);
    SortedIsSourcesFirst(sorted, compiled);
    var graph := new Graph(maximumFrames, buses, sorted, buffers);
    forall f: nat, p | f < maximumFrames && p in Ports(buses) ensures graph.Heard(f)[p] == Finite(0.0) {
      CellInside(f, p.channel, maximumFrames, buses[p.bus].channelCount);
    }
    result := Built(graph);
  }
}
