/** The directory's sliding-window rate limit: a pruned queue of accepted times for each peer, which
    decides as the peer's whole history would. */
module RateWindow {
  import opened FiniteSets

  const WINDOW: real := 60.0

  function Pruned(window: seq<real>, now: real): (kept: seq<real>)
    ensures |kept| <= |window|
  {
    if window != [] && window[0] < now - WINDOW then Pruned(window[1..], now) else window
  }

  datatype Answer = Answer(allowed: bool, window: seq<real>)

  function Ask(window: seq<real>, now: real, limit: nat): Answer {
    var kept := Pruned(window, now);
    if |kept| >= limit then Answer(false, kept) else Answer(true, kept + [now])
  }

  // ---------------------------------------------------------------- the table

  type Windows = map<string, seq<real>>

  /** A peer seen for the first time starts with an empty window. */
  function WindowOf(windows: Windows, peer: string): seq<real> {
    if peer in windows then windows[peer] else []
  }

  function AskFor(windows: Windows, peer: string, now: real, limit: nat): Windows {
    windows[peer := Ask(WindowOf(windows, peer), now, limit).window]
  }

  /** Every window pruned, and the empty ones forgotten. */
  function ExpireAll(windows: Windows, now: real): Windows {
    map peer | peer in windows && Pruned(windows[peer], now) != [] :: Pruned(windows[peer], now)
  }

  // ---------------------------------------------------------------- whole histories

  /** Acceptances no older than the window. */
  function Recent(history: seq<real>, now: real): set<nat> {
    set k: nat | k < |history| && history[k] >= now - WINDOW
  }

  ghost predicate Ascending(history: seq<real>) {
    forall i, j | 0 <= i <= j < |history| :: history[i] <= history[j]
  }

  /** No acceptance is later than the clock. */
  ghost predicate UpTo(history: seq<real>, clock: real) {
    forall k | 0 <= k < |history| :: history[k] <= clock
  }

  /** The queue is the end of the history, and what it no longer holds is out of the window for good. */
  ghost predicate Tracks(window: seq<real>, history: seq<real>, clock: real) {
    && Ascending(history) && UpTo(history, clock) && |window| <= |history|
    && window == history[|history| - |window|..]
    && forall k | 0 <= k < |history| - |window| :: history[k] < clock - WINDOW
  }

  /** So no closed interval as long as the window holds more than `limit` of them. */
  ghost predicate Spaced(history: seq<real>, limit: nat) {
    forall i, j | 0 <= i && j == i + limit && j < |history| :: history[j] - history[i] > WINDOW
  }

  lemma TracksLater(window: seq<real>, history: seq<real>, clock: real, now: real)
    requires Tracks(window, history, clock) && clock <= now
    ensures Tracks(window, history, now)
  {
  }

  lemma {:induction false} PrunedTracks(window: seq<real>, history: seq<real>, now: real)
    requires Tracks(window, history, now)
    ensures var kept := Pruned(window, now);
            Tracks(kept, history, now) && (kept != [] ==> kept[0] >= now - WINDOW)
    decreases |window|
  {
    if window != [] && window[0] < now - WINDOW {
      var cut := |history| - |window|;
      assert history[cut..][1..] == history[cut + 1..] && history[cut..][0] == history[cut];
      PrunedTracks(window[1..], history, now);
    }
  }

  function Range(low: nat, high: nat): set<nat> {
    set k: nat | k < high && InRange(low, k, high)
  }

  predicate InRange(low: nat, k: nat, high: nat) {
    low <= k < high
  }

  lemma {:induction false} RangeSize(low: nat, high: nat)
    requires low <= high
    ensures |Range(low, high)| == high - low
    decreases high
  {
    if low < high {
      RangeSize(low, high - 1);
      assert Range(low, high) == Range(low, high - 1) + {high - 1};
    } else {
      assert Range(low, high) == {};
    }
  }

  /** What a pruned queue still holds is exactly what is in the window. */
  lemma RecentIsKept(kept: seq<real>, history: seq<real>, now: real)
    requires Tracks(kept, history, now) && (kept != [] ==> kept[0] >= now - WINDOW)
    ensures |Recent(history, now)| == |kept|
  {
    var cut := |history| - |kept|;
    assert kept != [] ==> kept[0] == history[cut];
    forall k: nat | k < |history| ensures history[k] >= now - WINDOW <==> k >= cut {
      if k >= cut { assert history[cut] <= history[k]; }
    }
    assert Recent(history, now) == Range(cut, |history|);
    RangeSize(cut, |history|);
  }

  function Accepted(history: seq<real>, now: real, allowed: bool): seq<real> {
    if allowed then history + [now] else history
  }

  /** One question: the queue decides as the whole history would, and goes on tracking it. */
  lemma AskDecides(window: seq<real>, history: seq<real>, clock: real, now: real, limit: nat)
    requires Tracks(window, history, clock) && clock <= now && Spaced(history, limit)
    ensures var answer := Ask(window, now, limit);
            && (answer.allowed <==> |Recent(history, now)| < limit)
            && Tracks(answer.window, Accepted(history, now, answer.allowed), now)
            && Spaced(Accepted(history, now, answer.allowed), limit)
  {
    TracksLater(window, history, clock, now);
    PrunedTracks(window, history, now);
    var kept := Pruned(window, now);
    RecentIsKept(kept, history, now);
    hide Recent, Pruned, Tracks, Spaced;
    if |kept| < limit {
      AppendTracks(kept, history, now);
      AppendSpaced(kept, history, now, limit);
    }
  }

  lemma AppendTracks(kept: seq<real>, history: seq<real>, now: real)
    requires Tracks(kept, history, now)
    ensures Tracks(kept + [now], history + [now], now)
  {
    var cut := |history| - |kept|;
    assert (history + [now])[cut..] == history[cut..] + [now];
  }

  lemma AppendSpaced(kept: seq<real>, history: seq<real>, now: real, limit: nat)
    requires Tracks(kept, history, now) && Spaced(history, limit) && |kept| < limit
    ensures Spaced(history + [now], limit)
  {
    var longer := history + [now];
    forall i, j | 0 <= i && j == i + limit && j < |longer| ensures longer[j] - longer[i] > WINDOW {
      if j == |history| {
        assert history[i] < now - WINDOW;
      }
    }
  }

  lemma {:induction false} Least(s: set<nat>) returns (least: nat)
    requires s != {}
    ensures least in s && forall k | k in s :: least <= k
    decreases |s|
  {
    var x :| x in s;
    if s == {x} {
      least := x;
    } else {
      var rest := Least(s - {x});
      least := if rest < x then rest else x;
      forall k | k in s ensures least <= k {
        assert k == x || k in s - {x};
      }
    }
  }

  lemma InOrder(history: seq<real>, j: nat, k: nat)
    requires Ascending(history)
    ensures j <= k < |history| ==> history[j] <= history[k]
  {
  }

  /** No closed interval as long as the window holds more than the limit. */
  lemma NoBurst(history: seq<real>, limit: nat, start: real)
    requires Ascending(history) && Spaced(history, limit)
    ensures |set k: nat | k < |history| && start <= history[k] <= start + WINDOW| <= limit
  {
    var inside := set k: nat | k < |history| && start <= history[k] <= start + WINDOW;
    if inside != {} {
      var least := Least(inside);
      forall k | k in inside ensures k < least + limit {
        var j := least + limit;
        assert j < |history| ==> history[j] - history[least] > WINDOW;
        InOrder(history, j, k);
      }
      RangeSize(least, least + limit);
      Contained(inside, Range(least, least + limit));
    }
  }

  // ---------------------------------------------------------------- whole runs

  datatype Op = Question(peer: string, now: real) | Sweep(now: real)

  /** A clock that never goes back. */
  predicate Forward(clock: real, ops: seq<Op>)
    decreases |ops|
  {
    ops == [] || (clock <= ops[0].now && Forward(ops[0].now, ops[1..]))
  }

  /** The answers the queues give. */
  function Answers(windows: Windows, ops: seq<Op>, limit: nat): seq<bool>
    decreases |ops|
  {
    if ops == [] then []
    else
      match ops[0]
      case Question(peer, now) =>
        [Ask(WindowOf(windows, peer), now, limit).allowed] + Answers(AskFor(windows, peer, now, limit), ops[1..], limit)
      case Sweep(now) => Answers(ExpireAll(windows, now), ops[1..], limit)
  }

  /** Reference: every acceptance is remembered for ever, and nothing is swept. */
  ghost function Remembered(histories: Windows, op: Op, limit: nat): Windows {
    match op
    case Question(peer, now) =>
      var history := WindowOf(histories, peer);
      histories[peer := Accepted(history, now, |Recent(history, now)| < limit)]
    case Sweep(_) => histories
  }

  ghost function ReferenceAnswers(histories: Windows, ops: seq<Op>, limit: nat): seq<bool>
    decreases |ops|
  {
    if ops == [] then []
    else
      (if ops[0].Question? then [|Recent(WindowOf(histories, ops[0].peer), ops[0].now)| < limit] else [])
      + ReferenceAnswers(Remembered(histories, ops[0], limit), ops[1..], limit)
  }

  ghost function RememberAll(histories: Windows, ops: seq<Op>, limit: nat): Windows
    decreases |ops|
  {
    if ops == [] then histories else RememberAll(Remembered(histories, ops[0], limit), ops[1..], limit)
  }

  ghost predicate AllTracked(windows: Windows, histories: Windows, clock: real, limit: nat) {
    forall peer :: Tracks(WindowOf(windows, peer), WindowOf(histories, peer), clock)
                   && Spaced(WindowOf(histories, peer), limit)
  }

  lemma QuestionTracks(windows: Windows, histories: Windows, clock: real, peer: string, now: real, limit: nat)
    requires AllTracked(windows, histories, clock, limit) && clock <= now
    ensures AllTracked(AskFor(windows, peer, now, limit), Remembered(histories, Question(peer, now), limit), now, limit)
    ensures Ask(WindowOf(windows, peer), now, limit).allowed <==> |Recent(WindowOf(histories, peer), now)| < limit
  {
    hide Tracks, Spaced, Recent, Ask;
    AskDecides(WindowOf(windows, peer), WindowOf(histories, peer), clock, now, limit);
    var after, remembered := AskFor(windows, peer, now, limit), Remembered(histories, Question(peer, now), limit);
    forall other
      ensures Tracks(WindowOf(after, other), WindowOf(remembered, other), now) && Spaced(WindowOf(remembered, other), limit)
    {
      assert Tracks(WindowOf(windows, other), WindowOf(histories, other), clock);
      if other != peer {
        assert WindowOf(after, other) == WindowOf(windows, other);
        assert WindowOf(remembered, other) == WindowOf(histories, other);
        TracksLater(WindowOf(windows, other), WindowOf(histories, other), clock, now);
      }
    }
  }

  lemma SweepTracks(windows: Windows, histories: Windows, clock: real, now: real, limit: nat)
    requires AllTracked(windows, histories, clock, limit) && clock <= now
    ensures AllTracked(ExpireAll(windows, now), histories, now, limit)
  {
    hide Tracks, Spaced;
    forall peer ensures Tracks(WindowOf(ExpireAll(windows, now), peer), WindowOf(histories, peer), now) {
      TracksLater(WindowOf(windows, peer), WindowOf(histories, peer), clock, now);
      PrunedTracks(WindowOf(windows, peer), WindowOf(histories, peer), now);
      assert Pruned(WindowOf(windows, peer), now) == WindowOf(ExpireAll(windows, now), peer);
    }
  }

  /** Over any run on a forward clock, with sweeps anywhere in it, the pruned queues answer every question
      as unpruned histories would, and keep the histories within the limit. */
  lemma {:induction false} QueuesDecideLikeHistories(windows: Windows, histories: Windows, clock: real, ops: seq<Op>,
                                                     limit: nat)
    requires AllTracked(windows, histories, clock, limit) && Forward(clock, ops)
    ensures Answers(windows, ops, limit) == ReferenceAnswers(histories, ops, limit)
    ensures forall peer :: var history := WindowOf(RememberAll(histories, ops, limit), peer);
                           Ascending(history) && Spaced(history, limit)
    decreases |ops|
  {
    if ops == [] {
      assert forall peer :: Tracks(WindowOf(windows, peer), WindowOf(histories, peer), clock);
    } else {
      var next := Remembered(histories, ops[0], limit);
      match ops[0] {
        case Question(peer, now) =>
          QuestionTracks(windows, histories, clock, peer, now, limit);
          hide AllTracked, Remembered, Ask, AskFor, Spaced, Ascending;
          QueuesDecideLikeHistories(AskFor(windows, peer, now, limit), next, now, ops[1..], limit);
        case Sweep(now) =>
          SweepTracks(windows, histories, clock, now, limit);
          hide AllTracked, Remembered, ExpireAll, Spaced, Ascending;
          QueuesDecideLikeHistories(ExpireAll(windows, now), next, now, ops[1..], limit);
      }
    }
  }

  /** Starting from nothing, whatever is asked and swept: the answers are the reference's, and no peer is
      ever allowed more than `limit` times in a closed minute. */
  lemma LimitHolds(ops: seq<Op>, clock: real, limit: nat, peer: string, start: real)
    requires Forward(clock, ops)
    ensures Answers(map[], ops, limit) == ReferenceAnswers(map[], ops, limit)
    ensures var history := WindowOf(RememberAll(map[], ops, limit), peer);
            |set k: nat | k < |history| && start <= history[k] <= start + WINDOW| <= limit
  {
    QueuesDecideLikeHistories(map[], map[], clock, ops, limit);
    NoBurst(WindowOf(RememberAll(map[], ops, limit), peer), limit, start);
  }
}
