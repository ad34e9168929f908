/** The path-finding agent as an object: its candidate lists and its checklist, updated in place. */
module IceAgent {
  import opened StableSorting
  import opened IceChecklist

  lemma CrossGrows(local: seq<Candidate>, remote: seq<Candidate>, i: nat)
    requires i < |local|
    ensures Cross(local[..i + 1], remote) == Cross(local[..i], remote) + Row(local[i], remote)
  {
    assert local[..i + 1][..i] == local[..i];
  }

  class Agent {
    const settings: Settings
    var local: seq<Candidate>
    var remote: seq<Candidate>
    var pairs: seq<Pair>
    var startedAt: nat
    var started: bool
    /** Every probe sent since the checks began. */
    ghost var probes: seq<Probe>

    ghost function Value(): State
      reads this
    {
      State(local, remote, pairs, startedAt, started, probes)
    }

    constructor (settings: Settings)
      ensures this.settings == settings && Value() == Initial()
    {
      this.settings := settings;
      local, remote, pairs, startedAt, started, probes := [], [], [], 0, false, [];
    }

    method AddLocalCandidate(candidate: Candidate)
      modifies this`local
      ensures Value() == Perform(settings, old(Value()), AddLocal(candidate))
    {
      if !candidate.Valid() || candidate in local {
        return;
      }
      local := local + [candidate];
    }

    method AddRemoteCandidate(candidate: Candidate)
      modifies this`remote
      ensures Value() == Perform(settings, old(Value()), AddRemote(candidate))
    {
      if !candidate.Valid() || candidate in remote {
        return;
      }
      remote := remote + [candidate];
    }

    method BeginChecks(now: nat)
      modifies this
      ensures Value() == Perform(settings, old(Value()), Begin(now))
    {
      pairs := [];
      for i := 0 to |local|
        modifies this`pairs
        invariant pairs == Take(Cross(local[..i], remote), settings.maximumPairs)
      {
        PairUp(i);
      }
      assert local[..|local|] == local;
      pairs := Sort(pairs, Priority);
      startedAt, started := now, true;
      probes := [];
    }

    /** One local candidate against every remote one, until the list is full. */
    method PairUp(i: nat)
      requires i < |local| && pairs == Take(Cross(local[..i], remote), settings.maximumPairs)
      modifies this`pairs
      ensures pairs == Take(Cross(local[..i + 1], remote), settings.maximumPairs)
    {
      ghost var before, limit := Cross(local[..i], remote), settings.maximumPairs;
      CrossGrows(local, remote, i);
      assert before + Row(local[i], remote[..0]) == before;
      for j := 0 to |remote|
        modifies this`pairs
        invariant pairs == Take(before + Row(local[i], remote[..j]), limit)
      {
        assert before + Row(local[i], remote[..j]) + Row(local[i], remote)[j..] == before + Row(local[i], remote);
        if |pairs| >= settings.maximumPairs {
          return;
        }
        assert before + Row(local[i], remote[..j + 1]) == before + Row(local[i], remote[..j]) + [NewPair(local[i], remote[j])];
        pairs := pairs + [NewPair(local[i], remote[j])];
      }
      assert remote[..|remote|] == remote;
    }

    method IsExhausted(now: nat) returns (exhausted: bool)
      ensures exhausted == Exhausted(settings, Value(), now)
    {
      var connected := IsConnected();
      if !started || connected {
        return false;
      }
      exhausted := Elapsed(now, startedAt) >= settings.overallTimeout || pairs == []
                   || forall p | p in pairs :: GivenUp(settings, p);
    }

    method NextAction(now: nat) returns (action: Action)
      modifies this`pairs, this`probes
      ensures Outcome(Value(), action) == IceChecklist.NextAction(settings, old(Value()), now)
    {
      var connected := IsConnected();
      var exhausted := IsExhausted(now);
      if !started || connected || exhausted {
        return Nothing;
      }
      ghost var whole := Scan(settings, pairs, 0, now);
      for k := 0 to |pairs|
        invariant |pairs| == |old(pairs)| && Scan(settings, pairs, k, now) == whole && probes == old(probes)
        invariant forall i | 0 <= i < |pairs| :: pairs[i].probesSent == old(pairs)[i].probesSent
      {
        hide TooSoon, Probed, Connected, Exhausted;
        var p := pairs[k];
        if p.state == Succeeded || p.state == Failed {
          continue;
        }
        if p.probesSent >= settings.probesBeforeFailure {
          pairs := pairs[k := p.(state := Failed)];
          continue;
        }
        if TooSoon(settings, p, now) {
          continue;
        }
        pairs := pairs[k := Probed(p, now)];
        probes := probes + [Probe(k, p.probesSent, now)];
        ProbedKeepsCandidates(p, now);
        return SendProbe(p.remote, p.local);
      }
      action := Nothing;
    }

    lemma ProbedKeepsCandidates(p: Pair, now: nat)
      ensures Probed(p, now).remote == p.remote && Probed(p, now).local == p.local
    {
    }

    method OnProbeResponse(from: Candidate, now: nat)
      modifies this`pairs
      ensures Value() == IceChecklist.OnProbeResponse(old(Value()), from, now)
    {
      for k := 0 to |pairs|
        invariant |pairs| == |old(pairs)|
        invariant forall i | 0 <= i < |pairs| ::
                    pairs[i] == if i < k then Answered(old(pairs)[i], from, now) else old(pairs)[i]
      {
        var p := pairs[k];
        if p.remote == from && p.state != Failed && p.state != Succeeded {
          pairs := pairs[k := p.(state := Succeeded, responded := now)];
        }
      }
    }

    /** The best pair that answered, if any has. */
    method GetNominated() returns (best: seq<Pair>)
      ensures best == Nominated(pairs)
    {
      best := [];
      for k := 0 to |pairs|
        invariant best == Nominated(pairs[..k])
      {
        assert pairs[..k + 1][..k] == pairs[..k];
        if pairs[k].state == Succeeded && (best == [] || Priority(pairs[k]) < Priority(best[0])) {
          best := [pairs[k]];
        }
      }
      assert pairs[..|pairs|] == pairs;
    }

    method IsConnected() returns (connected: bool)
      ensures connected == Connected(pairs)
    {
      var best := GetNominated();
      NominatedIffConnected(pairs);
      connected := best != [];
    }

    method Reset()
      modifies this
      ensures Value() == Initial()
    {
      local, remote, pairs, startedAt, started, probes := [], [], [], 0, false, [];
    }
  }

  lemma {:induction false} NominatedIffConnected(pairs: seq<Pair>)
    ensures Nominated(pairs) != [] <==> Connected(pairs)
  {
    if pairs != [] {
      var front, last := pairs[..|pairs| - 1], pairs[|pairs| - 1];
      NominatedIffConnected(front);
      assert pairs == front + [last];
      assert last in pairs;
      assert forall p | p in front :: p in pairs;
    }
  }
}
