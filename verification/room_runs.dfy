/** Whole runs of a room: one host for ever, bounded and distinct participants, and resumes that restore
    exactly what a disconnect interrupted. */
module RoomRuns {
  import opened RoomModel

  datatype Op =
    | Request(id: string, displayName: string)
    | AdmitOne(actorId: string, id: string, role: Role)
    | DenyOne(actorId: string, id: string)
    | Promote(actorId: string, id: string, role: Role)
    | Configure(actorId: string, id: string, capability: Capability, enabled: bool)
    | Drop(id: string, resumeToken: string, expiresAt: nat)
    | Return(id: string, resumeToken: string, now: nat, replacement: string, replacementExpiresAt: nat)
    | Reap(now: nat)

  function Perform(s: State, op: Op): Outcome
    requires s.participants != []
  {
    match op
    case Request(id, name) => RequestAdmission(s, id, name)
    case AdmitOne(actor, id, role) => Admit(s, actor, id, role)
    case DenyOne(actor, id) => Deny(s, actor, id)
    case Promote(actor, id, role) => SetRole(s, actor, id, role)
    case Configure(actor, id, c, enabled) => SetCapability(s, actor, id, c, enabled)
    case Drop(id, token, at) => Disconnect(s, id, token, at)
    case Return(id, token, now, replacement, at) => Resume(s, id, token, now, replacement, at)
    case Reap(now) => Outcome(ReapInactive(s, now), true)
  }

  // ---------------------------------------------------------------- capability bits

  predicate Disjoint(bit: CapabilitySet, other: CapabilitySet) { bit & other == 0 }

  /** Different capabilities are different bits. */
  lemma BitsAreDistinct(c: Capability, d: Capability)
    requires c != d
    ensures Disjoint(CapabilityBit(c), CapabilityBit(d))
    ensures c != Count ==> CapabilityBit(c) != 0
  {
  }

  lemma DisjointBits(set_: CapabilitySet, bit: CapabilitySet, other: CapabilitySet)
    requires Disjoint(bit, other)
    ensures Test(With(set_, bit), other) <==> Test(set_, other)
    ensures Test(Without(set_, bit), other) <==> Test(set_, other)
  {
    OrOutside(set_, bit, other);
    AndNotOutside(set_, bit, other);
  }

  lemma OrOutside(x: bv32, bit: bv32, other: bv32)
    requires bit & other == 0
    ensures (x | bit) & other == x & other
  {
    assert (x | bit) & other == (x & other) | (bit & other);
  }

  lemma AndNotOutside(x: bv32, bit: bv32, other: bv32)
    requires bit & other == 0
    ensures (x & !bit) & other == x & other
  {
    assert (x & !bit) & other == (x & other) & !(bit & other);
  }

  lemma SameBit(set_: CapabilitySet, bit: CapabilitySet)
    requires bit != 0
    ensures Test(With(set_, bit), bit) && !Test(Without(set_, bit), bit)
  {
  }

  /** Granting or revoking a capability changes that one and no other. */
  lemma CapabilityAlgebra(set_: CapabilitySet, c: Capability, d: Capability)
    requires c != Count
    ensures Has(With(set_, CapabilityBit(c)), d) <==> d == c || Has(set_, d)
    ensures Has(Without(set_, CapabilityBit(c)), d) <==> d != c && Has(set_, d)
  {
    hide CapabilityBit, Test, With, Without, Disjoint;
    if d == c {
      BitsAreDistinct(c, Count);
      SameBit(set_, CapabilityBit(c));
    } else {
      BitsAreDistinct(c, d);
      DisjointBits(set_, CapabilityBit(c), CapabilityBit(d));
    }
  }

  /** The host holds every capability; no other role holds the right to end the room. */
  lemma RolesEndRoom(role: Role, c: Capability)
    ensures role != Host ==> !Has(RoleCapabilities(role), EndRoom)
    ensures c != Count ==> Has(RoleCapabilities(Host), c)
  {
  }

  // ---------------------------------------------------------------- invariant

  ghost predicate HostFirst(ps: seq<Participant>) {
    && ps != [] && ps[0].role == Host && ps[0].admission == Admitted && ps[0].capabilities == RoleCapabilities(Host)
    && forall k | 0 < k < |ps| :: ps[k].role != Host && !Has(ps[k].capabilities, EndRoom)
  }

  ghost predicate DistinctIds(ps: seq<Participant>) {
    forall i, j | 0 <= i < j < |ps| :: ps[i].id != ps[j].id
  }

  ghost predicate DistinctRevisions(ps: seq<Participant>, next: nat) {
    && (forall i, j | 0 <= i < j < |ps| :: ps[i].grantRevision != ps[j].grantRevision)
    && forall k | 0 <= k < |ps| :: ps[k].grantRevision < next
  }

  ghost predicate Invariant(s: State) {
    && 1 <= |s.participants| <= MAXIMUM_PARTICIPANTS
    && HostFirst(s.participants) && DistinctIds(s.participants) && DistinctRevisions(s.participants, s.nextRevision)
  }

  lemma StartSound(hostId: string, hostName: string)
    requires hostId != ""
    ensures Invariant(Start(hostId, hostName))
  {
  }

  /** `r` is `s` with one participant after the host changed, which now has the newest revision. */
  ghost predicate OneChanged(s: State, r: State, k: nat) {
    && 0 < k < |s.participants| && |r.participants| == |s.participants| && r.nextRevision == s.nextRevision + 1
    && r.participants == s.participants[k := r.participants[k]]
    && r.participants[k].id == s.participants[k].id
    && r.participants[k].grantRevision == s.nextRevision
    && r.participants[k].role != Host && !Has(r.participants[k].capabilities, EndRoom)
  }

  lemma OneChangedKeepsInvariant(s: State, r: State, k: nat)
    requires Invariant(s) && OneChanged(s, r, k)
    ensures Invariant(r)
  {
    hide Has, RoleCapabilities;
  }

  /** Every accepted decision about a participant changes that one alone, never the host, and gives it a
      revision above all others; a refused one changes nothing. */
  lemma DecisionsChangeOne(s: State, op: Op)
    requires Invariant(s) && !op.Request? && !op.Reap?
    ensures var r := Perform(s, op);
            var k := Find(s.participants, op.id);
            if r.accepted then OneChanged(s, r.state, k) else r.state == s
  {
    assert !Has(0, EndRoom);
    hide Has, RoleCapabilities, With, Without, CapabilityBit, DistinctIds, DistinctRevisions;
    var k := Find(s.participants, op.id);
    if op.Configure? && op.capability != Count && k < |s.participants| {
      CapabilityAlgebra(s.participants[k].capabilities, op.capability, EndRoom);
    }
    if op.AdmitOne? || op.Promote? { RolesEndRoom(op.role, EndRoom); }
  }

  lemma RemoveKeepsInvariant(ps: seq<Participant>, index: nat, next: nat)
    requires Invariant(State(ps, next))
    ensures Invariant(State(RemoveAt(ps, index), next))
  {
    hide Has, RoleCapabilities;
    var r := RemoveAt(ps, index);
    assert forall k | 0 <= k < |r| :: r[k] == if 0 < index <= k && index < |ps| then ps[k + 1] else ps[k];
  }

  lemma RequestKeepsInvariant(s: State, id: string, name: string)
    requires Invariant(s)
    ensures Invariant(RequestAdmission(s, id, name).state)
  {
    RemoveKeepsInvariant(s.participants, FirstDenied(s.participants, 1), s.nextRevision);
    hide Has, RoleCapabilities, RemoveAt;
  }

  /** The reaper's loop: past an active participant, or again at the place of one removed. */
  function ReapFrom(ps: seq<Participant>, index: nat, now: nat): seq<Participant>
    requires 0 < index <= |ps|
    decreases |ps| - index
  {
    if index == |ps| then ps
    else if Inactive(ps[index], now) then ReapFrom(RemoveAt(ps, index), index, now)
    else ReapFrom(ps, index + 1, now)
  }

  lemma {:induction false} ReapFromKeepsActive(ps: seq<Participant>, index: nat, now: nat)
    requires 0 < index <= |ps|
    ensures ReapFrom(ps, index, now) == ps[..index] + ActiveFrom(ps[index..], now)
    decreases |ps| - index
  {
    if index < |ps| {
      if Inactive(ps[index], now) {
        var removed := RemoveAt(ps, index);
        ReapFromKeepsActive(removed, index, now);
        assert removed[..index] == ps[..index] && removed[index..] == ps[index..][1..];
      } else {
        ReapFromKeepsActive(ps, index + 1, now);
        assert ps[index + 1..] == ps[index..][1..] && ps[..index + 1] == ps[..index] + [ps[index]];
      }
    }
  }

  lemma {:induction false} ReapFromKeepsInvariant(ps: seq<Participant>, index: nat, now: nat, next: nat)
    requires 0 < index <= |ps| && Invariant(State(ps, next))
    ensures Invariant(State(ReapFrom(ps, index, now), next))
    decreases |ps| - index
  {
    hide Invariant, RemoveAt;
    if index < |ps| {
      if Inactive(ps[index], now) {
        RemoveKeepsInvariant(ps, index, next);
        RemoveShortens(ps, index);
        ReapFromKeepsInvariant(RemoveAt(ps, index), index, now, next);
      } else {
        ReapFromKeepsInvariant(ps, index + 1, now, next);
      }
    }
  }

  lemma RemoveShortens(ps: seq<Participant>, index: nat)
    requires 0 < index < |ps|
    ensures |RemoveAt(ps, index)| == |ps| - 1
  {
  }

  lemma ReapKeepsInvariant(s: State, now: nat)
    requires Invariant(s)
    ensures Invariant(ReapInactive(s, now))
  {
    ReapFromKeepsActive(s.participants, 1, now);
    ReapFromKeepsInvariant(s.participants, 1, now, s.nextRevision);
    assert s.participants[..1] == [s.participants[0]];
    hide Invariant, ReapFrom, ActiveFrom;
  }

  lemma PerformKeepsInvariant(s: State, op: Op)
    requires Invariant(s)
    ensures Invariant(Perform(s, op).state)
    ensures Perform(s, op).state.participants != []
  {
    if op.Request? {
      RequestKeepsInvariant(s, op.id, op.displayName);
    } else if op.Reap? {
      ReapKeepsInvariant(s, op.now);
    } else {
      DecisionsChangeOne(s, op);
      if Perform(s, op).accepted {
        OneChangedKeepsInvariant(s, Perform(s, op).state, Find(s.participants, op.id));
      }
    }
  }

  // ---------------------------------------------------------------- whole runs

  function Run(s: State, ops: seq<Op>): (r: State)
    requires s.participants != []
    decreases |ops|
  {
    if ops == [] then s
    else
      KeepsSomebody(s, ops[0]);
      Run(Perform(s, ops[0]).state, ops[1..])
  }

  /** The host's own place is never touched. */
  lemma KeepsSomebody(s: State, op: Op)
    requires s.participants != []
    ensures Perform(s, op).state.participants != []
  {
    hide Has, RoleCapabilities, MayManageRole;
  }

  lemma PerformKeepsHost(s: State, op: Op)
    requires Invariant(s)
    ensures Perform(s, op).state.participants != [] && Perform(s, op).state.participants[0] == s.participants[0]
  {
    KeepsSomebody(s, op);
    if !op.Request? && !op.Reap? {
      DecisionsChangeOne(s, op);
      hide Perform;
    }
  }

  /** Over any run from any room with a host: at most twelve participants with distinct ids and distinct
      grant revisions; the host's entry never changes; nobody else is ever host or may end the room. */
  lemma {:induction false} RunKeepsInvariant(s: State, ops: seq<Op>)
    requires Invariant(s)
    ensures var r := Run(s, ops); Invariant(r) && r.participants[0] == s.participants[0]
    decreases |ops|
  {
    if ops != [] {
      PerformKeepsInvariant(s, ops[0]);
      PerformKeepsHost(s, ops[0]);
      hide Invariant, Perform;
      RunKeepsInvariant(Perform(s, ops[0]).state, ops[1..]);
    }
  }

  /** In every room a run can reach, ending the room is authorised for the host and for nobody else. */
  lemma OnlyTheHostEndsTheRoom(hostId: string, hostName: string, ops: seq<Op>, id: string)
    requires hostId != ""
    ensures Authorized(Run(Start(hostId, hostName), ops), id, EndRoom) <==> id == hostId
  {
    StartSound(hostId, hostName);
    RunKeepsInvariant(Start(hostId, hostName), ops);
    var r := Run(Start(hostId, hostName), ops);
    RolesEndRoom(Host, EndRoom);
    hide Has, RoleCapabilities, Run;
    var k := Find(r.participants, id);
  }

  /** A role is only ever given by the host or, below co-host, by an admitted co-host; and nobody manages
      themselves. */
  lemma OnlyManagersGiveRoles(s: State, op: Op)
    requires Invariant(s) && (op.AdmitOne? || op.Promote?) && Perform(s, op).accepted
    ensures var a, k := Find(s.participants, op.actorId), Find(s.participants, op.id);
            && a < |s.participants| && k < |s.participants| && a != k
            && s.participants[a].admission == Admitted
            && (a == 0 || (s.participants[a].role == CoHost && op.role != CoHost && s.participants[k].role != CoHost))
            && Perform(s, op).state.participants[k].role == op.role
            && Perform(s, op).state.participants[k].capabilities == RoleCapabilities(op.role)
  {
    hide Has, RoleCapabilities;
  }

  // ---------------------------------------------------------------- disconnects and resumes

  ghost predicate Away(s: State, id: string) {
    var k := Find(s.participants, id);
    k < |s.participants| && s.participants[k].admission == Disconnected
  }

  function Entry(s: State, id: string): Participant
    requires Find(s.participants, id) < |s.participants|
  {
    s.participants[Find(s.participants, id)]
  }

  predicate DropsOf(s: State, op: Op, id: string)
    requires s.participants != []
  {
    op.Drop? && op.id == id && Perform(s, op).accepted
  }

  predicate ReturnsOf(s: State, op: Op, id: string)
    requires s.participants != []
  {
    op.Return? && op.id == id && Perform(s, op).accepted
  }

  lemma {:induction false} FindIs(ps: seq<Participant>, k: nat)
    requires k < |ps| && DistinctIds(ps)
    ensures Find(ps, ps[k].id) == k
  {
  }

  /** Who is away after a removal was away before it, unchanged. */
  lemma RemoveKeepsAway(s: State, index: nat, id: string)
    requires DistinctIds(s.participants) && Away(s.(participants := RemoveAt(s.participants, index)), id)
    ensures Away(s, id) && Entry(s.(participants := RemoveAt(s.participants, index)), id) == Entry(s, id)
  {
    var ps, removed := s.participants, RemoveAt(s.participants, index);
    var k := Find(removed, id);
    var j := if 0 < index <= k && index < |ps| then k + 1 else k;
    assert removed[k] == ps[j];
    FindIs(ps, j);
  }

  lemma {:induction false} ReapKeepsAway(s: State, index: nat, now: nat, id: string)
    requires 0 < index <= |s.participants| && Invariant(s)
    requires Away(s.(participants := ReapFrom(s.participants, index, now)), id)
    ensures Away(s, id) && Entry(s.(participants := ReapFrom(s.participants, index, now)), id) == Entry(s, id)
    decreases |s.participants| - index
  {
    hide Invariant, Away, Entry, RemoveAt;
    var ps := s.participants;
    if index < |ps| {
      if Inactive(ps[index], now) {
        RemoveKeepsInvariant(ps, index, s.nextRevision);
        RemoveShortens(ps, index);
        ReapKeepsAway(s.(participants := RemoveAt(ps, index)), index, now, id);
        InvariantIsDistinct(s);
        RemoveKeepsAway(s, index, id);
      } else {
        ReapKeepsAway(s, index + 1, now, id);
      }
    }
  }

  lemma InvariantIsDistinct(s: State)
    requires Invariant(s)
    ensures DistinctIds(s.participants)
  {
  }

  lemma RequestKeepsAway(s: State, id: string, name: string, who: string)
    requires Invariant(s) && Away(RequestAdmission(s, id, name).state, who)
    ensures Away(s, who) && Entry(RequestAdmission(s, id, name).state, who) == Entry(s, who)
  {
    var index := FirstDenied(s.participants, 1);
    var kept := RemoveAt(s.participants, index);
    var r := RequestAdmission(s, id, name).state;
    var k := Find(r.participants, who);
    assert k < |kept| && r.participants[k] == kept[k];
    RemoveKeepsInvariant(s.participants, index, s.nextRevision);
    FindIs(kept, k);
    hide RemoveAt, RequestAdmission;
    RemoveKeepsAway(s, index, who);
  }

  lemma DecisionKeepsAway(s: State, op: Op, id: string)
    requires Invariant(s) && !op.Request? && !op.Reap? && !DropsOf(s, op, id)
    requires Away(Perform(s, op).state, id)
    ensures Away(s, id) && Entry(Perform(s, op).state, id) == Entry(s, id)
  {
    DecisionsChangeOne(s, op);
    var r := Perform(s, op);
    if r.accepted {
      var k := Find(s.participants, op.id);
      OneChangedKeepsInvariant(s, r.state, k);
      var j := Find(r.state.participants, id);
      FindIs(s.participants, j);
      if !op.Drop? { ChangedAdmission(s, op); }
    }
    hide Perform, Has, RoleCapabilities;
  }

  /** Only a disconnect leaves the participant it decides about disconnected. */
  lemma ChangedAdmission(s: State, op: Op)
    requires Invariant(s) && !op.Request? && !op.Reap? && Perform(s, op).accepted && !op.Drop?
    ensures var k := Find(s.participants, op.id);
            k < |s.participants| == |Perform(s, op).state.participants|
            && Perform(s, op).state.participants[k].admission != Disconnected
  {
    hide Has, RoleCapabilities, MayManageRole;
  }

  /** Being away is only ever the work of an accepted disconnect: anything else leaves an absent
      participant's entry alone, removes it, or brings the participant back. */
  lemma OnlyDisconnectsTakeAway(s: State, op: Op, id: string)
    requires Invariant(s) && !DropsOf(s, op, id) && Away(Perform(s, op).state, id)
    ensures Away(s, id) && Entry(Perform(s, op).state, id) == Entry(s, id)
  {
    match op
    case Request(other, name) => RequestKeepsAway(s, other, name, id);
    case Reap(now) =>
      ReapFromKeepsActive(s.participants, 1, now);
      assert s.participants[..1] == [s.participants[0]];
      hide Away, Entry, ReapFrom, ActiveFrom;
      ReapKeepsAway(s, 1, now, id);
    case _ => DecisionKeepsAway(s, op, id);
  }

  /** No accepted disconnect of `id` in a run. */
  predicate Undisturbed(s: State, ops: seq<Op>, id: string)
    requires s.participants != []
    decreases |ops|
  {
    ops == [] ||
    (KeepsSomebody(s, ops[0]);
     !DropsOf(s, ops[0], id) && Undisturbed(Perform(s, ops[0]).state, ops[1..], id))
  }

  lemma {:induction false} AwayIsKept(s: State, ops: seq<Op>, id: string)
    requires Invariant(s) && Undisturbed(s, ops, id) && Away(Run(s, ops), id)
    ensures Away(s, id) && Entry(Run(s, ops), id) == Entry(s, id)
    decreases |ops|
  {
    if ops != [] {
      var next := Perform(s, ops[0]).state;
      PerformKeepsInvariant(s, ops[0]);
      hide Invariant, Away, Entry, Perform, DropsOf;
      AwayIsKept(next, ops[1..], id);
      OnlyDisconnectsTakeAway(s, ops[0], id);
    }
  }

  /** A resume is accepted only with the token, and before the expiry, of the disconnect that took the
      participant away, however long ago; it restores the same role and capabilities. */
  lemma ResumeRestores(s: State, drop: Op, ops: seq<Op>, back: Op, id: string)
    requires Invariant(s) && DropsOf(s, drop, id)
    requires Undisturbed(Perform(s, drop).state, ops, id)
    requires Run(Perform(s, drop).state, ops).participants != []
    requires ReturnsOf(Run(Perform(s, drop).state, ops), back, id)
    ensures Find(s.participants, id) < |s.participants|
    ensures var now := Run(Perform(s, drop).state, ops);
            && Find(now.participants, id) < |now.participants|
            && Find(Perform(now, back).state.participants, id) < |Perform(now, back).state.participants|
    ensures var was := Entry(s, id);
            var now := Run(Perform(s, drop).state, ops);
            var restored := Entry(Perform(now, back).state, id);
            && back.resumeToken == drop.resumeToken && back.now < drop.expiresAt
            && restored.role == was.role && restored.capabilities == was.capabilities
            && restored.displayName == was.displayName && restored.admission == Admitted
            && restored.grantRevision > Entry(now, id).grantRevision
  {
    var gone := Perform(s, drop).state;
    PerformKeepsInvariant(s, drop);
    RunKeepsInvariant(gone, ops);
    var later := Run(gone, ops);
    assert Away(later, id);
    AwayIsKept(gone, ops, id);
    DroppedEntry(s, drop, id);
    hide Run, Perform;
    ReturnedEntry(later, back, id);
  }

  lemma DroppedEntry(s: State, drop: Op, id: string)
    requires Invariant(s) && DropsOf(s, drop, id)
    ensures Find(s.participants, id) < |s.participants|
    ensures Find(Perform(s, drop).state.participants, id) < |Perform(s, drop).state.participants|
    ensures Entry(Perform(s, drop).state, id) ==
            Entry(s, id).(admission := Disconnected, resumeToken := drop.resumeToken, resumeExpiresAt := drop.expiresAt,
                          grantRevision := s.nextRevision)
  {
    DecisionsChangeOne(s, drop);
    var k := Find(s.participants, id);
    OneChangedKeepsInvariant(s, Perform(s, drop).state, k);
    FindIs(Perform(s, drop).state.participants, k);
  }

  lemma ReturnedEntry(s: State, back: Op, id: string)
    requires Invariant(s) && ReturnsOf(s, back, id)
    ensures Find(s.participants, id) < |s.participants|
    ensures Find(Perform(s, back).state.participants, id) < |Perform(s, back).state.participants|
    ensures var was := Entry(s, id);
            && was.admission == Disconnected && was.resumeToken == back.resumeToken && back.now < was.resumeExpiresAt
            && Entry(Perform(s, back).state, id) ==
               was.(admission := Admitted, resumeToken := back.replacement, resumeExpiresAt := back.replacementExpiresAt,
                    grantRevision := s.nextRevision)
            && was.grantRevision < s.nextRevision
  {
    DecisionsChangeOne(s, back);
    var k := Find(s.participants, id);
    OneChangedKeepsInvariant(s, Perform(s, back).state, k);
    FindIs(Perform(s, back).state.participants, k);
  }

  function Returns(s: State, ops: seq<Op>, id: string): nat
    requires s.participants != []
    decreases |ops|
  {
    if ops == [] then 0
    else
      KeepsSomebody(s, ops[0]);
      (if ReturnsOf(s, ops[0], id) then 1 else 0) + Returns(Perform(s, ops[0]).state, ops[1..], id)
  }

  function Drops(s: State, ops: seq<Op>, id: string): nat
    requires s.participants != []
    decreases |ops|
  {
    if ops == [] then 0
    else
      KeepsSomebody(s, ops[0]);
      (if DropsOf(s, ops[0], id) then 1 else 0) + Drops(Perform(s, ops[0]).state, ops[1..], id)
  }

  lemma StepBalance(s: State, op: Op, id: string)
    requires Invariant(s)
    ensures var r := Perform(s, op).state;
            (if Away(r, id) then 1 else 0) + (if ReturnsOf(s, op, id) then 1 else 0)
            <= (if Away(s, id) then 1 else 0) + (if DropsOf(s, op, id) then 1 else 0)
  {
    if ReturnsOf(s, op, id) {
      ReturnedEntry(s, op, id);
    } else if Away(Perform(s, op).state, id) && !DropsOf(s, op, id) {
      OnlyDisconnectsTakeAway(s, op, id);
    }
    hide Invariant, Has, RoleCapabilities;
  }

  /** Each disconnect allows at most one resume: over any run there are never more resumes of a participant
      than disconnects, counting one it started with. */
  lemma {:induction false} ResumesNeverOutnumberDisconnects(s: State, ops: seq<Op>, id: string)
    requires Invariant(s)
    ensures Returns(s, ops, id) + (if Away(Run(s, ops), id) then 1 else 0)
            <= Drops(s, ops, id) + if Away(s, id) then 1 else 0
    decreases |ops|
  {
    if ops != [] {
      PerformKeepsInvariant(s, ops[0]);
      StepBalance(s, ops[0], id);
      hide Invariant, Away, Perform, DropsOf, ReturnsOf;
      ResumesNeverOutnumberDisconnects(Perform(s, ops[0]).state, ops[1..], id);
    }
  }
}
