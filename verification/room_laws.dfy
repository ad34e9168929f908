/** Who may do what in a room: when each request is granted, and what standing and capabilities follow. */
module RoomLaws {
  import opened RoomModel
  import opened RoomRuns

  // ---------------------------------------------------------------- roles and capabilities

  /** The least role that has a capability from the start. */
  function Needs(c: Capability): Role {
    match c
    case HearRoom | ReadChat | RequestPerform => Listener
    case SendChat | SendVoice => VoiceGuest
    case SendMusic => Performer
    case AdmitUsers | RemoveUsers | GrantPerformer | RevokePerformer | LockRoom => CoHost
    case _ => Host
  }

  /** A role starts with a capability exactly if it is at least the role that needs it, so each role has all that the
      ones below it have. */
  lemma RolesAreNested(role: Role, c: Capability)
    ensures c != Count ==> (Has(RoleCapabilities(role), c) <==> Seniority(role) >= Seniority(Needs(c)))
    ensures !Has(RoleCapabilities(role), Count)
  {
    match role {
      case WaitingRole =>
      case Listener =>
      case VoiceGuest =>
      case Performer =>
      case CoHost =>
      case Host =>
    }
  }

  // ---------------------------------------------------------------- standing

  predicate IsToken(token: string) { 32 <= |token| <= 128 }

  /** Who waits or was turned away has no role and may do nothing; who is in has a role; who dropped out has a role, a
      token to come back with and a time until which it is good. */
  ghost predicate Proper(p: Participant) {
    match p.admission
    case Waiting => p.role == WaitingRole && p.capabilities == 0
    case Denied => p.role == WaitingRole && p.capabilities == 0
    case Admitted => p.role != WaitingRole
    case Disconnected => p.role != WaitingRole && p.role != Host && IsToken(p.resumeToken) && p.resumeExpiresAt > 0
  }

  ghost predicate AllProper(s: State) {
    forall k | 0 <= k < |s.participants| :: Proper(s.participants[k])
  }

  ghost predicate Standing(s: State) { Invariant(s) && AllProper(s) }

  lemma StartStands(hostId: string, hostName: string)
    requires hostId != ""
    ensures Standing(Start(hostId, hostName))
    ensures var s := Start(hostId, hostName);
            |s.participants| == 1 && Find(s.participants, hostId) == 0
            && s.participants[0].displayName == hostName && s.participants[0].resumeToken == ""
            && s.participants[0].grantRevision < s.nextRevision
  {
    StartSound(hostId, hostName);
    hide RoleCapabilities;
  }

  lemma DecisionKeepsProper(s: State, op: Op)
    requires Standing(s) && !op.Request? && !op.Reap?
    ensures AllProper(Perform(s, op).state)
  {
    DecisionsChangeOne(s, op);
    hide Has, RoleCapabilities, With, Without, DistinctIds, DistinctRevisions, HostFirst;
  }

  lemma RemoveKeepsProper(ps: seq<Participant>, index: nat, next: nat)
    requires AllProper(State(ps, next))
    ensures AllProper(State(RemoveAt(ps, index), next))
  {
    hide Proper;
    var r := RemoveAt(ps, index);
    assert forall k | 0 <= k < |r| :: r[k] == if 0 < index <= k && index < |ps| then ps[k + 1] else ps[k];
  }

  lemma {:induction false} ActiveIsPart(ps: seq<Participant>, now: nat, p: Participant)
    ensures p in ActiveFrom(ps, now) <==> p in ps && !Inactive(p, now)
  {
    if ps != [] {
      ActiveIsPart(ps[1..], now, p);
      assert ps == [ps[0]] + ps[1..];
      hide Inactive;
    }
  }

  lemma ReapKeepsProper(s: State, now: nat)
    requires AllProper(s) && s.participants != []
    ensures AllProper(ReapInactive(s, now))
  {
    var r := ReapInactive(s, now).participants;
    forall k | 0 <= k < |r| ensures Proper(r[k]) {
      if k > 0 {
        assert r[k] == ActiveFrom(s.participants[1..], now)[k - 1];
        ActiveIsPart(s.participants[1..], now, r[k]);
        assert r[k] in s.participants[1..];
      }
    }
    hide Proper, ActiveFrom;
  }

  lemma PerformKeepsStanding(s: State, op: Op)
    requires Standing(s)
    ensures Standing(Perform(s, op).state)
  {
    PerformKeepsInvariant(s, op);
    hide Invariant, Has, RoleCapabilities;
    if op.Request? {
      RemoveKeepsProper(s.participants, FirstDenied(s.participants, 1), s.nextRevision);
      hide RemoveAt, FirstDenied, Find;
    } else if op.Reap? {
      ReapKeepsProper(s, op.now);
    } else {
      DecisionKeepsProper(s, op);
    }
  }

  /** So in every run. */
  lemma {:induction false} RunKeepsStanding(s: State, ops: seq<Op>)
    requires Standing(s)
    ensures Standing(Run(s, ops))
    decreases |ops|
  {
    if ops != [] {
      PerformKeepsStanding(s, ops[0]);
      hide Perform, AllProper;
      RunKeepsStanding(Perform(s, ops[0]).state, ops[1..]);
    }
  }

  /** And so in every room from its opening on. */
  lemma EveryRoomStands(hostId: string, hostName: string, ops: seq<Op>)
    requires hostId != ""
    ensures Standing(Run(Start(hostId, hostName), ops))
  {
    StartStands(hostId, hostName);
    RunKeepsStanding(Start(hostId, hostName), ops);
    hide Start, Standing, Run;
  }

  // ---------------------------------------------------------------- who may do what

  predicate Known(s: State, id: string) { Find(s.participants, id) < |s.participants| }

  predicate Given(role: Role) { role != WaitingRole && role != Host }

  /** One manages roles as the host, or as a co-host below one's own rank; never one's own. */
  predicate Manages(actor: Participant, target: Participant, role: Role) {
    && actor.admission == Admitted && actor.id != target.id && target.role != Host
    && (actor.role == Host || (actor.role == CoHost && target.role != CoHost && role != CoHost))
  }

  /** Someone else's entry is not this one's business. */
  ghost predicate OnlyEntry(s: State, r: State, id: string, p: Participant)
    requires Known(s, id)
  {
    r == State(s.participants[Find(s.participants, id) := p.(grantRevision := s.nextRevision)], s.nextRevision + 1)
  }

  /** A waiting participant is let in by someone who is in, may admit users, and manages the role that is given; a
      performer also takes the right to make performers. */
  lemma AdmittedIffPermitted(s: State, actorId: string, id: string, role: Role)
    ensures var r := Admit(s, actorId, id, role);
            && (r.accepted <==>
                  && Known(s, actorId) && Known(s, id) && Given(role)
                  && var actor, p := Entry(s, actorId), Entry(s, id);
                  && p.admission == Waiting && Has(actor.capabilities, AdmitUsers)
                  && (role == Performer ==> Has(actor.capabilities, GrantPerformer)) && Manages(actor, p, role))
            && (!r.accepted ==> r.state == s)
            && (r.accepted ==>
                  OnlyEntry(s, r.state, id, Entry(s, id).(admission := Admitted, role := role, resumeToken := "",
                                                          resumeExpiresAt := 0, capabilities := RoleCapabilities(role))))
  {
    hide Has, RoleCapabilities;
  }

  /** A role is changed for someone who is in, by someone who manages it; making a performer and unmaking one each take
      their own right. */
  lemma RoleChangesIffPermitted(s: State, actorId: string, id: string, role: Role)
    ensures var r := SetRole(s, actorId, id, role);
            && (r.accepted <==>
                  && Known(s, actorId) && Known(s, id) && Given(role)
                  && var actor, p := Entry(s, actorId), Entry(s, id);
                  && p.admission == Admitted && Manages(actor, p, role)
                  && (role == Performer ==> Has(actor.capabilities, GrantPerformer))
                  && (p.role == Performer && role != Performer ==> Has(actor.capabilities, RevokePerformer)))
            && (!r.accepted ==> r.state == s)
            && (r.accepted ==>
                  OnlyEntry(s, r.state, id, Entry(s, id).(role := role, capabilities := RoleCapabilities(role))))
  {
    hide Has, RoleCapabilities;
  }

  /** A waiting participant is turned away by anyone who may admit users, and then may do nothing. */
  lemma DeniedIffPermitted(s: State, actorId: string, id: string)
    ensures var r := Deny(s, actorId, id);
            && (r.accepted <==>
                  && Known(s, actorId) && Known(s, id)
                  && Entry(s, id).admission == Waiting && Has(Entry(s, actorId).capabilities, AdmitUsers))
            && (!r.accepted ==> r.state == s)
            && (r.accepted ==> OnlyEntry(s, r.state, id, Entry(s, id).(admission := Denied, capabilities := 0)))
  {
    hide Has;
  }

  /** One capability of someone who is in, and is not the host, is switched by anyone who may manage the room; ending
      the room is never given nor taken. */
  lemma CapabilitySwitchesIffPermitted(s: State, actorId: string, id: string, c: Capability, enabled: bool, d: Capability)
    ensures var r := SetCapability(s, actorId, id, c, enabled);
            && (r.accepted <==>
                  && Known(s, actorId) && Known(s, id) && c != Count && c != EndRoom
                  && Entry(s, id).admission == Admitted && Entry(s, id).role != Host
                  && Has(Entry(s, actorId).capabilities, ManageRoom))
            && (!r.accepted ==> r.state == s)
            && (r.accepted ==>
                  && Find(s.participants, id) < |r.state.participants|
                  && var p := r.state.participants[Find(s.participants, id)];
                  && OnlyEntry(s, r.state, id, Entry(s, id).(capabilities := p.capabilities))
                  && (Has(p.capabilities, d) <==> if d == c then enabled else Has(Entry(s, id).capabilities, d)))
  {
    if c != Count && Known(s, id) {
      CapabilityAlgebra(Entry(s, id).capabilities, c, d);
    }
    hide Has, With, Without, CapabilityBit;
  }

  /** One drops out with a token of 32 to 128 characters, good until some time, if one is in and not the host. */
  lemma DropsIffIn(s: State, id: string, token: string, expiresAt: nat)
    ensures var r := Disconnect(s, id, token, expiresAt);
            && (r.accepted <==>
                  && Known(s, id) && Entry(s, id).admission == Admitted && Entry(s, id).role != Host
                  && IsToken(token) && expiresAt > 0)
            && (!r.accepted ==> r.state == s)
            && (r.accepted ==> OnlyEntry(s, r.state, id, Entry(s, id).(admission := Disconnected, resumeToken := token,
                                                                       resumeExpiresAt := expiresAt)))
  {
  }

  /** One comes back with the very token, before its time, leaving another token that is good for longer than now. */
  lemma ReturnsIffTokenIsGood(s: State, id: string, token: string, now: nat, next: string, nextExpiresAt: nat)
    ensures var r := Resume(s, id, token, now, next, nextExpiresAt);
            && (r.accepted <==>
                  && Known(s, id) && Entry(s, id).admission == Disconnected
                  && Entry(s, id).resumeToken == token && IsToken(token) && now < Entry(s, id).resumeExpiresAt
                  && IsToken(next) && nextExpiresAt > now)
            && (!r.accepted ==> r.state == s)
            && (r.accepted ==> OnlyEntry(s, r.state, id, Entry(s, id).(admission := Admitted, resumeToken := next,
                                                                       resumeExpiresAt := nextExpiresAt)))
  {
  }

  ghost predicate AnyDenied(s: State) {
    exists k :: 1 <= k < |s.participants| && s.participants[k].admission == Denied
  }

  /** One asks to be let in under a new id of at most 128 characters and a name of at most 64, if one of the twelve
      places is free or held by someone turned away; the first of those leaves, whatever comes of it. */
  lemma AskedIffThereIsRoom(s: State, id: string, name: string)
    requires Invariant(s)
    ensures var r := RequestAdmission(s, id, name);
            var places := |s.participants| - if AnyDenied(s) then 1 else 0;
            var k := FirstDenied(s.participants, 1);
            && (AnyDenied(s) <==> k < |s.participants|)
            && (r.accepted <==>
                  && 1 <= |id| <= 128 && 1 <= |name| <= 64 && places < 12
                  && (!Known(s, id) || Find(s.participants, id) == k))
            && |r.state.participants| == places + (if r.accepted then 1 else 0)
            && (forall j | 0 <= j < places ::
                  r.state.participants[j] == if j < k then s.participants[j] else s.participants[j + 1])
            && (r.accepted ==> r.state.participants[places]
                               == Participant(id, name, WaitingRole, Waiting, 0, s.nextRevision, 0, ""))
            && r.state.nextRevision == s.nextRevision + (if r.accepted then 1 else 0)
  {
    var k := FirstDenied(s.participants, 1);
    if k < |s.participants| {
      assert s.participants[k].admission == Denied;
      RemovedIsUnknown(s.participants, k, id);
    }
    RequestTakesFirst(s, id, name);
    hide HostFirst, DistinctIds, DistinctRevisions, RequestAdmission;
  }

  lemma RequestTakesFirst(s: State, id: string, name: string)
    requires s.participants != []
    ensures var r, kept := RequestAdmission(s, id, name), RemoveAt(s.participants, FirstDenied(s.participants, 1));
            && (r.accepted <==> 1 <= |id| <= 128 && 1 <= |name| <= 64 && |kept| < 12 && Find(kept, id) == |kept|)
            && r.state == (if r.accepted
                           then State(kept + [Participant(id, name, WaitingRole, Waiting, 0, s.nextRevision, 0, "")],
                                      s.nextRevision + 1)
                           else s.(participants := kept))
  {
    hide RemoveAt, FirstDenied, Find;
  }

  /** Whoever is left after a removal was there before it. */
  lemma RemovedIsUnknown(ps: seq<Participant>, index: nat, id: string)
    requires 0 < index < |ps| && DistinctIds(ps)
    ensures var kept := RemoveAt(ps, index);
            Find(kept, id) < |kept| <==> Find(ps, id) < |ps| && Find(ps, id) != index
  {
    var kept := RemoveAt(ps, index);
    var k, j := Find(kept, id), Find(ps, id);
    assert forall i | 0 <= i < |kept| :: kept[i] == if i < index then ps[i] else ps[i + 1];
    if k < |kept| {
      FindIs(ps, if k < index then k else k + 1);
    }
    if j < |ps| && j != index {
      assert kept[if j < index then j else j - 1] == ps[j];
    }
  }

  /** The reaper takes exactly those turned away and those whose time to come back is over, and nobody else. */
  lemma ReapTakesTheInactive(s: State, now: nat, p: Participant)
    requires Invariant(s)
    ensures p in ReapInactive(s, now).participants
            <==> p in s.participants
                 && !(p.admission == Denied || (p.admission == Disconnected && p.resumeExpiresAt <= now))
  {
    ActiveIsPart(s.participants[1..], now, p);
    assert s.participants == [s.participants[0]] + s.participants[1..];
    hide DistinctIds, DistinctRevisions, ActiveFrom, Has, RoleCapabilities;
  }

  /** What one is authorised to do is what one's capabilities say while one is in, and nothing otherwise. */
  lemma OnlyThoseInAreAuthorised(s: State, id: string, c: Capability)
    ensures Authorized(s, id, c) <==>
            Known(s, id) && Entry(s, id).admission == Admitted && c != Count && Has(Entry(s, id).capabilities, c)
  {
  }

  // ---------------------------------------------------------------- runs

  ghost predicate RoleBound(p: Participant) {
    p.admission == Admitted || p.admission == Disconnected ==> p.capabilities == RoleCapabilities(p.role)
  }

  ghost predicate AllRoleBound(s: State) {
    forall k | 0 <= k < |s.participants| :: RoleBound(s.participants[k])
  }

  lemma PerformKeepsRoleBound(s: State, op: Op)
    requires Standing(s) && AllRoleBound(s) && (op.Configure? ==> !Perform(s, op).accepted)
    ensures AllRoleBound(Perform(s, op).state)
  {
    hide Has, RoleCapabilities;
    if op.Request? {
      var kept := RemoveAt(s.participants, FirstDenied(s.participants, 1));
      assert forall k | 0 <= k < |kept| :: kept[k] in s.participants;
      assert RoleBound(Participant(op.id, op.displayName, WaitingRole, Waiting, 0, s.nextRevision, 0, ""));
      hide RemoveAt, FirstDenied, Find, RoleBound, Invariant;
    } else if op.Reap? {
      var r := ReapInactive(s, op.now).participants;
      forall k | 0 <= k < |r| ensures RoleBound(r[k]) {
        ReapTakesTheInactive(s, op.now, r[k]);
      }
      hide Invariant, RoleBound;
    } else {
      DecisionsChangeOne(s, op);
      hide Invariant, With, Without;
    }
  }

  /** Capabilities are never switched in this run. */
  predicate NeverConfigured(s: State, ops: seq<Op>)
    requires s.participants != []
    decreases |ops|
  {
    ops != [] ==>
      && (ops[0].Configure? ==> !Perform(s, ops[0]).accepted)
      && (KeepsSomebody(s, ops[0]); NeverConfigured(Perform(s, ops[0]).state, ops[1..]))
  }

  /** As long as no capability is switched by itself, everyone's are exactly those of their role: nobody gathers any on
      the way through waiting, roles, disconnects and returns. */
  lemma {:induction false} CapabilitiesFollowRoles(s: State, ops: seq<Op>)
    requires Standing(s) && AllRoleBound(s) && NeverConfigured(s, ops)
    ensures AllRoleBound(Run(s, ops))
    decreases |ops|
  {
    if ops != [] {
      PerformKeepsStanding(s, ops[0]);
      PerformKeepsRoleBound(s, ops[0]);
      hide Perform, AllRoleBound, Invariant, AllProper;
      CapabilitiesFollowRoles(Perform(s, ops[0]).state, ops[1..]);
    }
  }

  /** Neither turning someone away nor switching a capability asks whether the actor is in. Who drops out keeps the
      capabilities, so an absent co-host still turns people away, though it can no longer let anyone in. */
  lemma AbsentCoHostStillDenies(hostId: string, coId: string, guestId: string, name: string, token: string, expiresAt: nat)
    requires hostId != "" && 1 <= |coId| <= 128 && 1 <= |guestId| <= 128 && 1 <= |name| <= 64
    requires coId != hostId && guestId != hostId && guestId != coId && IsToken(token) && expiresAt > 0
    ensures var s := Run(Start(hostId, name), Absence(hostId, coId, guestId, name, token, expiresAt));
            && Known(s, coId) && Entry(s, coId).admission == Disconnected && !Authorized(s, coId, AdmitUsers)
            && Deny(s, coId, guestId).accepted && !Admit(s, coId, guestId, Listener).accepted
  {
    RolesAreNested(CoHost, AdmitUsers);
    RolesAreNested(Host, AdmitUsers);
    hide RoleCapabilities, Has, RequestAdmission, Admit, Deny, Disconnect, Find, Authorized, Run, Known, Entry;
    var host := Start(hostId, name).participants[0];
    AbsenceRuns(host, coId, guestId, name, token, expiresAt);
    AbsentDenies(host, AwayAt(coId, name, token, expiresAt), NewcomerAt(guestId, name, 5));
  }

  lemma AbsenceRuns(host: Participant, coId: string, guestId: string, name: string, token: string, expiresAt: nat)
    requires host.role == Host && host.admission == Admitted && Has(host.capabilities, AdmitUsers)
    requires 1 <= |coId| <= 128 && 1 <= |guestId| <= 128 && 1 <= |name| <= 64
    requires coId != host.id && guestId != host.id && guestId != coId && IsToken(token) && expiresAt > 0
    ensures Run(State([host], 2), Absence(host.id, coId, guestId, name, token, expiresAt))
            == State([host, AwayAt(coId, name, token, expiresAt), NewcomerAt(guestId, name, 5)], 6)
  {
    hide RoleCapabilities, Has;
    var asked, guest := NewcomerAt(coId, name, 2), NewcomerAt(guestId, name, 5);
    var in_, away := InAt(coId, name), AwayAt(coId, name, token, expiresAt);
    Asks([host], 2, coId, name);
    LetsIn(host, asked, 3, CoHost);
    DropsOut(host, in_, 4, token, expiresAt);
    Asks([host, away], 5, guestId, name);
    assert [host] + [asked] == [host, asked] && [host, away] + [guest] == [host, away, guest];
    assert Admit(State([host, asked], 3), host.id, coId, CoHost).state == State([host, in_], 4);
    assert Disconnect(State([host, in_], 4), coId, token, expiresAt).state == State([host, away], 5);
    hide RequestAdmission, Admit, Disconnect, Run, NewcomerAt, InAt, AwayAt, IsToken;
    RunVia(State([host], 2), State([host, asked], 3), State([host, in_], 4), State([host, away], 5),
           State([host, away, guest], 6), Absence(host.id, coId, guestId, name, token, expiresAt));
  }

  function InAt(id: string, name: string): Participant {
    NewcomerAt(id, name, 3).(role := CoHost, admission := Admitted, capabilities := RoleCapabilities(CoHost))
  }

  function AwayAt(id: string, name: string, token: string, expiresAt: nat): Participant {
    InAt(id, name).(admission := Disconnected, resumeToken := token, resumeExpiresAt := expiresAt, grantRevision := 4)
  }

  function NewcomerAt(id: string, name: string, revision: nat): Participant {
    Participant(id, name, WaitingRole, Waiting, 0, revision, 0, "")
  }

  /** A co-host is let in and drops out again, and a guest asks to be let in. */
  function Absence(hostId: string, coId: string, guestId: string, name: string, token: string, expiresAt: nat): seq<Op> {
    [Request(coId, name), AdmitOne(hostId, coId, CoHost), Drop(coId, token, expiresAt), Request(guestId, name)]
  }

  lemma AbsentDenies(host: Participant, away: Participant, guest: Participant)
    requires away.admission == Disconnected && Has(away.capabilities, AdmitUsers) && guest.admission == Waiting
    requires host.id != away.id && host.id != guest.id && away.id != guest.id
    ensures var s := State([host, away, guest], 6);
            && Known(s, away.id) && Entry(s, away.id) == away && !Authorized(s, away.id, AdmitUsers)
            && Deny(s, away.id, guest.id).accepted && !Admit(s, away.id, guest.id, Listener).accepted
  {
    Found([host, away, guest], 1);
    Found([host, away, guest], 2);
    hide Has, RoleCapabilities, Find;
  }

  lemma Found(ps: seq<Participant>, k: nat)
    requires k < |ps| && forall j | 0 <= j < k :: ps[j].id != ps[k].id
    ensures Find(ps, ps[k].id) == k
  {
  }

  lemma Asks(ps: seq<Participant>, next: nat, id: string, name: string)
    requires 1 <= |ps| < 12 && (forall k | 0 <= k < |ps| :: ps[k].admission != Denied && ps[k].id != id)
    requires 1 <= |id| <= 128 && 1 <= |name| <= 64
    ensures RequestAdmission(State(ps, next), id, name)
            == Outcome(State(ps + [Participant(id, name, WaitingRole, Waiting, 0, next, 0, "")], next + 1), true)
  {
  }

  lemma LetsIn(host: Participant, p: Participant, next: nat, role: Role)
    requires host.role == Host && host.admission == Admitted && Has(host.capabilities, AdmitUsers) && role == CoHost
    requires p.admission == Waiting && p.role == WaitingRole && p.id != host.id
    requires p.resumeToken == "" && p.resumeExpiresAt == 0
    ensures Admit(State([host, p], next), host.id, p.id, role).state
            == State([host, p.(role := role, admission := Admitted, capabilities := RoleCapabilities(role),
                               grantRevision := next)], next + 1)
  {
    Found([host, p], 0);
    Found([host, p], 1);
    hide Has, RoleCapabilities, Find;
  }

  lemma DropsOut(host: Participant, p: Participant, next: nat, token: string, expiresAt: nat)
    requires p.admission == Admitted && p.role != Host && p.id != host.id && IsToken(token) && expiresAt > 0
    ensures Disconnect(State([host, p], next), p.id, token, expiresAt).state
            == State([host, p.(admission := Disconnected, resumeToken := token, resumeExpiresAt := expiresAt,
                               grantRevision := next)], next + 1)
  {
    Found([host, p], 1);
    hide Find;
  }

  lemma RunVia(s0: State, s1: State, s2: State, s3: State, s4: State, ops: seq<Op>)
    requires |ops| == 4
    requires s0.participants != [] && s1.participants != [] && s2.participants != [] && s3.participants != []
    requires Perform(s0, ops[0]).state == s1 && Perform(s1, ops[1]).state == s2
    requires Perform(s2, ops[2]).state == s3 && Perform(s3, ops[3]).state == s4
    ensures Run(s0, ops) == s4
  {
    hide Perform;
    RunOne(s3, ops[3], []);
    RunOne(s2, ops[2], ops[3..]);
    RunOne(s1, ops[1], ops[2..]);
    RunOne(s0, ops[0], ops[1..]);
    assert [ops[2]] + ops[3..] == ops[2..] && [ops[1]] + ops[2..] == ops[1..] && [ops[0]] + ops[1..] == ops;
    assert ops[3..] == [ops[3]];
  }

  lemma RunOne(s: State, op: Op, rest: seq<Op>)
    requires s.participants != []
    ensures Perform(s, op).state.participants != []
    ensures Run(s, [op] + rest) == Run(Perform(s, op).state, rest)
  {
    KeepsSomebody(s, op);
    assert ([op] + rest)[1..] == rest;
    hide Perform;
  }
}
