/** The room authority as a value: who is in a room, in what role, and with which capabilities. */
module RoomModel {

  const MAXIMUM_PARTICIPANTS: nat := 12

  datatype Admission = Waiting | Admitted | Denied | Disconnected

  datatype Role = WaitingRole | Listener | VoiceGuest | Performer | CoHost | Host

  /** `Count` is not a capability; callers can still pass it. */
  datatype Capability =
    | HearRoom | ReadChat | SendChat | SendVoice | SendMusic | RequestPerform | ControlRoomRecord | AdmitUsers
    | RemoveUsers | GrantPerformer | RevokePerformer | LockRoom | ChangeVisibility | ManageRoom | EndRoom | Count

  /** One bit for each capability. */
  type CapabilitySet = bv32

  function CapabilityBit(c: Capability): CapabilitySet {
    match c
    case HearRoom => 0x1
    case ReadChat => 0x2
    case SendChat => 0x4
    case SendVoice => 0x8
    case SendMusic => 0x10
    case RequestPerform => 0x20
    case ControlRoomRecord => 0x40
    case AdmitUsers => 0x80
    case RemoveUsers => 0x100
    case GrantPerformer => 0x200
    case RevokePerformer => 0x400
    case LockRoom => 0x800
    case ChangeVisibility => 0x1000
    case ManageRoom => 0x2000
    case EndRoom => 0x4000
    case Count => 0
  }

  predicate Test(set_: CapabilitySet, bit: CapabilitySet) { set_ & bit != 0 }

  function With(set_: CapabilitySet, bit: CapabilitySet): CapabilitySet { set_ | bit }

  function Without(set_: CapabilitySet, bit: CapabilitySet): CapabilitySet { set_ & !bit }

  predicate Has(set_: CapabilitySet, c: Capability) {
    c != Count && Test(set_, CapabilityBit(c))
  }

  function Seniority(role: Role): nat {
    match role
    case WaitingRole => 0
    case Listener => 1
    case VoiceGuest => 2
    case Performer => 3
    case CoHost => 4
    case Host => 5
  }

  /** What each role may do. The host's set is one less than the bit of `Count`, which wraps to every bit. */
  function RoleCapabilities(role: Role): CapabilitySet
    decreases Seniority(role)
  {
    match role
    case WaitingRole => 0
    case Listener => CapabilityBit(HearRoom) | CapabilityBit(ReadChat) | CapabilityBit(RequestPerform)
    case VoiceGuest => RoleCapabilities(Listener) | CapabilityBit(SendChat) | CapabilityBit(SendVoice)
    case Performer => RoleCapabilities(VoiceGuest) | CapabilityBit(SendMusic)
    case CoHost =>
      RoleCapabilities(Performer) | CapabilityBit(AdmitUsers) | CapabilityBit(RemoveUsers)
      | CapabilityBit(GrantPerformer) | CapabilityBit(RevokePerformer) | CapabilityBit(LockRoom)
    case Host => CapabilityBit(Count) - 1
  }

  datatype Participant = Participant(
    id: string,
    displayName: string,
    role: Role,
    admission: Admission,
    capabilities: CapabilitySet,
    grantRevision: nat,
    resumeExpiresAt: nat,
    resumeToken: string)

  datatype State = State(participants: seq<Participant>, nextRevision: nat)

  datatype Outcome = Outcome(state: State, accepted: bool)

  function Start(hostId: string, hostName: string): State
    requires hostId != ""
  {
    State([Participant(hostId, hostName, Host, Admitted, RoleCapabilities(Host), 1, 0, "")], 2)
  }

  /** The first participant with an id, or the number of participants. */
  function Find(participants: seq<Participant>, id: string): (index: nat)
    ensures index <= |participants|
    ensures index < |participants| ==> participants[index].id == id
    ensures forall k | 0 <= k < index :: participants[k].id != id
  {
    if participants == [] || participants[0].id == id then 0 else 1 + Find(participants[1..], id)
  }

  predicate MayManageRole(actor: Participant, target: Participant, requested: Role) {
    && actor.admission == Admitted && actor.id != target.id && target.role != Host && requested != Host
    && (actor.role == Host || (actor.role == CoHost && target.role != CoHost && requested != CoHost))
  }

  function RemoveAt(participants: seq<Participant>, index: nat): seq<Participant> {
    if 0 < index < |participants| then participants[..index] + participants[index + 1..] else participants
  }

  /** A changed participant gets the next grant revision. */
  function Changed(s: State, index: nat, p: Participant): Outcome
    requires index < |s.participants|
  {
    Outcome(State(s.participants[index := p.(grantRevision := s.nextRevision)], s.nextRevision + 1), true)
  }

  /** The first denied participant after the host, or the number of participants. */
  function FirstDenied(participants: seq<Participant>, from: nat): (index: nat)
    requires from <= |participants|
    ensures from <= index <= |participants|
    ensures index < |participants| ==> participants[index].admission == Denied
    ensures forall k | from <= k < index :: participants[k].admission != Denied
    decreases |participants| - from
  {
    if from == |participants| || participants[from].admission == Denied then from
    else FirstDenied(participants, from + 1)
  }

  /** A request takes over a denied participant's place, even when it is then refused. */
  function RequestAdmission(s: State, id: string, displayName: string): Outcome
    requires s.participants != []
  {
    var kept := RemoveAt(s.participants, FirstDenied(s.participants, 1));
    if id == "" || |id| > 128 || displayName == "" || |displayName| > 64
       || |kept| >= MAXIMUM_PARTICIPANTS || Find(kept, id) < |kept|
    then Outcome(s.(participants := kept), false)
    else
      var p := Participant(id, displayName, WaitingRole, Waiting, 0, s.nextRevision, 0, "");
      Outcome(State(kept + [p], s.nextRevision + 1), true)
  }

  function Admit(s: State, actorId: string, id: string, role: Role): Outcome {
    var a, k := Find(s.participants, actorId), Find(s.participants, id);
    if a == |s.participants| || k == |s.participants| then Outcome(s, false)
    else
      var actor, p := s.participants[a], s.participants[k];
      if p.admission != Waiting || role == WaitingRole || role == Host || !Has(actor.capabilities, AdmitUsers)
         || (role == Performer && !Has(actor.capabilities, GrantPerformer)) || !MayManageRole(actor, p, role)
      then Outcome(s, false)
      else
        Changed(s, k, p.(admission := Admitted, role := role, capabilities := RoleCapabilities(role),
                         resumeToken := "", resumeExpiresAt := 0))
  }

  function Deny(s: State, actorId: string, id: string): Outcome {
    var a, k := Find(s.participants, actorId), Find(s.participants, id);
    if a == |s.participants| || k == |s.participants| then Outcome(s, false)
    else
      var actor, p := s.participants[a], s.participants[k];
      if p.admission != Waiting || !Has(actor.capabilities, AdmitUsers) then Outcome(s, false)
      else Changed(s, k, p.(admission := Denied, capabilities := 0))
  }

  function SetRole(s: State, actorId: string, id: string, role: Role): Outcome {
    var a, k := Find(s.participants, actorId), Find(s.participants, id);
    if a == |s.participants| || k == |s.participants| then Outcome(s, false)
    else
      var actor, p := s.participants[a], s.participants[k];
      if p.admission != Admitted || role == WaitingRole || role == Host || !MayManageRole(actor, p, role)
      then Outcome(s, false)
      else if role == Performer && !Has(actor.capabilities, GrantPerformer) then Outcome(s, false)
      else if p.role == Performer && role != Performer && !Has(actor.capabilities, RevokePerformer)
      then Outcome(s, false)
      else Changed(s, k, p.(role := role, capabilities := RoleCapabilities(role)))
  }

  function SetCapability(s: State, actorId: string, id: string, c: Capability, enabled: bool): Outcome {
    var a, k := Find(s.participants, actorId), Find(s.participants, id);
    if a == |s.participants| || k == |s.participants| then Outcome(s, false)
    else
      var actor, p := s.participants[a], s.participants[k];
      if p.admission != Admitted || p.role == Host || !Has(actor.capabilities, ManageRoom) || c == Count || c == EndRoom
      then Outcome(s, false)
      else
        Changed(s, k, p.(capabilities := if enabled then With(p.capabilities, CapabilityBit(c))
                                         else Without(p.capabilities, CapabilityBit(c))))
  }

  function Disconnect(s: State, id: string, resumeToken: string, expiresAt: nat): Outcome {
    var k := Find(s.participants, id);
    if k == |s.participants| then Outcome(s, false)
    else
      var p := s.participants[k];
      if p.admission != Admitted || p.role == Host || |resumeToken| < 32 || |resumeToken| > 128 || expiresAt == 0
      then Outcome(s, false)
      else Changed(s, k, p.(admission := Disconnected, resumeToken := resumeToken, resumeExpiresAt := expiresAt))
  }

  function Resume(s: State, id: string, resumeToken: string, now: nat, replacement: string, replacementExpiresAt: nat):
    Outcome
  {
    var k := Find(s.participants, id);
    if k == |s.participants| then Outcome(s, false)
    else
      var p := s.participants[k];
      if p.admission != Disconnected || p.resumeToken == "" || |resumeToken| < 32 || |resumeToken| > 128
         || p.resumeToken != resumeToken || now >= p.resumeExpiresAt
         || |replacement| < 32 || |replacement| > 128 || replacementExpiresAt <= now
      then Outcome(s, false)
      else Changed(s, k, p.(admission := Admitted, resumeToken := replacement, resumeExpiresAt := replacementExpiresAt))
  }

  predicate Inactive(p: Participant, now: nat) {
    p.admission == Denied || (p.admission == Disconnected && now >= p.resumeExpiresAt)
  }

  function ActiveFrom(participants: seq<Participant>, now: nat): seq<Participant> {
    if participants == [] then []
    else (if Inactive(participants[0], now) then [] else [participants[0]]) + ActiveFrom(participants[1..], now)
  }

  /** Everyone inactive after the host is dropped. */
  function ReapInactive(s: State, now: nat): State
    requires s.participants != []
  {
    s.(participants := [s.participants[0]] + ActiveFrom(s.participants[1..], now))
  }

  predicate Authorized(s: State, id: string, c: Capability) {
    var k := Find(s.participants, id);
    k < |s.participants| && s.participants[k].admission == Admitted && Has(s.participants[k].capabilities, c)
  }
}
