/** Private rooms of the directory service: a room is opened under a code, guests wait, the owner admits
    one, and the admitted guest collects the room's invite. */
module PrivateRooms {
  import opened FiniteSets

  const ROOM_TTL: real := 90.0
  const REQUEST_TTL: real := 120.0
  const MAXIMUM_WAITING: nat := 16

  datatype Compatibility = Compatibility(
    applicationVersion: string,
    buildIdentity: string,
    releaseChannel: string,
    mediaProtocol: int,
    controlProtocol: int)

  /** `incarnation` numbers every room ever opened; the service itself does not store it. */
  datatype Room = Room(
    displayCode: string,
    inviteCode: string,
    ownerHash: string,
    compatibility: Compatibility,
    admissionClosed: bool,
    expiresAt: real,
    incarnation: nat)

  datatype Status = Waiting | Admitted | Denied

  datatype Guest = Guest(displayName: string, primaryInstrument: string, avatarId: string)

  /** `joined` is the incarnation of the room the request was made to, and `offered` what the guest declared; the
      service stores neither. */
  datatype JoinRequest = JoinRequest(
    roomCode: string,
    tokenHash: string,
    guest: Guest,
    status: Status,
    expiresAt: real,
    joined: nat,
    offered: Compatibility)

  datatype Admission = Admission(requestId: string, incarnation: nat, inviteCode: string, ownerHash: string)

  /** The two tables, with the order in which the requests were filed, and two histories: rooms opened so far,
      and admissions made so far. Requests that are gone may still be named in the order. */
  datatype State = State(
    rooms: map<string, Room>,
    requests: map<string, JoinRequest>,
    order: seq<string>,
    incarnations: nat,
    admissions: seq<Admission>)

  /** A request body that does or does not pass validation. */
  datatype Parsed<T> = Invalid | Valid(value: T)

  datatype Offer = Offer(code: string, displayCode: string, inviteCode: string, compatibility: Compatibility)

  datatype Listed = Listed(requestId: string, guest: Guest)

  datatype Reply =
    | Refused(code: nat, error: string)
    | UpdateRequired(requiredVersion: string)
    | Opened(displayCode: string, ownerToken: string)
    | Alive(admissionClosed: bool)
    | Removed
    | Filed(requestId: string, requestToken: string)
    | Requests(waiting: seq<Listed>)
    | Decided(status: Status)
    | StatusIs(status: Status)
    | Invited(inviteCode: string)

  datatype Outcome = Outcome(state: State, reply: Reply)

  // ---------------------------------------------------------------- tokens

  predicate Hexadecimal(c: char) {
    '0' <= c <= '9' || 'a' <= c <= 'f'
  }

  /** A bearer token of 64 hexadecimal digits whose digest is the expected one. */
  predicate TokenMatches(digest: string -> string, authorization: string, expected: string) {
    && "Bearer " <= authorization
    && var token := authorization[7..];
    && |token| == 64 && (forall i | 0 <= i < |token| :: Hexadecimal(token[i]))
    && digest(token) == expected
  }

  // ---------------------------------------------------------------- operations

  function Expire(s: State, now: real): State {
    var rooms := map c | c in s.rooms && s.rooms[c].expiresAt > now :: s.rooms[c];
    s.(rooms := rooms,
       requests := map id | id in s.requests && s.requests[id].expiresAt > now && s.requests[id].roomCode in rooms
                        :: s.requests[id])
  }

  /** The requests left when a room's own are dropped. */
  function Without(requests: map<string, JoinRequest>, code: string): map<string, JoinRequest> {
    map id | id in requests && requests[id].roomCode != code :: requests[id]
  }

  function WaitingIn(requests: map<string, JoinRequest>, code: string): set<string> {
    set id | id in requests && requests[id].roomCode == code && requests[id].status == Waiting
  }

  function Create(digest: string -> string, before: State, body: Parsed<Offer>, authorization: string,
                  ownerToken: string, now: real, later: real): Outcome
  {
    var s := Expire(before, now);
    if body.Invalid? then Outcome(s, Refused(400, "private_room_invalid"))
    else
      var offer := body.value;
      if offer.code in s.rooms && !TokenMatches(digest, authorization, s.rooms[offer.code].ownerHash) then
        Outcome(s, Refused(409, "room_code_taken"))
      else
        Outcome(Open(s, offer, digest(ownerToken), later + ROOM_TTL), Opened(offer.displayCode, ownerToken))
  }

  /** A new room takes over its code, and the requests to the old one are forgotten. */
  function Open(s: State, offer: Offer, ownerHash: string, expiresAt: real): State {
    var room := Room(offer.displayCode, offer.inviteCode, ownerHash, offer.compatibility, false, expiresAt,
                     s.incarnations);
    s.(rooms := s.rooms[offer.code := room], requests := Without(s.requests, offer.code),
       incarnations := s.incarnations + 1)
  }

  function Prolong(s: State, code: string, expiresAt: real): State
    requires code in s.rooms
  {
    s.(rooms := s.rooms[code := s.rooms[code].(expiresAt := expiresAt)])
  }

  function Drop(s: State, code: string): State {
    s.(rooms := s.rooms - {code}, requests := Without(s.requests, code))
  }

  function File(s: State, requestId: string, code: string, offered: Compatibility, tokenHash: string, guest: Guest,
                expiresAt: real): State
    requires code in s.rooms
  {
    var request := JoinRequest(code, tokenHash, guest, Waiting, expiresAt, s.rooms[code].incarnation, offered);
    s.(requests := s.requests[requestId := request], order := Filing(s.order, s.requests, requestId))
  }

  function Leaving(order: seq<string>, id: string): seq<string> {
    if order == [] then []
    else
      var last := order[|order| - 1];
      Leaving(order[..|order| - 1], id) + if last == id then [] else [last]
  }

  /** A new request comes last; one that is filed again keeps its place. */
  function Filing(order: seq<string>, requests: map<string, JoinRequest>, id: string): seq<string> {
    if id in requests then order else Leaving(order, id) + [id]
  }

  /** The requests waiting at a room, in the order they were filed. */
  function InOrder(order: seq<string>, requests: map<string, JoinRequest>, code: string): seq<Listed> {
    if order == [] then []
    else
      var id := order[|order| - 1];
      InOrder(order[..|order| - 1], requests, code)
      + if id in WaitingIn(requests, code) then [Listed(id, requests[id].guest)] else []
  }

  function TurnAway(s: State, requestId: string, expiresAt: real): State
    requires requestId in s.requests
  {
    s.(requests := s.requests[requestId := s.requests[requestId].(status := Denied, expiresAt := expiresAt)])
  }

  /** The first admission closes the room and turns everybody else waiting there away. */
  function Admit(s: State, code: string, requestId: string, expiresAt: real): State
    requires code in s.rooms && requestId in s.requests
  {
    var room := s.rooms[code];
    var admitted := s.requests[requestId := s.requests[requestId].(status := Admitted, expiresAt := expiresAt)];
    s.(rooms := s.rooms[code := room.(admissionClosed := true)],
       requests := DenyOthers(admitted, code, requestId, expiresAt),
       admissions := s.admissions + [Admission(requestId, room.incarnation, room.inviteCode, room.ownerHash)])
  }

  function Heartbeat(digest: string -> string, before: State, code: string, authorization: string,
                     now: real, later: real): Outcome
  {
    var s := Expire(before, now);
    if code !in s.rooms then Outcome(s, Refused(404, "private_room_not_found"))
    else if !TokenMatches(digest, authorization, s.rooms[code].ownerHash) then
      Outcome(s, Refused(403, "not_room_owner"))
    else Outcome(Prolong(s, code, later + ROOM_TTL), Alive(s.rooms[code].admissionClosed))
  }

  function Remove(digest: string -> string, before: State, code: string, authorization: string, now: real): Outcome {
    var s := Expire(before, now);
    if code !in s.rooms then Outcome(s, Removed)
    else if !TokenMatches(digest, authorization, s.rooms[code].ownerHash) then
      Outcome(s, Refused(403, "not_room_owner"))
    else Outcome(Drop(s, code), Removed)
  }

  function Ask(digest: string -> string, before: State, code: string, offered: Compatibility, body: Parsed<Guest>,
               requestId: string, requestToken: string, now: real, later: real): Outcome
  {
    var s := Expire(before, now);
    if code !in s.rooms then Outcome(s, Refused(404, "private_room_not_found"))
    else if s.rooms[code].admissionClosed then Outcome(s, Refused(409, "room_already_admitted"))
    else if offered != s.rooms[code].compatibility then
      Outcome(s, UpdateRequired(s.rooms[code].compatibility.applicationVersion))
    else if body.Invalid? then Outcome(s, Refused(400, "join_request_invalid"))
    else if |WaitingIn(s.requests, code)| >= MAXIMUM_WAITING then Outcome(s, Refused(429, "waiting_room_full"))
    else
      Outcome(File(s, requestId, code, offered, digest(requestToken), body.value, later + REQUEST_TTL),
              Filed(requestId, requestToken))
  }

  function ListWaiting(digest: string -> string, before: State, code: string, authorization: string, now: real): Outcome {
    var s := Expire(before, now);
    if code !in s.rooms then Outcome(s, Refused(404, "private_room_not_found"))
    else if !TokenMatches(digest, authorization, s.rooms[code].ownerHash) then
      Outcome(s, Refused(403, "not_room_owner"))
    else
      Outcome(s, Requests(InOrder(s.order, s.requests, code)))
  }

  /** Every other waiting request of a room is turned away. */
  function DenyOthers(requests: map<string, JoinRequest>, code: string, chosen: string, expiresAt: real):
    map<string, JoinRequest>
  {
    map id | id in requests ::
      if id != chosen && requests[id].roomCode == code && requests[id].status == Waiting
      then requests[id].(status := Denied, expiresAt := expiresAt)
      else requests[id]
  }

  function Decide(digest: string -> string, before: State, code: string, requestId: string, authorization: string,
                  approve: bool, now: real, later: real): Outcome
  {
    var s := Expire(before, now);
    if code !in s.rooms || requestId !in s.requests || s.requests[requestId].roomCode != code then
      Outcome(s, Refused(404, "join_request_not_found"))
    else
      var room := s.rooms[code];
      if !TokenMatches(digest, authorization, room.ownerHash) then Outcome(s, Refused(403, "not_room_owner"))
      else if s.requests[requestId].status != Waiting then Outcome(s, Refused(409, "join_request_already_decided"))
      else if approve && room.admissionClosed then Outcome(s, Refused(409, "room_already_admitted"))
      else if approve then Outcome(Admit(s, code, requestId, later + REQUEST_TTL), Decided(Admitted))
      else Outcome(TurnAway(s, requestId, later + REQUEST_TTL), Decided(Denied))
  }

  function StatusOf(digest: string -> string, s: State, requestId: string, authorization: string): Reply {
    if requestId !in s.requests then Refused(404, "join_request_not_found")
    else
      var request := s.requests[requestId];
      if !TokenMatches(digest, authorization, request.tokenHash) then Refused(403, "not_request_owner")
      else if request.status != Admitted then StatusIs(request.status)
      else if request.roomCode !in s.rooms then Refused(404, "private_room_not_found")
      else Invited(s.rooms[request.roomCode].inviteCode)
  }

  function CheckStatus(digest: string -> string, before: State, requestId: string, authorization: string, now: real):
    Outcome
  {
    var s := Expire(before, now);
    Outcome(s, StatusOf(digest, s, requestId, authorization))
  }

  // ---------------------------------------------------------------- invariant

  ghost predicate Numbered(s: State) {
    && (forall c | c in s.rooms :: s.rooms[c].incarnation < s.incarnations)
    && (forall c, d | c in s.rooms && d in s.rooms && c != d :: s.rooms[c].incarnation != s.rooms[d].incarnation)
  }

  /** Every request is to a room that is still open under its code: the very room it was made to, by a guest whose
      build is the room's. */
  ghost predicate Housed(s: State) {
    forall id | id in s.requests ::
      && s.requests[id].roomCode in s.rooms
      && s.requests[id].joined == s.rooms[s.requests[id].roomCode].incarnation
      && s.requests[id].offered == s.rooms[s.requests[id].roomCode].compatibility
  }

  /** Nobody waits at a closed room, and an admission closes the room. */
  ghost predicate Gated(s: State)
    requires Housed(s)
  {
    forall id | id in s.requests ::
      && (s.requests[id].status == Waiting ==> !s.rooms[s.requests[id].roomCode].admissionClosed)
      && (s.requests[id].status == Admitted ==> s.rooms[s.requests[id].roomCode].admissionClosed)
  }

  ghost predicate OneAdmitted(s: State) {
    forall a, b | a in s.requests && b in s.requests && a != b
                  && s.requests[a].status == Admitted && s.requests[b].status == Admitted ::
      s.requests[a].roomCode != s.requests[b].roomCode
  }

  ghost predicate Capped(s: State) {
    forall c :: |WaitingIn(s.requests, c)| <= MAXIMUM_WAITING
  }

  /** The admission that closed a room, if one did. */
  ghost predicate Justified(s: State)
    requires Housed(s)
  {
    forall id | id in s.requests && s.requests[id].status == Admitted ::
      var room := s.rooms[s.requests[id].roomCode];
      Admission(id, room.incarnation, room.inviteCode, room.ownerHash) in s.admissions
  }

  ghost predicate Mentions(s: State, incarnation: nat) {
    exists k :: 0 <= k < |s.admissions| && s.admissions[k].incarnation == incarnation
  }

  /** One admission for each room ever opened, and none yet for a room still open to guests. */
  ghost predicate SingleUse(s: State) {
    && (forall i, j | 0 <= i < j < |s.admissions| :: s.admissions[i].incarnation != s.admissions[j].incarnation)
    && (forall k | 0 <= k < |s.admissions| :: s.admissions[k].incarnation < s.incarnations)
    && (forall c | c in s.rooms && !s.rooms[c].admissionClosed :: !Mentions(s, s.rooms[c].incarnation))
  }

  ghost predicate Invariant(s: State) {
    && Numbered(s) && Housed(s) && Gated(s) && OneAdmitted(s) && Capped(s) && Justified(s) && SingleUse(s)
  }

  lemma FewerWait(a: map<string, JoinRequest>, b: map<string, JoinRequest>)
    requires forall id | id in b && b[id].status == Waiting :: id in a && a[id].status == Waiting && a[id].roomCode == b[id].roomCode
    ensures forall c :: |WaitingIn(b, c)| <= |WaitingIn(a, c)|
  {
    forall c ensures |WaitingIn(b, c)| <= |WaitingIn(a, c)| {
      Contained(WaitingIn(b, c), WaitingIn(a, c));
    }
  }

  lemma ExpireKeepsInvariant(s: State, now: real)
    requires Invariant(s)
    ensures Invariant(Expire(s, now))
  {
    FewerWait(s.requests, Expire(s, now).requests);
    hide WaitingIn;
  }

  lemma OpenKeepsInvariant(s: State, offer: Offer, ownerHash: string, expiresAt: real)
    requires Invariant(s)
    ensures Invariant(Open(s, offer, ownerHash, expiresAt))
  {
    var r := Open(s, offer, ownerHash, expiresAt);
    FewerWait(s.requests, Without(s.requests, offer.code));
    hide WaitingIn, SingleUse;
    OpenIsUnmentioned(s, offer, ownerHash, expiresAt);
    assert Numbered(r) && Housed(r) && OneAdmitted(r) && Capped(r);
    assert Gated(r) && Justified(r);
  }

  lemma OpenIsUnmentioned(s: State, offer: Offer, ownerHash: string, expiresAt: real)
    requires SingleUse(s)
    ensures SingleUse(Open(s, offer, ownerHash, expiresAt))
  {
    hide Without;
  }

  lemma ProlongKeepsInvariant(s: State, code: string, expiresAt: real)
    requires Invariant(s) && code in s.rooms
    ensures Invariant(Prolong(s, code, expiresAt))
  {
    hide WaitingIn;
  }

  lemma DropKeepsInvariant(s: State, code: string)
    requires Invariant(s)
    ensures Invariant(Drop(s, code))
  {
    hide WaitingIn;
    FewerWait(s.requests, Without(s.requests, code));
  }

  lemma FileWaits(requests: map<string, JoinRequest>, id: string, request: JoinRequest, c: string)
    requires request.status == Waiting
    ensures |WaitingIn(requests[id := request], c)| <= |WaitingIn(requests, c)| + if c == request.roomCode then 1 else 0
  {
    if c == request.roomCode {
      Contained(WaitingIn(requests[id := request], c), WaitingIn(requests, c) + {id});
    } else {
      Contained(WaitingIn(requests[id := request], c), WaitingIn(requests, c));
    }
  }

  lemma FileKeepsInvariant(s: State, requestId: string, code: string, offered: Compatibility, tokenHash: string,
                           guest: Guest, expiresAt: real)
    requires Invariant(s) && code in s.rooms && !s.rooms[code].admissionClosed && offered == s.rooms[code].compatibility
    requires |WaitingIn(s.requests, code)| < MAXIMUM_WAITING
    ensures Invariant(File(s, requestId, code, offered, tokenHash, guest, expiresAt))
  {
    var r := File(s, requestId, code, offered, tokenHash, guest, expiresAt);
    hide WaitingIn;
    forall c ensures |WaitingIn(r.requests, c)| <= MAXIMUM_WAITING {
      FileWaits(s.requests, requestId, r.requests[requestId], c);
      assert |WaitingIn(s.requests, c)| <= MAXIMUM_WAITING;
    }
  }

  lemma TurnAwayKeepsInvariant(s: State, requestId: string, expiresAt: real)
    requires Invariant(s) && requestId in s.requests && s.requests[requestId].status == Waiting
    ensures Invariant(TurnAway(s, requestId, expiresAt))
  {
    FewerWait(s.requests, TurnAway(s, requestId, expiresAt).requests);
    TurnAwayKeepsUse(s, requestId, expiresAt);
    hide WaitingIn, SingleUse;
  }

  lemma TurnAwayKeepsUse(s: State, requestId: string, expiresAt: real)
    requires SingleUse(s) && requestId in s.requests
    ensures SingleUse(TurnAway(s, requestId, expiresAt))
  {
  }

  ghost predicate Admissible(s: State, code: string, requestId: string) {
    && code in s.rooms && !s.rooms[code].admissionClosed
    && requestId in s.requests && s.requests[requestId].roomCode == code && s.requests[requestId].status == Waiting
  }

  lemma AdmitKeepsInvariant(s: State, code: string, requestId: string, expiresAt: real)
    requires Invariant(s) && Admissible(s, code, requestId)
    ensures Invariant(Admit(s, code, requestId, expiresAt))
  {
    AdmitKeepsCap(s, code, requestId, expiresAt);
    hide Admit;
  }

  lemma AdmitKeepsCap(s: State, code: string, requestId: string, expiresAt: real)
    requires Capped(s) && Admissible(s, code, requestId)
    ensures Capped(Admit(s, code, requestId, expiresAt))
  {
    FewerWait(s.requests, Admit(s, code, requestId, expiresAt).requests);
    hide WaitingIn;
  }

  // ---------------------------------------------------------------- runs

  datatype Op =
    | DoCreate(offer: Parsed<Offer>, authorization: string, ownerToken: string)
    | DoHeartbeat(code: string, authorization: string)
    | DoRemove(code: string, authorization: string)
    | DoAsk(code: string, compatibility: Compatibility, guest: Parsed<Guest>, requestId: string, requestToken: string)
    | DoList(code: string, authorization: string)
    | DoDecide(code: string, requestId: string, authorization: string, approve: bool)
    | DoCheck(requestId: string, authorization: string)
    | DoExpire

  /** One call, its expiry at `now` and its own timestamps at `later`. */
  datatype Call = Call(op: Op, now: real, later: real)

  function Perform(digest: string -> string, s: State, call: Call): Outcome {
    match call.op
    case DoCreate(offer, authorization, token) => Create(digest, s, offer, authorization, token, call.now, call.later)
    case DoHeartbeat(code, authorization) => Heartbeat(digest, s, code, authorization, call.now, call.later)
    case DoRemove(code, authorization) => Remove(digest, s, code, authorization, call.now)
    case DoAsk(code, compatibility, guest, id, token) =>
      Ask(digest, s, code, compatibility, guest, id, token, call.now, call.later)
    case DoList(code, authorization) => ListWaiting(digest, s, code, authorization, call.now)
    case DoDecide(code, id, authorization, approve) =>
      Decide(digest, s, code, id, authorization, approve, call.now, call.later)
    case DoCheck(id, authorization) => CheckStatus(digest, s, id, authorization, call.now)
    case DoExpire => Outcome(Expire(s, call.now), Removed)
  }

  function Empty(): State { State(map[], map[], [], 0, []) }

  function Run(digest: string -> string, s: State, calls: seq<Call>): State
    decreases |calls|
  {
    if calls == [] then s else Run(digest, Perform(digest, s, calls[0]).state, calls[1..])
  }

  lemma CreateKeepsInvariant(digest: string -> string, s: State, body: Parsed<Offer>, authorization: string,
                             ownerToken: string, now: real, later: real)
    requires Invariant(s)
    ensures Invariant(Create(digest, s, body, authorization, ownerToken, now, later).state)
  {
    hide Invariant, Expire, TokenMatches, Open;
    ExpireKeepsInvariant(s, now);
    if body.Valid? { OpenKeepsInvariant(Expire(s, now), body.value, digest(ownerToken), later + ROOM_TTL); }
  }

  lemma TendKeepsInvariant(digest: string -> string, s: State, code: string, authorization: string, now: real, later: real)
    requires Invariant(s)
    ensures Invariant(Heartbeat(digest, s, code, authorization, now, later).state)
    ensures Invariant(Remove(digest, s, code, authorization, now).state)
  {
    hide Invariant, Expire, TokenMatches, Prolong, Drop;
    ExpireKeepsInvariant(s, now);
    var e := Expire(s, now);
    if code in e.rooms { ProlongKeepsInvariant(e, code, later + ROOM_TTL); }
    DropKeepsInvariant(e, code);
  }

  lemma AskKeepsInvariant(digest: string -> string, s: State, code: string, offered: Compatibility, body: Parsed<Guest>,
                          requestId: string, requestToken: string, now: real, later: real)
    requires Invariant(s)
    ensures Invariant(Ask(digest, s, code, offered, body, requestId, requestToken, now, later).state)
  {
    hide Invariant, Expire, File, WaitingIn;
    ExpireKeepsInvariant(s, now);
    if Ask(digest, s, code, offered, body, requestId, requestToken, now, later).reply.Filed? {
      FileKeepsInvariant(Expire(s, now), requestId, code, offered, digest(requestToken), body.value, later + REQUEST_TTL);
    }
  }

  lemma DecideKeepsInvariant(digest: string -> string, s: State, code: string, requestId: string, authorization: string,
                             approve: bool, now: real, later: real)
    requires Invariant(s)
    ensures Invariant(Decide(digest, s, code, requestId, authorization, approve, now, later).state)
  {
    hide Invariant, Expire, TokenMatches, TurnAway, Admit;
    ExpireKeepsInvariant(s, now);
    var e := Expire(s, now);
    if Decide(digest, s, code, requestId, authorization, approve, now, later).reply.Decided? {
      if approve {
        AdmitKeepsInvariant(e, code, requestId, later + REQUEST_TTL);
      } else {
        TurnAwayKeepsInvariant(e, requestId, later + REQUEST_TTL);
      }
    }
  }

  lemma PerformKeepsInvariant(digest: string -> string, s: State, call: Call)
    requires Invariant(s)
    ensures Invariant(Perform(digest, s, call).state)
  {
    hide Invariant, Create, Heartbeat, Remove, Ask, Decide, Expire;
    ExpireKeepsInvariant(s, call.now);
    match call.op
    case DoCreate(body, authorization, token) =>
      CreateKeepsInvariant(digest, s, body, authorization, token, call.now, call.later);
    case DoHeartbeat(code, authorization) => TendKeepsInvariant(digest, s, code, authorization, call.now, call.later);
    case DoRemove(code, authorization) => TendKeepsInvariant(digest, s, code, authorization, call.now, call.later);
    case DoAsk(code, compatibility, guest, id, token) =>
      AskKeepsInvariant(digest, s, code, compatibility, guest, id, token, call.now, call.later);
    case DoDecide(code, id, authorization, approve) =>
      DecideKeepsInvariant(digest, s, code, id, authorization, approve, call.now, call.later);
    case _ =>
  }

  lemma {:induction false} RunKeepsInvariant(digest: string -> string, s: State, calls: seq<Call>)
    requires Invariant(s)
    ensures Invariant(Run(digest, s, calls))
    decreases |calls|
  {
    if calls != [] {
      hide Invariant, Perform;
      PerformKeepsInvariant(digest, s, calls[0]);
      RunKeepsInvariant(digest, Perform(digest, s, calls[0]).state, calls[1..]);
    }
  }

  // ---------------------------------------------------------------- what runs guarantee

  ghost predicate Reachable(digest: string -> string, s: State) {
    exists calls :: s == Run(digest, Empty(), calls)
  }

  lemma ReachableIsSound(digest: string -> string, s: State)
    requires Reachable(digest, s)
    ensures Invariant(s)
  {
    var calls :| s == Run(digest, Empty(), calls);
    RunKeepsInvariant(digest, Empty(), calls);
  }

  /** Rooms after any run: at most sixteen wait, at most one is admitted, an admission closes the room and
      nobody waits at a closed one. */
  lemma RoomsAdmitOne(digest: string -> string, s: State, code: string)
    requires Reachable(digest, s)
    ensures |WaitingIn(s.requests, code)| <= MAXIMUM_WAITING
    ensures forall a, b | a in s.requests && b in s.requests && a != b && s.requests[a].roomCode == s.requests[b].roomCode ::
              !(s.requests[a].status == Admitted && s.requests[b].status == Admitted)
    ensures forall id | id in s.requests :: s.requests[id].roomCode in s.rooms
    ensures code in s.rooms && s.rooms[code].admissionClosed ==> WaitingIn(s.requests, code) == {}
    ensures forall id | id in s.requests && s.requests[id].status == Admitted ::
              s.rooms[s.requests[id].roomCode].admissionClosed
  {
    ReachableIsSound(digest, s);
  }

  /** An invite is handed out only to the one request that the owner of that very room admitted; the
      missing-room refusal behind an admitted request cannot happen. */
  lemma InviteIsTheAdmittedOnes(digest: string -> string, s: State, requestId: string, authorization: string, now: real)
    requires Reachable(digest, s)
    ensures var r := CheckStatus(digest, s, requestId, authorization, now);
            && (r.reply.Invited? ==>
                  var request := s.requests[requestId];
                  var room := s.rooms[request.roomCode];
                  && requestId in s.requests && request.status == Admitted && request.roomCode in s.rooms
                  && request.joined == room.incarnation && r.reply.inviteCode == room.inviteCode
                  && Admission(requestId, room.incarnation, room.inviteCode, room.ownerHash) in s.admissions)
            && r.reply != Refused(404, "private_room_not_found")
  {
    ReachableIsSound(digest, s);
    ExpireKeepsInvariant(s, now);
    hide TokenMatches, WaitingIn, SingleUse, OneAdmitted, Capped, Numbered;
  }

  /** However rooms come and go, each room ever opened has admitted at most one request. */
  lemma AdmissionsAreSingleUse(digest: string -> string, s: State, i: nat, j: nat)
    requires Reachable(digest, s) && i < j < |s.admissions|
    ensures s.admissions[i].incarnation != s.admissions[j].incarnation
  {
    ReachableIsSound(digest, s);
  }

  // ---------------------------------------------------------------- the waiting list

  ghost predicate Distinct(order: seq<string>) {
    forall i, j | 0 <= i < j < |order| :: order[i] != order[j]
  }

  /** Every request has one place in the order. */
  ghost predicate Roll(s: State) {
    Distinct(s.order) && forall id | id in s.requests :: id in s.order
  }

  lemma {:induction false} LeavingIs(order: seq<string>, id: string)
    requires Distinct(order)
    ensures Distinct(Leaving(order, id))
    ensures forall other :: other in Leaving(order, id) <==> other in order && other != id
  {
    if order != [] {
      var front, last := order[..|order| - 1], order[|order| - 1];
      LeavingIs(front, id);
      assert order == front + [last];
      assert forall i | 0 <= i < |front| :: front[i] == order[i] != last;
      assert forall i | 0 <= i < |Leaving(front, id)| :: Leaving(front, id)[i] in front;
    }
  }

  lemma PerformKeepsRoll(digest: string -> string, s: State, call: Call)
    requires Roll(s)
    ensures Roll(Perform(digest, s, call).state)
  {
    if call.op.DoAsk? {
      FilingIs(s.order, Expire(s, call.now).requests, call.op.requestId);
      hide Distinct, WaitingIn, Filing;
    } else {
      OthersKeepOrder(digest, s, call);
      hide Perform, Distinct;
    }
  }

  lemma FilingIs(order: seq<string>, requests: map<string, JoinRequest>, id: string)
    requires Distinct(order) && forall other | other in requests :: other in order
    ensures var r := Filing(order, requests, id);
            Distinct(r) && id in r && forall other | other in requests :: other in r
  {
    LeavingIs(order, id);
    var left := Leaving(order, id);
    assert forall i | 0 <= i < |left| :: left[i] in left;
    hide Leaving;
  }

  lemma OthersKeepOrder(digest: string -> string, s: State, call: Call)
    requires !call.op.DoAsk?
    ensures var r := Perform(digest, s, call).state;
            r.order == s.order && forall id | id in r.requests :: id in s.requests
  {
    hide WaitingIn, TokenMatches, InOrder;
  }

  lemma {:induction false} RunKeepsRoll(digest: string -> string, s: State, calls: seq<Call>)
    requires Roll(s)
    ensures Roll(Run(digest, s, calls))
    decreases |calls|
  {
    if calls != [] {
      hide Roll, Perform;
      PerformKeepsRoll(digest, s, calls[0]);
      RunKeepsRoll(digest, Perform(digest, s, calls[0]).state, calls[1..]);
    }
  }

  lemma {:induction false} ListedAre(order: seq<string>, requests: map<string, JoinRequest>, code: string, x: Listed)
    ensures x in InOrder(order, requests, code)
            <==> x.requestId in order && x.requestId in WaitingIn(requests, code) && x.guest == requests[x.requestId].guest
  {
    if order != [] {
      ListedAre(order[..|order| - 1], requests, code, x);
      assert order == order[..|order| - 1] + [order[|order| - 1]];
    }
  }

  lemma {:induction false} ListedOnce(order: seq<string>, requests: map<string, JoinRequest>, code: string)
    requires Distinct(order)
    ensures var listed := InOrder(order, requests, code);
            forall i, j | 0 <= i < j < |listed| :: listed[i].requestId != listed[j].requestId
  {
    if order != [] {
      var front, last := order[..|order| - 1], order[|order| - 1];
      ListedOnce(front, requests, code);
      var before := InOrder(front, requests, code);
      forall i | 0 <= i < |before| ensures before[i].requestId != last {
        ListedAre(front, requests, code, before[i]);
      }
      hide WaitingIn;
    }
  }

  /** The list an owner gets has every request waiting at the room, each once. */
  lemma ListingIsWhole(digest: string -> string, s: State, code: string)
    requires Reachable(digest, s)
    ensures var listed := InOrder(s.order, s.requests, code);
            && (forall x :: x in listed
                            <==> x.requestId in WaitingIn(s.requests, code) && x.guest == s.requests[x.requestId].guest)
            && (forall i, j | 0 <= i < j < |listed| :: listed[i].requestId != listed[j].requestId)
  {
    var calls :| s == Run(digest, Empty(), calls);
    RunKeepsRoll(digest, Empty(), calls);
    ListedOnce(s.order, s.requests, code);
    forall x ensures x in InOrder(s.order, s.requests, code)
                     <==> x.requestId in WaitingIn(s.requests, code) && x.guest == s.requests[x.requestId].guest
    {
      ListedAre(s.order, s.requests, code, x);
    }
  }

  lemma {:induction false} LeavingKeepsList(order: seq<string>, requests: map<string, JoinRequest>, code: string, id: string)
    requires id !in requests
    ensures InOrder(Leaving(order, id), requests, code) == InOrder(order, requests, code)
  {
    if order != [] {
      var front, last := order[..|order| - 1], order[|order| - 1];
      LeavingKeepsList(front, requests, code, id);
      var left := Leaving(front, id);
      if last == id {
        assert left + [] == left;
      } else {
        assert (left + [last])[..|left|] == left;
      }
      hide Leaving;
    }
  }

  lemma {:induction false} ListIgnores(order: seq<string>, requests: map<string, JoinRequest>, code: string, id: string,
                                       request: JoinRequest)
    requires id !in order
    ensures InOrder(order, requests[id := request], code) == InOrder(order, requests, code)
  {
    if order != [] {
      ListIgnores(order[..|order| - 1], requests, code, id, request);
      assert order[|order| - 1] in order;
    }
  }

  /** A new request joins the end of the list of its room, and no other list changes. */
  lemma FiledIsListedLast(s: State, requestId: string, code: string, offered: Compatibility, tokenHash: string, guest: Guest,
                          expiresAt: real, other: string)
    requires Roll(s) && code in s.rooms && requestId !in s.requests
    ensures var r := File(s, requestId, code, offered, tokenHash, guest, expiresAt);
            InOrder(r.order, r.requests, other) ==
            InOrder(s.order, s.requests, other) + if other == code then [Listed(requestId, guest)] else []
  {
    var r, before := File(s, requestId, code, offered, tokenHash, guest, expiresAt), Leaving(s.order, requestId);
    LeavingIs(s.order, requestId);
    LeavingKeepsList(s.order, s.requests, other, requestId);
    ListIgnores(before, s.requests, other, requestId, r.requests[requestId]);
    assert r.order[..|r.order| - 1] == before && r.requests == s.requests[requestId := r.requests[requestId]];
    hide InOrder;
    ListsLast(before, r.requests, other, requestId);
  }

  lemma ListsLast(before: seq<string>, requests: map<string, JoinRequest>, code: string, id: string)
    requires id in requests
    ensures InOrder(before + [id], requests, code) ==
            InOrder(before, requests, code)
            + if requests[id].roomCode == code && requests[id].status == Waiting then [Listed(id, requests[id].guest)] else []
  {
    assert (before + [id])[..|before|] == before;
  }

  // ---------------------------------------------------------------- who admits

  /** A call approves a request with the token of the owner of the room it names, which is thereby the room
      of the admission `a`. */
  predicate Approves(digest: string -> string, s: State, call: Call, a: Admission) {
    && call.op.DoDecide? && call.op.approve && call.op.requestId == a.requestId
    && call.op.code in Expire(s, call.now).rooms
    && var room := Expire(s, call.now).rooms[call.op.code];
    && TokenMatches(digest, call.op.authorization, room.ownerHash)
    && a == Admission(a.requestId, room.incarnation, room.inviteCode, room.ownerHash)
  }

  /** A decision to approve, with the token of the owner of an open room, on a request waiting there. */
  ghost predicate Admits(digest: string -> string, s: State, call: Call) {
    && call.op.DoDecide? && call.op.approve
    && Admissible(Expire(s, call.now), call.op.code, call.op.requestId)
    && TokenMatches(digest, call.op.authorization, Expire(s, call.now).rooms[call.op.code].ownerHash)
  }

  /** Such a decision adds one admission, that of the request to the room; no other call adds any, and nothing
      removes one. */
  lemma OnlyOwnersAdmit(digest: string -> string, s: State, call: Call)
    ensures var r := Perform(digest, s, call).state;
            && s.admissions <= r.admissions
            && (r.admissions != s.admissions <==> Admits(digest, s, call))
            && (Admits(digest, s, call) ==>
                  |r.admissions| == |s.admissions| + 1 && Approves(digest, s, call, r.admissions[|s.admissions|]))
  {
    hide WaitingIn, TokenMatches;
  }

  /** Every admission of a run was made by one call of that run, from the state the calls before it left. */
  lemma {:induction false} AdmissionsHaveDecisions(digest: string -> string, s: State, calls: seq<Call>, k: nat)
    returns (i: nat)
    requires |s.admissions| <= k < |Run(digest, s, calls).admissions|
    ensures i < |calls| && Approves(digest, Run(digest, s, calls[..i]), calls[i], Run(digest, s, calls).admissions[k])
    decreases |calls|
  {
    hide Perform, Approves;
    var next := Perform(digest, s, calls[0]).state;
    OnlyOwnersAdmit(digest, s, calls[0]);
    if k < |next.admissions| {
      AdmissionsStay(digest, next, calls[1..]);
      i := 0;
    } else {
      var j := AdmissionsHaveDecisions(digest, next, calls[1..], k);
      i := j + 1;
      assert calls[..i][1..] == calls[1..][..j];
    }
  }

  lemma {:induction false} AdmissionsStay(digest: string -> string, s: State, calls: seq<Call>)
    ensures s.admissions <= Run(digest, s, calls).admissions
    decreases |calls|
  {
    if calls != [] {
      hide Perform, Approves;
      OnlyOwnersAdmit(digest, s, calls[0]);
      AdmissionsStay(digest, Perform(digest, s, calls[0]).state, calls[1..]);
    }
  }

  /** So behind every invite there is an earlier call of the same run in which the owner of that very room, by
      token and incarnation, approved that very request. */
  lemma InvitesAreApproved(digest: string -> string, calls: seq<Call>, requestId: string, authorization: string, now: real)
    returns (i: nat)
    requires CheckStatus(digest, Run(digest, Empty(), calls), requestId, authorization, now).reply.Invited?
    ensures var s := Run(digest, Empty(), calls);
            && requestId in s.requests && s.requests[requestId].roomCode in s.rooms
            && var room := s.rooms[s.requests[requestId].roomCode];
            && CheckStatus(digest, s, requestId, authorization, now).reply.inviteCode == room.inviteCode
            && i < |calls|
            && Approves(digest, Run(digest, Empty(), calls[..i]), calls[i],
                        Admission(requestId, room.incarnation, room.inviteCode, room.ownerHash))
  {
    hide Approves, CheckStatus, Run;
    var s := Run(digest, Empty(), calls);
    assert Reachable(digest, s);
    InviteIsTheAdmittedOnes(digest, s, requestId, authorization, now);
    var room := s.rooms[s.requests[requestId].roomCode];
    var k :| 0 <= k < |s.admissions|
             && s.admissions[k] == Admission(requestId, room.incarnation, room.inviteCode, room.ownerHash);
    i := AdmissionsHaveDecisions(digest, Empty(), calls, k);
  }
}
