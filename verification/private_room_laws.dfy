/** Who may do what to a private room, what is answered, and how long rooms and requests last. */
module PrivateRoomLaws {
  import opened PrivateRooms

  // ---------------------------------------------------------------- tokens

  predicate IsToken(token: string) {
    |token| == 64 && forall i | 0 <= i < 64 :: token[i] in "0123456789abcdef"
  }

  lemma HexadecimalDigits(c: char)
    ensures Hexadecimal(c) <==> c in "0123456789abcdef"
  {
    var digits := "0123456789abcdef";
    assert digits[0] == '0' && digits[1] == '1' && digits[2] == '2' && digits[3] == '3' && digits[4] == '4';
    assert digits[5] == '5' && digits[6] == '6' && digits[7] == '7' && digits[8] == '8' && digits[9] == '9';
    assert digits[10] == 'a' && digits[11] == 'b' && digits[12] == 'c' && digits[13] == 'd' && digits[14] == 'e';
    assert digits[15] == 'f';
  }

  /** What opens a hash is the bearer header of a 64-digit token with that digest, and nothing else. */
  lemma TokenOpens(digest: string -> string, authorization: string, expected: string)
    ensures TokenMatches(digest, authorization, expected)
            <==> exists token :: IsToken(token) && authorization == "Bearer " + token && digest(token) == expected
  {
    forall c ensures Hexadecimal(c) <==> c in "0123456789abcdef" {
      HexadecimalDigits(c);
    }
    hide Hexadecimal;
    if TokenMatches(digest, authorization, expected) {
      var token := authorization[7..];
      assert IsToken(token) && authorization == "Bearer " + token;
    }
    if token :| IsToken(token) && authorization == "Bearer " + token && digest(token) == expected {
      assert authorization[..7] == "Bearer " && authorization[7..] == token;
    }
  }

  // ---------------------------------------------------------------- rights

  predicate OwnerOf(digest: string -> string, s: State, code: string, authorization: string) {
    code in s.rooms && TokenMatches(digest, authorization, s.rooms[code].ownerHash)
  }

  /** A call that tends, closes, replaces or removes a room with the token of its owner, or opens it. */
  predicate Touches(digest: string -> string, s: State, call: Call, code: string) {
    match call.op
    case DoCreate(offer, authorization, _) =>
      offer.Valid? && offer.value.code == code && (code !in s.rooms || OwnerOf(digest, s, code, authorization))
    case DoHeartbeat(c, authorization) => c == code && OwnerOf(digest, s, code, authorization)
    case DoRemove(c, authorization) => c == code && OwnerOf(digest, s, code, authorization)
    case DoDecide(c, _, authorization, _) => c == code && OwnerOf(digest, s, code, authorization)
    case _ => false
  }

  /** Nobody else changes a room. Whoever calls what, a room that has not expired is as it was afterwards, and one
      that is not there stays away, unless the call touches it. */
  lemma OnlyOwnersTouchRooms(digest: string -> string, s: State, call: Call, code: string)
    requires !Touches(digest, Expire(s, call.now), call, code)
    ensures var e, r := Expire(s, call.now), Perform(digest, s, call).state;
            if code in e.rooms then code in r.rooms && r.rooms[code] == e.rooms[code] else code !in r.rooms
  {
    hide TokenMatches, WaitingIn, InOrder, Filing, DenyOthers, Without;
  }

  /** Nobody else decides about a request: it is as it was unless the call touches its room or files it anew. */
  lemma OnlyOwnersDecide(digest: string -> string, s: State, call: Call, id: string)
    requires id in Expire(s, call.now).requests
    requires !Touches(digest, Expire(s, call.now), call, Expire(s, call.now).requests[id].roomCode)
    requires !(call.op.DoAsk? && call.op.requestId == id)
    ensures var e, r := Expire(s, call.now), Perform(digest, s, call).state;
            id in r.requests && r.requests[id] == e.requests[id]
  {
    hide TokenMatches, WaitingIn, InOrder, Filing;
  }

  /** The owner's token does work: a heartbeat gives the room ninety more seconds and changes nothing else. */
  lemma OwnerProlongs(digest: string -> string, s: State, code: string, authorization: string, now: real, later: real)
    ensures var e, r := Expire(s, now), Heartbeat(digest, s, code, authorization, now, later);
            && (OwnerOf(digest, e, code, authorization) ==>
                  && r.reply == Alive(e.rooms[code].admissionClosed)
                  && code in r.state.rooms && r.state.rooms[code] == e.rooms[code].(expiresAt := later + 90.0)
                  && r.state == e.(rooms := r.state.rooms))
            && (code !in e.rooms ==> r.reply == Refused(404, "private_room_not_found") && r.state == e)
            && (code in e.rooms && !OwnerOf(digest, e, code, authorization) ==>
                  r.reply == Refused(403, "not_room_owner") && r.state == e)
  {
    hide TokenMatches;
  }

  /** A removal takes the room and exactly the requests to it. */
  lemma OwnerRemoves(digest: string -> string, s: State, code: string, authorization: string, now: real)
    ensures var e, r := Expire(s, now), Remove(digest, s, code, authorization, now);
            && (code !in e.rooms ==> r.reply == Removed && r.state == e)
            && (code in e.rooms && !OwnerOf(digest, e, code, authorization) ==>
                  r.reply == Refused(403, "not_room_owner") && r.state == e)
            && (OwnerOf(digest, e, code, authorization) ==>
                  && r.reply == Removed && code !in r.state.rooms
                  && forall id :: id in r.state.requests
                                  <==> id in e.requests && e.requests[id].roomCode != code)
  {
    hide TokenMatches;
  }

  /** A room is opened if and only if the offer is valid and the code free or the caller's own. It is then open under
      the new token for ninety seconds, a new incarnation, with nobody waiting. */
  lemma OpeningIsFreeOrOwn(digest: string -> string, s: State, body: Parsed<Offer>, authorization: string,
                           ownerToken: string, now: real, later: real)
    ensures var e, r := Expire(s, now), Create(digest, s, body, authorization, ownerToken, now, later);
            && (body.Invalid? ==> r.reply == Refused(400, "private_room_invalid") && r.state == e)
            && (body.Valid? ==>
                  var code := body.value.code;
                  if code !in e.rooms || OwnerOf(digest, e, code, authorization) then
                    && r.reply == Opened(body.value.displayCode, ownerToken)
                    && code in r.state.rooms
                    && r.state.rooms[code] == Room(body.value.displayCode, body.value.inviteCode, digest(ownerToken),
                                                   body.value.compatibility, false, later + 90.0, e.incarnations)
                    && r.state.incarnations == e.incarnations + 1
                    && forall id :: id in r.state.requests
                                    <==> id in e.requests && e.requests[id].roomCode != code
                  else r.reply == Refused(409, "room_code_taken") && r.state == e)
  {
    hide TokenMatches;
  }

  // ---------------------------------------------------------------- requests

  predicate AskPermitted(e: State, code: string, offered: Compatibility, body: Parsed<Guest>) {
    && code in e.rooms && !e.rooms[code].admissionClosed && offered == e.rooms[code].compatibility
    && body.Valid? && |WaitingIn(e.requests, code)| < 16
  }

  /** A request is filed if and only if its room is there and open, the guest's build is the room's, the body is valid
      and fewer than sixteen wait; each refusal names the first of these that fails. What is filed waits for two
      minutes under the digest of the token handed out. */
  lemma AskIsFiledIffPermitted(digest: string -> string, s: State, code: string, offered: Compatibility,
                               body: Parsed<Guest>, requestId: string, requestToken: string, now: real, later: real)
    ensures var e, r := Expire(s, now), Ask(digest, s, code, offered, body, requestId, requestToken, now, later);
            var there := code in e.rooms;
            var open := there && !e.rooms[code].admissionClosed;
            var alike := open && offered == e.rooms[code].compatibility;
            && (r.reply == Filed(requestId, requestToken) <==> AskPermitted(e, code, offered, body))
            && (r.reply == Refused(404, "private_room_not_found") <==> !there)
            && (r.reply == Refused(409, "room_already_admitted") <==> there && !open)
            && (r.reply.UpdateRequired? <==> open && !alike)
            && (r.reply.UpdateRequired? ==> r.reply.requiredVersion == e.rooms[code].compatibility.applicationVersion)
            && (r.reply == Refused(400, "join_request_invalid") <==> alike && body.Invalid?)
            && (r.reply == Refused(429, "waiting_room_full")
                <==> alike && body.Valid? && |WaitingIn(e.requests, code)| >= 16)
            && (!AskPermitted(e, code, offered, body) ==> r.state == e)
            && (AskPermitted(e, code, offered, body) ==>
                  && r.state.rooms == e.rooms
                  && r.state.requests.Keys == e.requests.Keys + {requestId}
                  && (forall id | id in e.requests && id != requestId :: r.state.requests[id] == e.requests[id])
                  && r.state.requests[requestId]
                     == JoinRequest(code, digest(requestToken), body.value, Waiting, later + 120.0,
                                    e.rooms[code].incarnation, offered))
  {
    hide WaitingIn, Filing, TokenMatches;
  }

  /** In every run each request was made by a guest whose build is the room's, of the very incarnation it joined. */
  lemma GuestsAreCompatible(digest: string -> string, s: State, id: string)
    requires Reachable(digest, s) && id in s.requests
    ensures s.requests[id].roomCode in s.rooms
    ensures var request, room := s.requests[id], s.rooms[s.requests[id].roomCode];
            request.joined == room.incarnation && request.offered == room.compatibility
  {
    ReachableIsSound(digest, s);
    hide WaitingIn;
  }

  /** And so was every guest that is handed an invite. */
  lemma InvitedGuestIsCompatible(digest: string -> string, s: State, id: string, authorization: string, now: real)
    requires Reachable(digest, s) && CheckStatus(digest, s, id, authorization, now).reply.Invited?
    ensures id in s.requests && s.requests[id].roomCode in s.rooms
    ensures s.requests[id].offered == s.rooms[s.requests[id].roomCode].compatibility
  {
    ReachableIsSound(digest, s);
    hide WaitingIn, TokenMatches;
  }

  /** Everything of a request but its standing. */
  predicate SameRequest(a: JoinRequest, b: JoinRequest) {
    a == b.(status := a.status, expiresAt := a.expiresAt)
  }

  /** The call that filed a request. */
  ghost predicate FiledBy(digest: string -> string, s: State, call: Call, id: string, request: JoinRequest) {
    && call.op.DoAsk? && call.op.requestId == id && Perform(digest, s, call).reply.Filed?
    && call.op.code == request.roomCode && call.op.compatibility == request.offered
    && call.op.guest == Valid(request.guest) && digest(call.op.requestToken) == request.tokenHash
  }

  lemma RequestsStay(digest: string -> string, s: State, call: Call, id: string)
    requires id in Perform(digest, s, call).state.requests
    ensures var r := Perform(digest, s, call).state.requests[id];
            (id in s.requests && SameRequest(r, s.requests[id])) || FiledBy(digest, s, call, id, r)
  {
    if call.op.DoAsk? {
      hide WaitingIn, Filing;
    } else if call.op.DoDecide? {
      hide TokenMatches;
    } else {
      OthersKeepRequests(digest, s, call, id);
      hide Perform;
    }
  }

  lemma OthersKeepRequests(digest: string -> string, s: State, call: Call, id: string)
    requires !call.op.DoAsk? && !call.op.DoDecide? && id in Perform(digest, s, call).state.requests
    ensures id in s.requests && Perform(digest, s, call).state.requests[id] == s.requests[id]
  {
    hide TokenMatches, InOrder;
  }

  /** Every request of a run was there before it or was filed by a call of it, with the build, the guest and the token
      that it has. */
  lemma {:induction false} RequestsWereFiled(digest: string -> string, s: State, calls: seq<Call>, id: string)
    returns (i: int)
    requires id in Run(digest, s, calls).requests
    ensures var r := Run(digest, s, calls).requests[id];
            if i < 0 then id in s.requests && SameRequest(r, s.requests[id])
            else i < |calls| && FiledBy(digest, Run(digest, s, calls[..i]), calls[i], id, r)
    decreases |calls|
  {
    hide Perform, FiledBy;
    if calls == [] {
      i := -1;
    } else {
      var next := Perform(digest, s, calls[0]).state;
      var j := RequestsWereFiled(digest, next, calls[1..], id);
      if j < 0 {
        RequestsStay(digest, s, calls[0], id);
        var r := Run(digest, s, calls).requests[id];
        i := if id in s.requests && SameRequest(r, s.requests[id]) then -1 else 0;
        if i == 0 {
          SameFiling(digest, s, calls[0], id, next.requests[id], r);
          assert calls[..0] == [];
        }
      } else {
        i := j + 1;
        assert calls[..i][1..] == calls[1..][..j];
      }
    }
  }

  lemma SameFiling(digest: string -> string, s: State, call: Call, id: string, a: JoinRequest, b: JoinRequest)
    requires FiledBy(digest, s, call, id, a) && SameRequest(b, a)
    ensures FiledBy(digest, s, call, id, b)
  {
    hide Perform;
  }

  // ---------------------------------------------------------------- decisions and answers

  /** A decision is made if and only if the request is live at that live room, the token is the owner's, the request
      still waits and, for an approval, the room is open; each refusal names the first of these that fails. */
  lemma DecisionIsMadeIffPermitted(digest: string -> string, s: State, code: string, id: string, authorization: string,
                                   approve: bool, now: real, later: real)
    ensures var e, r := Expire(s, now), Decide(digest, s, code, id, authorization, approve, now, later);
            var there := code in e.rooms && id in e.requests && e.requests[id].roomCode == code;
            var owner := there && OwnerOf(digest, e, code, authorization);
            var waiting := owner && e.requests[id].status == Waiting;
            var open := waiting && (approve ==> !e.rooms[code].admissionClosed);
            && (r.reply == Decided(if approve then Admitted else Denied) <==> open)
            && (r.reply == Refused(404, "join_request_not_found") <==> !there)
            && (r.reply == Refused(403, "not_room_owner") <==> there && !owner)
            && (r.reply == Refused(409, "join_request_already_decided") <==> owner && !waiting)
            && (r.reply == Refused(409, "room_already_admitted") <==> waiting && !open)
            && (!open ==> r.state == e)
  {
    hide TokenMatches, DenyOthers;
  }

  /** What a decision that is made does to each request, and to the room. */
  lemma DecisionTakesEffect(digest: string -> string, s: State, code: string, id: string, authorization: string,
                            approve: bool, now: real, later: real, other: string)
    requires Decide(digest, s, code, id, authorization, approve, now, later).reply.Decided?
    ensures var e, r := Expire(s, now), Decide(digest, s, code, id, authorization, approve, now, later).state;
            && r.requests.Keys == e.requests.Keys && r.rooms.Keys == e.rooms.Keys && id in e.requests && code in e.rooms
            && (other in e.requests ==>
                  var aside := approve && e.requests[other].roomCode == code && e.requests[other].status == Waiting;
                  r.requests[other] ==
                  if other == id then e.requests[id].(status := if approve then Admitted else Denied, expiresAt := later + 120.0)
                  else if aside then e.requests[other].(status := Denied, expiresAt := later + 120.0)
                  else e.requests[other])
            && (other in e.rooms ==>
                  r.rooms[other] == if approve && other == code then e.rooms[other].(admissionClosed := true) else e.rooms[other])
  {
    hide TokenMatches;
  }

  /** The state of a request is told to the holder of its own token and to nobody else. */
  lemma StatusIsToldToItsOwner(digest: string -> string, s: State, id: string, authorization: string, now: real)
    ensures var e, r := Expire(s, now), CheckStatus(digest, s, id, authorization, now);
            var own := id in e.requests && TokenMatches(digest, authorization, e.requests[id].tokenHash);
            && r.state == e
            && (r.reply == Refused(404, "join_request_not_found") <==> id !in e.requests)
            && (r.reply == Refused(403, "not_request_owner") <==> id in e.requests && !own)
            && (r.reply.StatusIs? ==> own && r.reply.status == e.requests[id].status != Admitted)
            && (own && e.requests[id].status != Admitted ==> r.reply == StatusIs(e.requests[id].status))
            && (own && e.requests[id].status == Admitted && e.requests[id].roomCode in e.rooms ==>
                  r.reply == Invited(e.rooms[e.requests[id].roomCode].inviteCode))
  {
    hide TokenMatches;
  }

  /** The waiting list is read by the owner of a live room and by nobody else. */
  lemma ListIsReadByTheOwner(digest: string -> string, s: State, code: string, authorization: string, now: real)
    ensures var e, r := Expire(s, now), ListWaiting(digest, s, code, authorization, now);
            && r.state == e
            && (r.reply.Requests? <==> OwnerOf(digest, e, code, authorization))
            && (r.reply == Refused(404, "private_room_not_found") <==> code !in e.rooms)
            && (r.reply == Refused(403, "not_room_owner") <==> code in e.rooms && !OwnerOf(digest, e, code, authorization))
  {
    hide TokenMatches, InOrder;
  }

  // ---------------------------------------------------------------- lifetimes

  predicate LeftAlone(digest: string -> string, s: State, calls: seq<Call>, code: string)
    decreases |calls|
  {
    calls != [] ==>
      && !Touches(digest, Expire(s, calls[0].now), calls[0], code)
      && LeftAlone(digest, Perform(digest, s, calls[0]).state, calls[1..], code)
  }

  ghost predicate AllBefore(calls: seq<Call>, moment: real) {
    forall i | 0 <= i < |calls| :: calls[i].now < moment
  }

  /** A room that its owner leaves alone is there until its time has come, unchanged whatever anybody else does, and
      gone with the first call from then on. */
  lemma {:induction false} UntendedRoomLivesItsTime(digest: string -> string, s: State, calls: seq<Call>, code: string)
    requires code in s.rooms && LeftAlone(digest, s, calls, code)
    ensures var r := Run(digest, s, calls);
            && (code in r.rooms <==> AllBefore(calls, s.rooms[code].expiresAt))
            && (code in r.rooms ==> r.rooms[code] == s.rooms[code])
    decreases |calls|
  {
    if calls != [] {
      hide Perform, Touches;
      var next := Perform(digest, s, calls[0]).state;
      OnlyOwnersTouchRooms(digest, s, calls[0], code);
      if calls[0].now < s.rooms[code].expiresAt {
        UntendedRoomLivesItsTime(digest, next, calls[1..], code);
      } else {
        NobodyOpens(digest, next, calls[1..], code);
      }
    }
  }

  lemma {:induction false} NobodyOpens(digest: string -> string, s: State, calls: seq<Call>, code: string)
    requires code !in s.rooms && LeftAlone(digest, s, calls, code)
    ensures code !in Run(digest, s, calls).rooms
    decreases |calls|
  {
    if calls != [] {
      hide Perform, Touches;
      OnlyOwnersTouchRooms(digest, s, calls[0], code);
      NobodyOpens(digest, Perform(digest, s, calls[0]).state, calls[1..], code);
    }
  }

  ghost predicate NotFiled(calls: seq<Call>, id: string) {
    forall i | 0 <= i < |calls| :: !(calls[i].op.DoAsk? && calls[i].op.requestId == id)
  }

  /** So does a request: until its own time or its room's, and no longer. */
  lemma {:induction false} UndecidedRequestLivesItsTime(digest: string -> string, s: State, calls: seq<Call>, id: string)
    requires id in s.requests && s.requests[id].roomCode in s.rooms && NotFiled(calls, id)
    requires LeftAlone(digest, s, calls, s.requests[id].roomCode)
    ensures var r, room := Run(digest, s, calls), s.rooms[s.requests[id].roomCode];
            && (id in r.requests <==> AllBefore(calls, s.requests[id].expiresAt) && AllBefore(calls, room.expiresAt))
            && (id in r.requests ==> r.requests[id] == s.requests[id])
    decreases |calls|
  {
    if calls != [] {
      var call, next, code := calls[0], Perform(digest, s, calls[0]).state, s.requests[id].roomCode;
      OnlyOwnersTouchRooms(digest, s, call, code);
      if call.now < s.requests[id].expiresAt && call.now < s.rooms[code].expiresAt {
        OnlyOwnersDecide(digest, s, call, id);
        hide Perform, Touches;
        UndecidedRequestLivesItsTime(digest, next, calls[1..], id);
      } else {
        GoneStaysGone(digest, s, call, id);
        hide Perform, Touches;
        NobodyFiles(digest, next, calls[1..], id);
      }
    }
  }

  lemma GoneStaysGone(digest: string -> string, s: State, call: Call, id: string)
    requires id !in Expire(s, call.now).requests && !(call.op.DoAsk? && call.op.requestId == id)
    ensures id !in Perform(digest, s, call).state.requests
  {
    hide WaitingIn, TokenMatches, InOrder, Filing;
  }

  lemma {:induction false} NobodyFiles(digest: string -> string, s: State, calls: seq<Call>, id: string)
    requires id !in s.requests && NotFiled(calls, id)
    ensures id !in Run(digest, s, calls).requests
    decreases |calls|
  {
    if calls != [] {
      GoneStaysGone(digest, s, calls[0], id);
      hide Perform;
      NobodyFiles(digest, Perform(digest, s, calls[0]).state, calls[1..], id);
    }
  }
}
