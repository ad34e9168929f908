/** The directory service's in-memory state as an object: its tables are rebuilt, inserted into and
    deleted from in place. `PrivateRooms` and `RateWindow` say what the calls mean over whole runs. */
module DirectoryState {
  import opened PrivateRooms
  import opened FiniteSets
  import RateWindow

  /** A table of which some entries are left has fewer of them exactly when it is a different one. */
  lemma Submap<T>(rest: map<string, T>, all: map<string, T>)
    requires forall k | k in rest :: k in all && rest[k] == all[k]
    ensures rest != all <==> |rest| != |all|
  {
    assert |rest| == |rest.Keys| && |all| == |all.Keys|;
    if forall k | k in all :: k in rest {
      assert rest.Keys == all.Keys && rest == all;
    } else {
      var k :| k in all && k !in rest;
      Contained(rest.Keys, all.Keys - {k});
    }
  }

  function Unexpired(times: map<string, real>, now: real): map<string, real> {
    map id | id in times && times[id] > now :: times[id]
  }

  class Directory {
    const digest: string -> string
    var rooms: map<string, Room>
    var requests: map<string, JoinRequest>
    /** The order in which the requests were inserted. */
    var order: seq<string>
    /** When presences and lobbies run out; the calls that register them are not part of this model. */
    var presences: map<string, real>
    var lobbies: map<string, real>
    var rateWindows: map<string, seq<real>>
    /** Histories: rooms ever opened, and admissions ever made. */
    var incarnations: nat
    ghost var admissions: seq<Admission>

    ghost function Value(): State
      reads this
    {
      State(rooms, requests, order, incarnations, admissions)
    }

    constructor (digest: string -> string)
      ensures this.digest == digest && Value() == Empty() && rateWindows == map[]
    {
      this.digest := digest;
      rooms, requests, order, rateWindows, incarnations, admissions := map[], map[], [], map[], 0, [];
      presences, lobbies := map[], map[];
    }

    // ---------------------------------------------------------------- rate windows

    method PopExpired(window: seq<real>, now: real) returns (kept: seq<real>)
      ensures kept == RateWindow.Pruned(window, now)
    {
      kept := window;
      while kept != [] && kept[0] < now - RateWindow.WINDOW
        invariant RateWindow.Pruned(kept, now) == RateWindow.Pruned(window, now)
        decreases |kept|
      {
        kept := kept[1..];
      }
    }

    method RateAllowed(peer: string, now: real, limit: nat := 120) returns (allowed: bool)
      modifies this`rateWindows
      ensures allowed == RateWindow.Ask(RateWindow.WindowOf(old(rateWindows), peer), now, limit).allowed
      ensures rateWindows == RateWindow.AskFor(old(rateWindows), peer, now, limit)
    {
      var window := if peer in rateWindows then rateWindows[peer] else [];
      window := PopExpired(window, now);
      allowed := |window| < limit;
      if allowed {
        window := window + [now];
      }
      rateWindows := rateWindows[peer := window];
    }

    method SweepWindows(now: real)
      modifies this`rateWindows
      ensures rateWindows == RateWindow.ExpireAll(old(rateWindows), now)
    {
      var was := rateWindows;
      var pending := rateWindows.Keys;
      while pending != {}
        invariant pending <= rateWindows.Keys <= was.Keys
        invariant forall peer | peer in was ::
                    if peer in pending then peer in rateWindows && rateWindows[peer] == was[peer]
                    else (peer in rateWindows <==> RateWindow.Pruned(was[peer], now) != [])
                         && (peer in rateWindows ==> rateWindows[peer] == RateWindow.Pruned(was[peer], now))
        decreases |pending|
      {
        var peer :| peer in pending;
        pending := pending - {peer};
        var window := PopExpired(rateWindows[peer], now);
        rateWindows := if window == [] then rateWindows - {peer} else rateWindows[peer := window];
      }
    }

    // ---------------------------------------------------------------- private rooms

    /** Drops presences, lobbies and rooms past their time, and requests past theirs or without a room. */
    method Expire(now: real) returns (changed: bool)
      modifies this`presences, this`lobbies, this`rooms, this`requests, this`rateWindows
      ensures Value() == PrivateRooms.Expire(old(Value()), now)
      ensures presences == Unexpired(old(presences), now)
      ensures lobbies == Unexpired(old(lobbies), now)
      ensures rateWindows == RateWindow.ExpireAll(old(rateWindows), now)
      ensures changed <==> presences != old(presences) || lobbies != old(lobbies)
                           || rooms != old(rooms) || requests != old(requests)
    {
      var presencesBefore, lobbiesBefore := |presences|, |lobbies|;
      var roomsBefore, requestsBefore := |rooms|, |requests|;
      presences := Unexpired(presences, now);
      lobbies := Unexpired(lobbies, now);
      rooms := map c | c in rooms && rooms[c].expiresAt > now :: rooms[c];
      requests := map id | id in requests && requests[id].expiresAt > now && requests[id].roomCode in rooms
                       :: requests[id];
      SweepWindows(now);
      changed := |presences| != presencesBefore || |lobbies| != lobbiesBefore
                 || |rooms| != roomsBefore || |requests| != requestsBefore;
      Submap(presences, old(presences));
      Submap(lobbies, old(lobbies));
      Submap(rooms, old(rooms));
      Submap(requests, old(requests));
      hide Unexpired;
    }

    method DropRequestsTo(code: string)
      modifies this`requests
      ensures requests == Without(old(requests), code)
    {
      var was := requests;
      var pending := requests.Keys;
      while pending != {}
        invariant pending <= requests.Keys <= was.Keys
        invariant forall id | id in was ::
                    (id in requests <==> id in pending || was[id].roomCode != code)
                    && (id in requests ==> requests[id] == was[id])
        decreases |pending|
      {
        var id :| id in pending;
        pending := pending - {id};
        if requests[id].roomCode == code {
          requests := requests - {id};
        }
      }
    }

    method CreatePrivateRoom(body: Parsed<Offer>, authorization: string, ownerToken: string, now: real, later: real)
      returns (reply: Reply)
      modifies this
      ensures Outcome(Value(), reply) == Create(digest, old(Value()), body, authorization, ownerToken, now, later)
    {
      var _ := Expire(now);
      if body.Invalid? {
        return Refused(400, "private_room_invalid");
      }
      var offer := body.value;
      if offer.code in rooms && !TokenMatches(digest, authorization, rooms[offer.code].ownerHash) {
        return Refused(409, "room_code_taken");
      }
      rooms := rooms[offer.code := Room(offer.displayCode, offer.inviteCode, digest(ownerToken), offer.compatibility,
                                        false, later + ROOM_TTL, incarnations)];
      incarnations := incarnations + 1;
      DropRequestsTo(offer.code);
      return Opened(offer.displayCode, ownerToken);
    }

    method HeartbeatPrivateRoom(code: string, authorization: string, now: real, later: real) returns (reply: Reply)
      modifies this
      ensures Outcome(Value(), reply) == Heartbeat(digest, old(Value()), code, authorization, now, later)
    {
      var _ := Expire(now);
      if code !in rooms {
        return Refused(404, "private_room_not_found");
      }
      if !TokenMatches(digest, authorization, rooms[code].ownerHash) {
        return Refused(403, "not_room_owner");
      }
      rooms := rooms[code := rooms[code].(expiresAt := later + ROOM_TTL)];
      return Alive(rooms[code].admissionClosed);
    }

    method RemovePrivateRoom(code: string, authorization: string, now: real) returns (reply: Reply)
      modifies this
      ensures Outcome(Value(), reply) == Remove(digest, old(Value()), code, authorization, now)
    {
      var _ := Expire(now);
      if code !in rooms {
        return Removed;
      }
      if !TokenMatches(digest, authorization, rooms[code].ownerHash) {
        return Refused(403, "not_room_owner");
      }
      rooms := rooms - {code};
      requests := map id | id in requests && requests[id].roomCode != code :: requests[id];
      return Removed;
    }

    method RequestPrivateRoom(code: string, offered: Compatibility, body: Parsed<Guest>, requestId: string,
                              requestToken: string, now: real, later: real) returns (reply: Reply)
      modifies this
      ensures Outcome(Value(), reply) ==
              Ask(digest, old(Value()), code, offered, body, requestId, requestToken, now, later)
    {
      var _ := Expire(now);
      if code !in rooms {
        return Refused(404, "private_room_not_found");
      }
      if rooms[code].admissionClosed {
        return Refused(409, "room_already_admitted");
      }
      if offered != rooms[code].compatibility {
        return UpdateRequired(rooms[code].compatibility.applicationVersion);
      }
      if body.Invalid? {
        return Refused(400, "join_request_invalid");
      }
      if |WaitingIn(requests, code)| >= MAXIMUM_WAITING {
        return Refused(429, "waiting_room_full");
      }
      order := Filing(order, requests, requestId);
      requests := requests[requestId := JoinRequest(code, digest(requestToken), body.value, Waiting,
                                                    later + REQUEST_TTL, rooms[code].incarnation, offered)];
      return Filed(requestId, requestToken);
    }

    method ListPrivateRequests(code: string, authorization: string, now: real) returns (reply: Reply)
      modifies this
      ensures Outcome(Value(), reply) == ListWaiting(digest, old(Value()), code, authorization, now)
    {
      var _ := Expire(now);
      if code !in rooms {
        return Refused(404, "private_room_not_found");
      }
      if !TokenMatches(digest, authorization, rooms[code].ownerHash) {
        return Refused(403, "not_room_owner");
      }
      var listed := [];
      for i := 0 to |order|
        invariant listed == InOrder(order[..i], requests, code)
      {
        assert order[..i + 1][..i] == order[..i];
        var id := order[i];
        if id in requests && requests[id].roomCode == code && requests[id].status == Waiting {
          listed := listed + [Listed(id, requests[id].guest)];
        }
      }
      assert order[..|order|] == order;
      return Requests(listed);
    }

    /** The loop of the first admission: everybody else waiting at the room is turned away. */
    method TurnOthersAway(code: string, chosen: string, expiresAt: real)
      modifies this`requests
      ensures requests == DenyOthers(old(requests), code, chosen, expiresAt)
    {
      var was := requests;
      var pending := requests.Keys;
      while pending != {}
        invariant pending <= requests.Keys == was.Keys
        invariant forall id | id in was ::
                    requests[id] == if id in pending then was[id] else DenyOthers(was, code, chosen, expiresAt)[id]
        decreases |pending|
      {
        var id :| id in pending;
        pending := pending - {id};
        if id != chosen && requests[id].roomCode == code && requests[id].status == Waiting {
          requests := requests[id := requests[id].(status := Denied, expiresAt := expiresAt)];
        }
      }
    }

    method DecidePrivateRequest(code: string, requestId: string, authorization: string, approve: bool,
                                now: real, later: real) returns (reply: Reply)
      modifies this
      ensures Outcome(Value(), reply) ==
              Decide(digest, old(Value()), code, requestId, authorization, approve, now, later)
    {
      var _ := Expire(now);
      if code !in rooms || requestId !in requests || requests[requestId].roomCode != code {
        return Refused(404, "join_request_not_found");
      }
      if !TokenMatches(digest, authorization, rooms[code].ownerHash) {
        return Refused(403, "not_room_owner");
      }
      if requests[requestId].status != Waiting {
        return Refused(409, "join_request_already_decided");
      }
      if approve && rooms[code].admissionClosed {
        return Refused(409, "room_already_admitted");
      }
      var status := if approve then Admitted else Denied;
      requests := requests[requestId := requests[requestId].(status := status, expiresAt := later + REQUEST_TTL)];
      if approve {
        admissions := admissions
                      + [Admission(requestId, rooms[code].incarnation, rooms[code].inviteCode, rooms[code].ownerHash)];
        rooms := rooms[code := rooms[code].(admissionClosed := true)];
        TurnOthersAway(code, requestId, later + REQUEST_TTL);
      }
      return Decided(status);
    }

    method PrivateRequestStatus(requestId: string, authorization: string, now: real) returns (reply: Reply)
      modifies this
      ensures Outcome(Value(), reply) == CheckStatus(digest, old(Value()), requestId, authorization, now)
    {
      var _ := Expire(now);
      reply := AnswerStatus(requestId, authorization);
    }

    method AnswerStatus(requestId: string, authorization: string) returns (reply: Reply)
      ensures reply == StatusOf(digest, Value(), requestId, authorization)
    {
      if requestId !in requests {
        return Refused(404, "join_request_not_found");
      }
      var request := requests[requestId];
      if !TokenMatches(digest, authorization, request.tokenHash) {
        return Refused(403, "not_request_owner");
      }
      if request.status == Admitted {
        if request.roomCode !in rooms {
          return Refused(404, "private_room_not_found");
        }
        return Invited(rooms[request.roomCode].inviteCode);
      }
      return StatusIs(request.status);
    }
  }
}
