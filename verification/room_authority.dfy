/** The room authority as an object: twelve places, of which the first few are taken. */
module RoomAuthority {
  import opened RoomModel
  import opened RoomRuns

  const VACANT := Participant("", "", WaitingRole, Waiting, 0, 0, 0, "")

  lemma RemoveNobody(ps: seq<Participant>)
    ensures RemoveAt(ps, |ps|) == ps
  {
  }

  class Authority {
    const places: array<Participant>
    var count: nat
    var nextRevision: nat

    ghost predicate Valid()
      reads this, places
    {
      places.Length == MAXIMUM_PARTICIPANTS && 1 <= count <= MAXIMUM_PARTICIPANTS
    }

    ghost function Value(): State
      requires Valid()
      reads this, places
    {
      State(places[..count], nextRevision)
    }

    constructor (hostId: string, hostName: string)
      requires hostId != ""
      ensures Valid() && fresh(places) && Value() == Start(hostId, hostName) && Invariant(Value())
    {
      StartSound(hostId, hostName);
      var initial := Participant(hostId, hostName, Host, Admitted, RoleCapabilities(Host), 1, 0, "");
      places := new Participant[MAXIMUM_PARTICIPANTS](k => if k == 0 then initial else VACANT);
      count, nextRevision := 1, 2;
    }

    method IndexOf(id: string) returns (index: nat)
      requires Valid()
      ensures index == Find(Value().participants, id)
    {
      index := 0;
      while index < count && places[index].id != id
        invariant index <= count && Find(places[..count], id) == index + Find(places[index..count], id)
        decreases count - index
      {
        assert places[index..count][1..] == places[index + 1..count];
        index := index + 1;
      }
    }

    /** Stores a changed participant under the next grant revision. */
    method Store(index: nat, p: Participant)
      requires Valid() && index < count
      modifies this`nextRevision, places
      ensures Valid() && Outcome(Value(), true) == Changed(old(Value()), index, p)
    {
      places[index] := p.(grantRevision := nextRevision);
      nextRevision := nextRevision + 1;
    }

    /** Closes the gap: everyone after the place moves up by one. */
    method RemovePlace(index: nat)
      requires Valid()
      modifies this`count, places
      ensures Valid()
      ensures Value() == old(Value()).(participants := RemoveAt(old(Value()).participants, index))
    {
      if index == 0 || index >= count {
        return;
      }
      for current := index to count - 1
        modifies places
        invariant places[..current] == old(places[..index] + places[index + 1..current + 1])
        invariant places[current..count] == old(places[current..count])
      {
        places[current] := places[current + 1];
      }
      places[count - 1] := VACANT;
      count := count - 1;
    }

    /** Frees the place of the first denied participant. */
    method ReuseDenied()
      requires Valid()
      modifies this`count, places
      ensures Valid()
      ensures var was := old(Value());
              Value() == was.(participants := RemoveAt(was.participants, FirstDenied(was.participants, 1)))
    {
      hide RemoveAt;
      var reusable := 1;
      while reusable < count && places[reusable].admission != Denied
        invariant 1 <= reusable <= count && FirstDenied(places[..count], 1) == FirstDenied(places[..count], reusable)
        decreases count - reusable
      {
        reusable := reusable + 1;
      }
      RemoveNobody(places[..count]);
      if reusable != count {
        RemovePlace(reusable);
      }
    }

    method RequestAdmission(id: string, displayName: string) returns (accepted: bool)
      requires Valid()
      modifies this, places
      ensures Valid() && Outcome(Value(), accepted) == RoomModel.RequestAdmission(old(Value()), id, displayName)
    {
      hide Find, FirstDenied, RemoveAt;
      ReuseDenied();
      if id == "" || |id| > 128 || displayName == "" || |displayName| > 64 || count >= MAXIMUM_PARTICIPANTS {
        return false;
      }
      var index := IndexOf(id);
      if index != count {
        return false;
      }
      places[count] := Participant(id, displayName, WaitingRole, Waiting, 0, nextRevision, 0, "");
      count, nextRevision := count + 1, nextRevision + 1;
      return true;
    }

    method Admit(actorId: string, id: string, role: Role) returns (accepted: bool)
      requires Valid()
      modifies this`nextRevision, places
      ensures Valid() && Outcome(Value(), accepted) == RoomModel.Admit(old(Value()), actorId, id, role)
    {
      hide Has, RoleCapabilities, MayManageRole, Find;
      var a := IndexOf(actorId);
      var k := IndexOf(id);
      if a == count || k == count {
        return false;
      }
      var actor, p := places[a], places[k];
      if p.admission != Waiting || role == WaitingRole || role == Host || !Has(actor.capabilities, AdmitUsers)
         || (role == Performer && !Has(actor.capabilities, GrantPerformer)) || !MayManageRole(actor, p, role) {
        return false;
      }
      Store(k, p.(admission := Admitted, role := role, capabilities := RoleCapabilities(role),
                  resumeToken := "", resumeExpiresAt := 0));
      return true;
    }

    method Deny(actorId: string, id: string) returns (accepted: bool)
      requires Valid()
      modifies this`nextRevision, places
      ensures Valid() && Outcome(Value(), accepted) == RoomModel.Deny(old(Value()), actorId, id)
    {
      hide Has, Find;
      var a := IndexOf(actorId);
      var k := IndexOf(id);
      if a == count || k == count {
        return false;
      }
      if places[k].admission != Waiting || !Has(places[a].capabilities, AdmitUsers) {
        return false;
      }
      Store(k, places[k].(admission := Denied, capabilities := 0));
      return true;
    }

    method SetRole(actorId: string, id: string, role: Role) returns (accepted: bool)
      requires Valid()
      modifies this`nextRevision, places
      ensures Valid() && Outcome(Value(), accepted) == RoomModel.SetRole(old(Value()), actorId, id, role)
    {
      hide Has, RoleCapabilities, MayManageRole, Find;
      var a := IndexOf(actorId);
      var k := IndexOf(id);
      if a == count || k == count {
        return false;
      }
      var actor, p := places[a], places[k];
      if p.admission != Admitted || role == WaitingRole || role == Host || !MayManageRole(actor, p, role) {
        return false;
      }
      if role == Performer && !Has(actor.capabilities, GrantPerformer) {
        return false;
      }
      if p.role == Performer && role != Performer && !Has(actor.capabilities, RevokePerformer) {
        return false;
      }
      Store(k, p.(role := role, capabilities := RoleCapabilities(role)));
      return true;
    }

    method SetCapability(actorId: string, id: string, c: Capability, enabled: bool) returns (accepted: bool)
      requires Valid()
      modifies this`nextRevision, places
      ensures Valid() && Outcome(Value(), accepted) == RoomModel.SetCapability(old(Value()), actorId, id, c, enabled)
    {
      hide Has, With, Without, CapabilityBit, Find;
      var a := IndexOf(actorId);
      var k := IndexOf(id);
      if a == count || k == count {
        return false;
      }
      var p := places[k];
      if p.admission != Admitted || p.role == Host || !Has(places[a].capabilities, ManageRoom)
         || c == Count || c == EndRoom {
        return false;
      }
      Store(k, p.(capabilities := if enabled then With(p.capabilities, CapabilityBit(c))
                                  else Without(p.capabilities, CapabilityBit(c))));
      return true;
    }

    method Disconnect(id: string, resumeToken: string, expiresAt: nat) returns (accepted: bool)
      requires Valid()
      modifies this`nextRevision, places
      ensures Valid() && Outcome(Value(), accepted) == RoomModel.Disconnect(old(Value()), id, resumeToken, expiresAt)
    {
      hide Find;
      var k := IndexOf(id);
      if k == count || places[k].admission != Admitted || places[k].role == Host
         || |resumeToken| < 32 || |resumeToken| > 128 || expiresAt == 0 {
        return false;
      }
      Store(k, places[k].(admission := Disconnected, resumeToken := resumeToken, resumeExpiresAt := expiresAt));
      return true;
    }

    method Resume(id: string, resumeToken: string, now: nat, replacement: string, replacementExpiresAt: nat)
      returns (accepted: bool)
      requires Valid()
      modifies this`nextRevision, places
      ensures Valid()
      ensures Outcome(Value(), accepted) ==
              RoomModel.Resume(old(Value()), id, resumeToken, now, replacement, replacementExpiresAt)
    {
      hide Find;
      var k := IndexOf(id);
      if k == count {
        return false;
      }
      var p := places[k];
      if p.admission != Disconnected || p.resumeToken == "" || |resumeToken| < 32 || |resumeToken| > 128
         || p.resumeToken != resumeToken || now >= p.resumeExpiresAt
         || |replacement| < 32 || |replacement| > 128 || replacementExpiresAt <= now {
        return false;
      }
      Store(k, p.(admission := Admitted, resumeToken := replacement, resumeExpiresAt := replacementExpiresAt));
      return true;
    }

    method ReapInactive(now: nat)
      requires Valid()
      modifies this, places
      ensures Valid() && Value() == RoomModel.ReapInactive(old(Value()), now)
    {
      ReapFromKeepsActive(places[..count], 1, now);
      assert places[..count][..1] == [places[0]];
      var index := 1;
      while index < count
        invariant Valid() && 1 <= index <= count && nextRevision == old(nextRevision)
        invariant ReapFrom(Value().participants, index, now) == ReapFrom(old(Value()).participants, 1, now)
        decreases count - index
      {
        if Inactive(places[index], now) {
          RemovePlace(index);
        } else {
          index := index + 1;
        }
      }
    }

    method Authorize(id: string, c: Capability) returns (allowed: bool)
      requires Valid()
      ensures allowed == Authorized(Value(), id, c)
    {
      var k := IndexOf(id);
      allowed := k != count && places[k].admission == Admitted && Has(places[k].capabilities, c);
    }

    method WaitingCount() returns (waiting: nat)
      requires Valid()
      ensures waiting == |set k: nat | k < count && places[k].admission == Waiting|
    {
      waiting := 0;
      ghost var seen: set<nat> := {};
      for k := 0 to count
        invariant seen == set i: nat | i < k && places[i].admission == Waiting
        invariant waiting == |seen|
      {
        if places[k].admission == Waiting {
          waiting := waiting + 1;
          seen := seen + {k};
        }
      }
    }
  }
}
