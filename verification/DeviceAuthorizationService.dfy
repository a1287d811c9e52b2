/** The device service: the pending request is narrowed and granted in place, then stored in one transaction. */
module DeviceAuthorizationService {
  import opened Common
  import opened Lists
  import opened Consent
  import opened Resource
  import I = Interaction
  import opened DeviceAuthorization
  import A = AuthorizationService

  class RequestRecord {
    const clientID: string
    const resource: string
    var requested: seq<string>
    var granted: seq<string>
    var audiences: seq<string>
    var accepted: bool
    var userID: string

    function Value(): DeviceRequest
      reads this
    {
      DeviceRequest(clientID, resource, requested, granted, audiences, accepted, userID)
    }

    constructor (r: DeviceRequest)
      ensures Value() == r
    {
      clientID, resource, requested, granted, audiences, accepted, userID :=
        r.clientID, r.resource, r.requested, r.granted, r.audiences, r.accepted, r.userID;
    }

    // Drops the scopes the user deselected from both lists
    method NarrowScopes(approved: Option<seq<string>>) returns (r: Result<(), I.Error>)
      modifies this
      ensures
        match NarrowRequest(old(Value()), approved)
        case Err(e) => r == Err(e) && Value() == old(Value())
        case Ok(n) => r == Ok(()) && Value() == n
    {
      if approved.None? {
        return Ok(());
      }
      var narrowed := A.NarrowApprovedScopes(requested, approved);
      if narrowed.Err? {
        return Err(narrowed.error);
      }
      requested := narrowed.value;
      var kept: seq<string> := [];
      for i := 0 to |granted|
        invariant kept == KeepOnly(granted[..i], requested)
      {
        assert Init(granted[..i + 1]) == granted[..i];
        if granted[i] in requested {
          kept := kept + [granted[i]];
        }
      }
      assert granted[..|granted|] == granted;
      granted := kept;
      r := Ok(());
    }

    method GrantResourceIndicator(audience: string, scopes: seq<string>)
      modifies this`granted, this`audiences
      ensures granted == GrantAll(old(granted), scopes) && audiences == GrantAudience(old(audiences), audience)
    {
      for i := 0 to |scopes|
        invariant granted == GrantAll(old(granted), scopes[..i]) && audiences == old(audiences)
      {
        assert Init(scopes[..i + 1]) == scopes[..i];
        if scopes[i] !in granted {
          granted := granted + [scopes[i]];
        }
      }
      assert scopes[..|scopes|] == scopes;
      if audience != "" && audience !in audiences {
        audiences := audiences + [audience];
      }
    }
  }

  class Service {
    const auth: A.Service
    var userCodes: map<string, CodeRow>
    var deviceCodes: map<string, CodeRow>

    constructor (auth: A.Service)
      ensures this.auth == auth && userCodes == map[] && deviceCodes == map[]
    {
      this.auth, userCodes, deviceCodes := auth, map[], map[];
    }

    function Snapshot(): Codes
      reads this, auth
    {
      Codes(userCodes, deviceCodes, auth.consents, auth.tokens)
    }

    method CreateDeviceAuthorization(env: I.Env, id: string, clientID: string, resource: string, requested: seq<string>)
      returns (r: Result<(), I.Error>)
      requires id !in userCodes && id !in deviceCodes
      modifies this
      ensures
        match CreateRequest(env, clientID, resource, requested)
        case Err(d) => r == Err(I.Denied(d)) && Snapshot() == old(Snapshot())
        case Ok(q) =>
          && r == Ok(())
          && Snapshot() == old(Snapshot()).(userCodes := old(userCodes)[id := CodeRow(true, q)],
                                            deviceCodes := old(deviceCodes)[id := CodeRow(true, q)])
    {
      var resolved := auth.ResolveGrant(env, clientID, resource, requested);
      if resolved.Err? {
        if resource != "" && resolved.error == I.Denied(NoAccess) {
          return Err(I.Denied(InvalidTarget));
        }
        return Err(resolved.error);
      }
      var q := new RequestRecord(DeviceRequest(clientID, resource, requested, [], [], false, ""));
      q.GrantResourceIndicator(resolved.value.0.audience, resolved.value.0.scopes);
      userCodes := userCodes[id := CodeRow(true, q.Value())];
      deviceCodes := deviceCodes[id := CodeRow(true, q.Value())];
      r := Ok(());
    }

    method StoreAcceptedRequest(id: string, q: RequestRecord) returns (r: Result<(), DeviceError>)
      modifies this, q
      ensures
        match StoreAccepted(old(Snapshot()), id, old(q.Value()))
        case Err(e) => r == Err(e)
        case Ok(c) => r == Ok(()) && Snapshot() == c
    {
      if id !in userCodes || !userCodes[id].active || userCodes[id].request.accepted {
        return Err(NotFound);
      }
      q.accepted := true;
      userCodes := userCodes[id := CodeRow(false, q.Value())];
      if id !in deviceCodes || !deviceCodes[id].active {
        return Err(NotFound);
      }
      deviceCodes := deviceCodes[id := CodeRow(true, q.Value())];
      r := Ok(());
    }

    // The request was loaded before, and may be stale
    method AcceptDeviceCode(env: I.Env, id: string, loaded: DeviceRequest, x: AcceptInput, now: I.Time)
      returns (r: Result<(), DeviceError>)
      modifies this, auth
      ensures
        match Accept(auth.clients, env, old(Snapshot()), id, loaded, x, now)
        case Err(e) => r == Err(e) && Snapshot() == old(Snapshot())
        case Ok(c) => r == Ok(()) && Snapshot() == c
    {
      hide NarrowRequest, GrantAll, I.ResolveGrant, Record, KeysForGrant, StoreAccepted, I.ClientOf, I.UserAllowed;
      var before := Snapshot();
      var client := I.ClientOf(auth.clients, loaded.clientID);
      if loaded.accepted {
        return Err(InvalidDeviceCode);
      }
      if x.userID !in env.users {
        return Err(Refused(I.UserNotFound));
      }
      if !I.UserAllowed(env, x.userID, client) {
        return Err(Refused(I.AccessDenied));
      }
      var q := new RequestRecord(loaded);
      var narrowed := q.NarrowScopes(x.approved);
      if narrowed.Err? {
        return Err(Refused(narrowed.error));
      }
      var resolved := auth.ResolveGrant(env, q.clientID, q.resource, q.requested);
      if resolved.Err? {
        return Err(Refused(resolved.error));
      }
      q.GrantResourceIndicator(resolved.value.0.audience, resolved.value.0.scopes);
      if client.requiresReauthentication {
        if x.token == "" {
          return Err(Refused(I.ReauthenticationRequired));
        }
        var createdAt := auth.ConsumeReauthenticationToken(x.token, x.userID, now);
        if createdAt.None? {
          return Err(Refused(I.ReauthenticationRequired));
        }
      }
      q.userID := x.userID;
      var _ := auth.GiveConsent(x.userID, q.clientID, resolved.value.1);
      r := StoreAcceptedRequest(id, q);
      if r.Err? {
        Rollback(before);
      }
    }

    method Rollback(c: Codes)
      modifies this, auth
      ensures Snapshot() == c
    {
      userCodes, deviceCodes := c.userCodes, c.deviceCodes;
      auth.consents, auth.tokens := c.consents, c.tokens;
    }
  }
}
