/**
 Device authorization, RFC 8628: a device asks for scopes, all of them are granted provisionally, and a
 signed-in user accepts the user code, possibly for fewer scopes. The request is loaded before the
 transaction that accepts it, so two users may hold the same unused request.
 */
module DeviceAuthorization {
  import opened Common
  import opened Lists
  import opened Consent
  import opened Resource
  import opened Interaction

  datatype DeviceRequest = DeviceRequest(
    clientID: string,
    resource: string,
    requested: seq<string>,
    granted: seq<string>,
    audiences: seq<string>,
    accepted: bool,
    userID: string
  )

  // A stored session, of the user code or of the device code
  datatype CodeRow = CodeRow(active: bool, request: DeviceRequest)

  datatype Codes = Codes(
    userCodes: map<string, CodeRow>,    // both by request ID
    deviceCodes: map<string, CodeRow>,
    consents: Rows,
    tokens: map<string, Token>
  )

  datatype DeviceError = InvalidDeviceCode | NotFound | Refused(error: Error)

  datatype AcceptInput = AcceptInput(userID: string, approved: Option<seq<string>>, token: string)

  // Granting a scope twice grants it once
  function GrantAll(granted: seq<string>, scopes: seq<string>): (r: seq<string>)
    ensures NoDuplicates(granted) ==> NoDuplicates(r)
    ensures forall s :: s in r <==> s in granted || s in scopes
    decreases |scopes|
  {
    if scopes == [] then granted
    else
      var g := GrantAll(granted, Init(scopes));
      assert scopes == Init(scopes) + [Last(scopes)];
      if Last(scopes) in g then g else g + [Last(scopes)]
  }

  function KeepOnly(granted: seq<string>, narrowed: seq<string>): (r: seq<string>)
    ensures NoDuplicates(granted) ==> NoDuplicates(r)
    ensures forall s :: s in r <==> s in granted && s in narrowed
    decreases |granted|
  {
    if granted == [] then []
    else
      assert granted == Init(granted) + [Last(granted)];
      KeepOnly(Init(granted), narrowed) + if Last(granted) in narrowed then [Last(granted)] else []
  }

  // Nor is an audience granted twice, and the empty one never
  function GrantAudience(audiences: seq<string>, audience: string): seq<string> {
    if audience == "" || audience in audiences then audiences else audiences + [audience]
  }

  // Requested and granted scopes are the same set, for the one audience of the resource
  ghost predicate FullyGranted(r: DeviceRequest) {
    var audience := AudienceOf(r.clientID, r.resource);
    && NoDuplicates(r.granted) && Elements(r.granted) == Elements(r.requested)
    && r.audiences == if audience == "" then [] else [audience]
  }

  function CreateRequest(env: Env, clientID: string, resource: string,
          requested: seq<string>): Result<DeviceRequest, Denial> {
    match ResolveGrant(env, clientID, resource, requested)
    case Err(d) => Err(if resource != "" && d == NoAccess then InvalidTarget else d)
    case Ok(g) => Ok(DeviceRequest(clientID, resource, requested, GrantAll([], g.scopes), GrantAudience([], g.audience), false, ""))
  }

  function NarrowRequest(r: DeviceRequest, approved: Option<seq<string>>): Result<DeviceRequest, Error> {
    if approved.None? then Ok(r)
    else
      match Narrow(r.requested, approved)
      case Err(e) => Err(e)
      case Ok(narrowed) => Ok(r.(requested := narrowed, granted := KeepOnly(r.granted, narrowed)))
  }

  // The part before the transaction: the request as it will be stored, and what is consented to
  function Prepare(clients: Clients, env: Env, loaded: DeviceRequest,
          x: AcceptInput): Result<(DeviceRequest, seq<string>), DeviceError> {
    if loaded.accepted then Err(InvalidDeviceCode)
    else if x.userID !in env.users then Err(Refused(UserNotFound))
    else if !UserAllowed(env, x.userID, ClientOf(clients, loaded.clientID)) then Err(Refused(AccessDenied))
    else
      match NarrowRequest(loaded, x.approved)
      case Err(e) => Err(Refused(e))
      case Ok(n) =>
        match ResolveGrant(env, n.clientID, n.resource, n.requested)
        case Err(d) => Err(Refused(Denied(d)))
        case Ok(g) =>
          Ok((n.(granted := GrantAll(n.granted, g.scopes), audiences := GrantAudience(n.audiences, g.audience), userID := x.userID),
              KeysForGrant(g.audience, n.resource, g.scopes)))
  }

  // Claims the user code by its stored state, whatever the caller loaded, and then updates the device code
  function StoreAccepted(c: Codes, id: string, request: DeviceRequest): Result<Codes, DeviceError> {
    if id !in c.userCodes || !c.userCodes[id].active || c.userCodes[id].request.accepted then Err(NotFound)
    else if id !in c.deviceCodes || !c.deviceCodes[id].active then Err(NotFound)
    else
      var r := request.(accepted := true);
      Ok(c.(userCodes := c.userCodes[id := CodeRow(false, r)], deviceCodes := c.deviceCodes[id := CodeRow(true, r)]))
  }

  // The whole acceptance; a failure after the narrowing rolls back
  function Accept(clients: Clients, env: Env, c: Codes, id: string, loaded: DeviceRequest, x: AcceptInput, now: Time)
    : Result<Codes, DeviceError>
  {
    match Prepare(clients, env, loaded, x)
    case Err(e) => Err(e)
    case Ok((request, keys)) =>
      var proves := ClientOf(clients, loaded.clientID).requiresReauthentication;
      if proves && (x.token == "" || !TokenValid(c.tokens, x.token, x.userID, now)) then Err(Refused(ReauthenticationRequired))
      else
        StoreAccepted(c.(tokens := if proves then c.tokens - {x.token} else c.tokens,
                         consents := Record(c.consents, request.clientID, x.userID, keys)),
                      id, request)
  }

  // ---------------------------------------------------------------- runs

  datatype Origin = Origin(clientID: string, resource: string, requested: seq<string>)

  // Who used up a proof, for which request and when
  datatype Use = Use(userID: string, request: string, at: Time)

  datatype Acceptance = Acceptance(id: string, input: AcceptInput, request: DeviceRequest)

  datatype World = World(
    now: Time,
    c: Codes,
    loads: map<nat, (string, DeviceRequest)>,  // requests loaded and not accepted yet
    origins: map<string, Origin>,
    issued: map<string, Token>,                // every reauthentication proof there ever was
    proofs: map<string, Use>,                  // by used-up token
    acceptances: seq<Acceptance>
  )

  datatype Action =
    | Create(id: string, env: Env, clientID: string, resource: string, requested: seq<string>)
    | Load(handle: nat, id: string)
    | AcceptLoaded(handle: nat, env: Env, input: AcceptInput)
    | Deactivate(id: string)                                     // expired, used or revoked
    | ConsentElsewhere(clientID: string, userID: string, keys: seq<string>)
    | IssueToken(token: string, userID: string, expiresAt: Time)
    | Advance(elapsed: nat)

  function Off(rows: map<string, CodeRow>, id: string): map<string, CodeRow> {
    if id in rows then rows[id := rows[id].(active := false)] else rows
  }

  function Created(w: World, id: string, r: DeviceRequest): World {
    w.(c := w.c.(userCodes := w.c.userCodes[id := CodeRow(true, r)], deviceCodes := w.c.deviceCodes[id := CodeRow(true, r)]),
       origins := w.origins[id := Origin(r.clientID, r.resource, r.requested)])
  }

  function CreateStep(w: World, id: string, env: Env, clientID: string, resource: string,
          requested: seq<string>): World {
    var r := CreateRequest(env, clientID, resource, requested);
    if id in w.origins || r.Err? then w
    else Created(w, id, r.value)
  }

  function Accepted(clients: Clients, w: World, handle: nat, x: AcceptInput, c: Codes): World
    requires handle in w.loads
  {
    var (id, loaded) := w.loads[handle];
    w.(c := c, loads := w.loads - {handle},
       proofs := if ClientOf(clients, loaded.clientID).requiresReauthentication
                 then w.proofs[x.token := Use(x.userID, id, w.now)] else w.proofs,
       acceptances := w.acceptances + if id in c.userCodes then [Acceptance(id, x, c.userCodes[id].request)] else [])
  }

  function AcceptStep(clients: Clients, w: World, handle: nat, env: Env, x: AcceptInput): World {
    if handle !in w.loads then w
    else
      var (id, loaded) := w.loads[handle];
      match Accept(clients, env, w.c, id, loaded, x, w.now)
      case Err(_) => w.(loads := w.loads - {handle})
      case Ok(c) => Accepted(clients, w, handle, x, c)
  }

  function Step(clients: Clients, w: World, a: Action): World {
    match a
    case Create(id, env, clientID, resource, requested) => CreateStep(w, id, env, clientID, resource, requested)
    case Load(handle, id) =>
      if handle in w.loads || id !in w.c.userCodes then w else w.(loads := w.loads[handle := (id, w.c.userCodes[id].request)])
    case AcceptLoaded(handle, env, x) => AcceptStep(clients, w, handle, env, x)
    case Deactivate(id) => w.(c := w.c.(userCodes := Off(w.c.userCodes, id), deviceCodes := Off(w.c.deviceCodes, id)))
    case ConsentElsewhere(clientID, userID, keys) => w.(c := w.c.(consents := Record(w.c.consents, clientID, userID, keys)))
    case IssueToken(token, userID, expiresAt) =>
      // Tokens are fresh random values
      if token in w.issued then w
      else
        var t := Token(userID, w.now, expiresAt);
        w.(c := w.c.(tokens := w.c.tokens[token := t]), issued := w.issued[token := t])
    case Advance(elapsed) => w.(now := w.now + elapsed)
  }

  function Run(clients: Clients, w: World, actions: seq<Action>): World
    decreases |actions|
  {
    if |actions| == 0 then w else Run(clients, Step(clients, w, actions[0]), actions[1..])
  }

  function Start(now: Time, consents: Rows): World {
    World(now, Codes(map[], map[], consents, map[]), map[], map[], map[], map[], [])
  }

  // ---------------------------------------------------------------- safety

  // A narrowing of what the device asked for, fully granted
  ghost predicate Genuine(origins: map<string, Origin>, id: string, r: DeviceRequest) {
    && id in origins
    && var o := origins[id];
      && r.clientID == o.clientID && r.resource == o.resource
      && Subsequence(r.requested, o.requested)
      && ("openid" in o.requested ==> "openid" in r.requested)
      && FullyGranted(r)
  }

  /**
   What every acceptance rests on: the granted scopes are exactly the approved part of what the device
   asked for, the user consented to all of it, and proved their presence if the client demands it.
   */
  ghost predicate Justified(clients: Clients, w: World, a: Acceptance) {
    var r := a.request;
    && Genuine(w.origins, a.id, r)
    && r.accepted && r.userID == a.input.userID
    && (a.input.approved.Some? ==>
          forall s :: s in r.requested <==> s in w.origins[a.id].requested && (s in a.input.approved.value || s == "openid"))
    && (a.input.approved.None? ==> r.requested == w.origins[a.id].requested)
    && HasAuthorized(w.c.consents, r.clientID, a.input.userID, RequestKeys(r.clientID, r.resource, r.requested))
    && (ClientOf(clients, r.clientID).requiresReauthentication ==>
          && a.input.token in w.proofs && a.input.token in w.issued
          && var p, token := w.proofs[a.input.token], w.issued[a.input.token];
             && p.userID == a.input.userID && p.request == a.id
             && token.userID == a.input.userID && p.at < token.expiresAt)
  }

  // Until it is accepted, a request asks for everything it asked for at first
  ghost predicate LoadOk(origins: map<string, Origin>, id: string, r: DeviceRequest) {
    Genuine(origins, id, r) && (!r.accepted ==> r.requested == origins[id].requested)
  }

  ghost predicate RowsOk(w: World) {
    && (forall id :: id in w.c.userCodes ==> LoadOk(w.origins, id, w.c.userCodes[id].request))
    && (forall h :: h in w.loads ==> LoadOk(w.origins, w.loads[h].0, w.loads[h].1))
  }

  ghost predicate AcceptancesOk(clients: Clients, w: World) {
    forall n :: 0 <= n < |w.acceptances| ==> Justified(clients, w, w.acceptances[n])
  }

  ghost predicate OnceOk(w: World) {
    && (forall m, n :: 0 <= m < n < |w.acceptances| ==> w.acceptances[m].id != w.acceptances[n].id)
    && (forall n :: 0 <= n < |w.acceptances| ==>
          w.acceptances[n].id in w.origins
          && (w.acceptances[n].id in w.c.userCodes ==> !w.c.userCodes[w.acceptances[n].id].active))
    && TokensOk(w)
  }

  // An unused token is as it was issued
  ghost predicate TokensOk(w: World) {
    && w.proofs.Keys !! w.c.tokens.Keys && w.proofs.Keys <= w.issued.Keys
    && (forall token :: token in w.c.tokens ==> token in w.issued && w.issued[token] == w.c.tokens[token])
  }

  ghost predicate Inv(clients: Clients, w: World) {
    RowsOk(w) && AcceptancesOk(clients, w) && OnceOk(w)
  }

  ghost predicate Remembers(w: World, w': World) {
    && (forall id :: id in w.origins ==> id in w'.origins && w'.origins[id] == w.origins[id])
    && (forall token :: token in w.proofs ==> token in w'.proofs && w'.proofs[token] == w.proofs[token])
    && (forall token :: token in w.issued ==> token in w'.issued && w'.issued[token] == w.issued[token])
    && Grows(w.c.consents, w'.c.consents)
  }

  lemma AcceptancesStay(clients: Clients, w: World, w': World)
    requires AcceptancesOk(clients, w) && Remembers(w, w') && w.acceptances <= w'.acceptances
    requires forall n :: |w.acceptances| <= n < |w'.acceptances| ==> Justified(clients, w', w'.acceptances[n])
    ensures AcceptancesOk(clients, w')
  {
  }

  /** Narrowing keeps requested and granted the same set: a deselected scope loses its provisional grant. */
  lemma NarrowedRequestIsGenuine(w: World, id: string, r: DeviceRequest, approved: Option<seq<string>>)
    requires Genuine(w.origins, id, r) && NarrowRequest(r, approved).Ok?
    ensures
      var n := NarrowRequest(r, approved).value;
      && Genuine(w.origins, id, n)
      && n.clientID == r.clientID && n.resource == r.resource && n.accepted == r.accepted
      && (approved.None? ==> n.requested == r.requested)
      && (approved.Some? ==>
            forall s :: s in n.requested <==> s in r.requested && (s in approved.value || s == "openid"))
  {
    if approved.Some? {
      var n := NarrowRequest(r, approved).value;
      SubsequenceIsTransitive(n.requested, r.requested, w.origins[id].requested);
      assert forall s | s in n.granted :: s in n.requested;
      forall s | s in n.requested ensures s in n.granted {
        assert s in Elements(r.requested);
      }
      assert Elements(n.granted) == Elements(n.requested);
    }
  }

  lemma PreparedRequestIsGenuine(clients: Clients, env: Env, w: World, id: string, loaded: DeviceRequest,
          x: AcceptInput)
    requires LoadOk(w.origins, id, loaded) && Prepare(clients, env, loaded, x).Ok?
    ensures
      var (r, keys) := Prepare(clients, env, loaded, x).value;
      && Genuine(w.origins, id, r.(accepted := true))
      && r.clientID == loaded.clientID && r.userID == x.userID && !r.accepted
      && keys == RequestKeys(r.clientID, r.resource, r.requested)
      && (x.approved.None? ==> r.requested == w.origins[id].requested)
      && (x.approved.Some? ==>
            forall s :: s in r.requested <==> s in w.origins[id].requested && (s in x.approved.value || s == "openid"))
  {
    NarrowedRequestIsGenuine(w, id, loaded, x.approved);
    var n := NarrowRequest(loaded, x.approved).value;
    var g := ResolveGrant(env, n.clientID, n.resource, n.requested).value;
    assert g == Resolved(AudienceOf(n.clientID, n.resource), Dedup(n.requested));
    var all := GrantAll(n.granted, g.scopes);
    hide NarrowRequest, ResolveGrant, Subsequence, KeysForGrant, GrantAll;
    assert Elements(all) == Elements(n.requested) by {
      assert forall s :: s in all <==> s in Elements(n.granted) || s in n.requested;
    }
  }

  // The pieces of a successful acceptance
  lemma AcceptedPieces(clients: Clients, env: Env, c: Codes, id: string, loaded: DeviceRequest, x: AcceptInput,
          now: Time)
    requires Accept(clients, env, c, id, loaded, x, now).Ok?
    ensures UserAllowed(env, x.userID, ClientOf(clients, loaded.clientID))
    ensures Prepare(clients, env, loaded, x).Ok?
    ensures id in c.userCodes && c.userCodes[id].active && !c.userCodes[id].request.accepted
    ensures
      var (r, keys) := Prepare(clients, env, loaded, x).value;
      var c' := Accept(clients, env, c, id, loaded, x, now).value;
      var proves := ClientOf(clients, loaded.clientID).requiresReauthentication;
      && (proves ==> x.token in c.tokens && c.tokens[x.token].userID == x.userID && c.tokens[x.token].expiresAt > now)
      && c'.tokens == (if proves then c.tokens - {x.token} else c.tokens)
      && c'.consents == Record(c.consents, r.clientID, x.userID, keys)
      && c'.userCodes == c.userCodes[id := CodeRow(false, r.(accepted := true))]
      && id in c'.deviceCodes && c'.deviceCodes[id] == CodeRow(true, r.(accepted := true))
  {
  }

  /**
   A device request is created exactly when all its scopes can be granted, with all of them granted for its one
   audience. An unknown resource and one the client may not reach are answered alike.
   */
  lemma CreatedExactlyWhen(env: Env, clientID: string, resource: string, requested: seq<string>)
    ensures
      var r, g := CreateRequest(env, clientID, resource, requested), ResolveGrant(env, clientID, resource, requested);
      && (r.Ok? <==> g.Ok?)
      && (r.Ok? ==>
            && r.value.clientID == clientID && r.value.resource == resource && r.value.requested == requested
            && FullyGranted(r.value) && !r.value.accepted)
      && (resource != "" && g in {Err(InvalidTarget), Err(NoAccess)} ==> r == Err(InvalidTarget))
      && (forall scope :: g == Err(InvalidScope(scope)) ==> r == Err(InvalidScope(scope)))
  {
    var r := CreateRequest(env, clientID, resource, requested);
    if r.Ok? {
      assert forall s :: s in r.value.granted <==> s in requested;
      assert Elements(r.value.granted) == Elements(requested);
    }
    hide GrantAll;
  }

  // What the user approves of the request, in its order; openid always stays
  function ApprovedPart(requested: seq<string>, approved: Option<seq<string>>): seq<string> {
    if approved.None? then requested else KeepApproved(requested, approved.value)
  }

  /**
   A request is accepted exactly when it was pending when loaded, the user exists and is in an allowed group, every
   approved scope was requested, the approved part resolves, the client's demand for a proof is met by an unexpired
   proof of this user, and both codes are still active and the request not accepted by anybody else meanwhile.
   */
  lemma AcceptedExactlyWhen(clients: Clients, env: Env, c: Codes, id: string, loaded: DeviceRequest, x: AcceptInput,
          now: Time)
    ensures Accept(clients, env, c, id, loaded, x, now).Ok? <==>
      var client := ClientOf(clients, loaded.clientID);
      && !loaded.accepted && x.userID in env.users
      && (client.allowedGroups.None? || exists g :: g in client.allowedGroups.value && g in env.users[x.userID])
      && (x.approved.Some? ==> forall s :: s in x.approved.value ==> s in loaded.requested)
      && ResolveGrant(env, loaded.clientID, loaded.resource, ApprovedPart(loaded.requested, x.approved)).Ok?
      && (client.requiresReauthentication ==>
            && x.token != "" && x.token in c.tokens
            && c.tokens[x.token].userID == x.userID && now < c.tokens[x.token].expiresAt)
      && id in c.userCodes && c.userCodes[id].active && !c.userCodes[id].request.accepted
      && id in c.deviceCodes && c.deviceCodes[id].active
  {
    hide ResolveGrant, KeysForGrant, GrantAll, Record;
    if x.userID in env.users && ClientOf(clients, loaded.clientID).allowedGroups.Some? {
      var allowed := ClientOf(clients, loaded.clientID).allowedGroups.value;
      assert allowed * env.users[x.userID] != {} <==> exists g :: g in allowed && g in env.users[x.userID] by {
        if g :| g in allowed * env.users[x.userID] {
          assert g in allowed && g in env.users[x.userID];
        }
        if g :| g in allowed && g in env.users[x.userID] {
          assert g in allowed * env.users[x.userID];
        }
      }
    }
  }

  // What an accepted request changes
  ghost predicate AcceptedShape(w: World, w': World, handle: nat, x: AcceptInput)
    requires handle in w.loads
  {
    var id := w.loads[handle].0;
    && Remembers(w, w') && TokensOk(w') && w'.origins == w.origins && w'.loads == w.loads - {handle}
    && id in w.c.userCodes && w.c.userCodes[id].active
    && w'.c.userCodes.Keys == w.c.userCodes.Keys
    && !w'.c.userCodes[id].active && w'.c.userCodes[id].request.accepted
    && (forall j :: j in w.c.userCodes && j != id ==> w'.c.userCodes[j] == w.c.userCodes[j])
    && w'.acceptances == w.acceptances + [Acceptance(id, x, w'.c.userCodes[id].request)]
  }

  lemma AcceptedHasShape(clients: Clients, w: World, handle: nat, x: AcceptInput, c: Codes, row: CodeRow)
    requires handle in w.loads && TokensOk(w)
    requires w.loads[handle].0 in w.c.userCodes && w.c.userCodes[w.loads[handle].0].active
    requires c.userCodes == w.c.userCodes[w.loads[handle].0 := row] && !row.active && row.request.accepted
    requires Grows(w.c.consents, c.consents)
    requires
      var proves := ClientOf(clients, w.loads[handle].1.clientID).requiresReauthentication;
      && (proves ==> x.token in w.c.tokens)
      && c.tokens == if proves then w.c.tokens - {x.token} else w.c.tokens
    ensures AcceptedShape(w, Accepted(clients, w, handle, x, c), handle, x)
  {
    hide Grows;
  }

  lemma AcceptedIsJustified(clients: Clients, w: World, handle: nat, env: Env, x: AcceptInput)
    requires handle in w.loads && LoadOk(w.origins, w.loads[handle].0, w.loads[handle].1) && TokensOk(w)
    requires Accept(clients, env, w.c, w.loads[handle].0, w.loads[handle].1, x, w.now).Ok?
    ensures
      var w' := AcceptStep(clients, w, handle, env, x);
      w'.acceptances != [] && Justified(clients, w', Last(w'.acceptances))
  {
    var (id, loaded) := w.loads[handle];
    AcceptedPieces(clients, env, w.c, id, loaded, x, w.now);
    PreparedRequestIsGenuine(clients, env, w, id, loaded, x);
    var (r, keys) := Prepare(clients, env, loaded, x).value;
    RecordCovers(w.c.consents, r.clientID, x.userID, keys);
    hide Accept, Prepare, Record, RequestKeys, FullyGranted, Subsequence, HasAuthorized, UserAllowed;
  }

  lemma AcceptedShapeKeepsOnce(w: World, w': World, handle: nat, x: AcceptInput)
    requires OnceOk(w) && handle in w.loads && AcceptedShape(w, w', handle, x) && w.loads[handle].0 in w.origins
    ensures OnceOk(w')
  {
  }

  lemma AcceptedShapeKeepsRows(w: World, w': World, handle: nat, x: AcceptInput)
    requires RowsOk(w) && handle in w.loads && AcceptedShape(w, w', handle, x)
    requires LoadOk(w'.origins, w.loads[handle].0, w'.c.userCodes[w.loads[handle].0].request)
    ensures RowsOk(w')
  {
  }

  lemma AcceptedStepHasShape(clients: Clients, w: World, handle: nat, env: Env, x: AcceptInput)
    requires handle in w.loads && TokensOk(w)
    requires Accept(clients, env, w.c, w.loads[handle].0, w.loads[handle].1, x, w.now).Ok?
    ensures AcceptedShape(w, AcceptStep(clients, w, handle, env, x), handle, x)
  {
    var (id, loaded) := w.loads[handle];
    AcceptedPieces(clients, env, w.c, id, loaded, x, w.now);
    var (r, keys) := Prepare(clients, env, loaded, x).value;
    RecordGrows(w.c.consents, r.clientID, x.userID, keys);
    var c := Accept(clients, env, w.c, id, loaded, x, w.now).value;
    hide Accept, Prepare, Record, Grows, ClientOf, UserAllowed, AcceptedShape, Accepted;
    AcceptedHasShape(clients, w, handle, x, c, CodeRow(false, r.(accepted := true)));
  }

  lemma ShapeKeepsInv(clients: Clients, w: World, w': World, handle: nat, x: AcceptInput)
    requires Inv(clients, w) && handle in w.loads && AcceptedShape(w, w', handle, x)
    requires Justified(clients, w', Last(w'.acceptances))
    ensures Inv(clients, w')
  {
    var id := w.loads[handle].0;
    assert id in w.origins;
    assert LoadOk(w'.origins, id, w'.c.userCodes[id].request) by {
      hide Inv, RequestKeys, HasAuthorized, FullyGranted, Subsequence;
    }
    hide Justified, Genuine, LoadOk, Remembers;
    AcceptancesStay(clients, w, w');
    AcceptedShapeKeepsRows(w, w', handle, x);
    AcceptedShapeKeepsOnce(w, w', handle, x);
    hide RowsOk, OnceOk, AcceptancesOk, AcceptedShape;
  }

  lemma AcceptedKeepsInv(clients: Clients, w: World, handle: nat, env: Env, x: AcceptInput)
    requires Inv(clients, w) && handle in w.loads
    requires Accept(clients, env, w.c, w.loads[handle].0, w.loads[handle].1, x, w.now).Ok?
    ensures Inv(clients, AcceptStep(clients, w, handle, env, x))
  {
    assert LoadOk(w.origins, w.loads[handle].0, w.loads[handle].1);
    assert TokensOk(w);
    hide Accept, AcceptStep, Inv, AcceptedShape, Justified, LoadOk;
    AcceptedStepHasShape(clients, w, handle, env, x);
    AcceptedIsJustified(clients, w, handle, env, x);
    ShapeKeepsInv(clients, w, AcceptStep(clients, w, handle, env, x), handle, x);
  }

  lemma AcceptKeepsInv(clients: Clients, w: World, handle: nat, env: Env, x: AcceptInput)
    requires Inv(clients, w)
    ensures Inv(clients, AcceptStep(clients, w, handle, env, x))
  {
    if handle in w.loads && Accept(clients, env, w.c, w.loads[handle].0, w.loads[handle].1, x, w.now).Ok? {
      AcceptedKeepsInv(clients, w, handle, env, x);
    } else {
      assert TokensOk(w);
      RefusedAcceptsNothing(w, handle);
      hide AcceptsNothing, TokensOk;
      UnacceptedKeepsInv(clients, w, w.(loads := w.loads - {handle}));
      assert w.loads - {handle} == w.loads || handle in w.loads;
    }
    hide Accept, Inv;
  }

  // Steps that accept nothing: rows come from rows or loads that were in order
  ghost predicate AcceptsNothing(w: World, w': World) {
    && Remembers(w, w') && TokensOk(w')
    && w'.origins == w.origins && w'.acceptances == w.acceptances
    && (forall id :: id in w'.c.userCodes ==>
          && id in w.c.userCodes && w'.c.userCodes[id].request == w.c.userCodes[id].request
          && (w'.c.userCodes[id].active ==> w.c.userCodes[id].active))
    && (forall h :: h in w'.loads ==>
          || (h in w.loads && w'.loads[h] == w.loads[h])
          || (w'.loads[h].0 in w.c.userCodes && w'.loads[h].1 == w.c.userCodes[w'.loads[h].0].request))
  }

  lemma UnacceptedKeepsInv(clients: Clients, w: World, w': World)
    requires Inv(clients, w) && AcceptsNothing(w, w')
    ensures Inv(clients, w')
  {
    assert RowsOk(w') by {
      hide AcceptancesOk, OnceOk, LoadOk, Remembers, TokensOk;
    }
    assert OnceOk(w') by {
      hide AcceptancesOk, RowsOk, Remembers, TokensOk;
    }
    hide OnceOk, RowsOk, Justified, Remembers, TokensOk;
    AcceptancesStay(clients, w, w');
  }

  lemma CreatedKeepsRows(w: World, id: string, r: DeviceRequest)
    requires RowsOk(w) && id !in w.origins && LoadOk(Created(w, id, r).origins, id, r)
    ensures RowsOk(Created(w, id, r))
  {
    hide FullyGranted, Subsequence;
  }

  lemma CreatedKeepsInv(clients: Clients, w: World, id: string, r: DeviceRequest)
    requires Inv(clients, w) && id !in w.origins && FullyGranted(r) && !r.accepted
    ensures Inv(clients, Created(w, id, r))
  {
    var w' := Created(w, id, r);
    SubsequenceOfItself(r.requested);
    assert LoadOk(w'.origins, id, r);
    CreatedKeepsRows(w, id, r);
    NoChangeGrows(w.c.consents);
    hide RowsOk, Justified, FullyGranted, Subsequence, Grows, LoadOk;
    assert OnceOk(w') && w'.acceptances == w.acceptances;
    hide OnceOk;
    AcceptancesStay(clients, w, w');
  }

  lemma CreateKeepsInv(clients: Clients, w: World, id: string, env: Env, clientID: string, resource: string,
          requested: seq<string>)
    requires Inv(clients, w)
    ensures Inv(clients, CreateStep(w, id, env, clientID, resource, requested))
  {
    var r := CreateRequest(env, clientID, resource, requested);
    if id !in w.origins && r.Ok? {
      assert FullyGranted(r.value) by {
        assert forall s :: s in r.value.granted <==> s in requested;
        assert Elements(r.value.granted) == Elements(requested);
      }
      hide FullyGranted, ResolveGrant, GrantAll, Inv;
      CreatedKeepsInv(clients, w, id, r.value);
    }
  }

  lemma NoChangeGrows(rows: Rows)
    ensures Grows(rows, rows)
  {
  }

  lemma LoadAcceptsNothing(w: World, handle: nat, id: string)
    requires TokensOk(w) && id in w.c.userCodes
    ensures AcceptsNothing(w, w.(loads := w.loads[handle := (id, w.c.userCodes[id].request)]))
  {
    NoChangeGrows(w.c.consents);
    hide Grows;
  }

  lemma DeactivateAcceptsNothing(w: World, id: string)
    requires TokensOk(w)
    ensures AcceptsNothing(w, w.(c := w.c.(userCodes := Off(w.c.userCodes, id), deviceCodes := Off(w.c.deviceCodes, id))))
  {
    NoChangeGrows(w.c.consents);
    hide Grows;
  }

  lemma ConsentAcceptsNothing(w: World, clientID: string, userID: string, keys: seq<string>)
    requires TokensOk(w)
    ensures AcceptsNothing(w, w.(c := w.c.(consents := Record(w.c.consents, clientID, userID, keys))))
  {
    RecordGrows(w.c.consents, clientID, userID, keys);
    hide Grows, Record;
  }

  lemma IssueAcceptsNothing(w: World, token: string, t: Token)
    requires TokensOk(w) && token !in w.issued
    ensures AcceptsNothing(w, w.(c := w.c.(tokens := w.c.tokens[token := t]), issued := w.issued[token := t]))
  {
    NoChangeGrows(w.c.consents);
    hide Grows;
  }

  lemma ClockAcceptsNothing(w: World, now: Time)
    requires TokensOk(w)
    ensures AcceptsNothing(w, w.(now := now)) && AcceptsNothing(w, w)
  {
    NoChangeGrows(w.c.consents);
    hide Grows;
  }

  lemma OtherStepAcceptsNothing(clients: Clients, w: World, a: Action)
    requires TokensOk(w) && !a.AcceptLoaded? && !a.Create?
    ensures AcceptsNothing(w, Step(clients, w, a))
  {
    hide AcceptStep, CreateStep, AcceptsNothing, TokensOk, Record, Off;
    ClockAcceptsNothing(w, w.now);
    match a
    case Load(handle, id) =>
      if id in w.c.userCodes {
        LoadAcceptsNothing(w, handle, id);
      }
    case Deactivate(id) => DeactivateAcceptsNothing(w, id);
    case ConsentElsewhere(clientID, userID, keys) => ConsentAcceptsNothing(w, clientID, userID, keys);
    case IssueToken(token, userID, expiresAt) =>
      if token !in w.issued {
        IssueAcceptsNothing(w, token, Token(userID, w.now, expiresAt));
      }
    case Advance(elapsed) => ClockAcceptsNothing(w, w.now + elapsed);
  }

  lemma OtherStepKeepsInv(clients: Clients, w: World, a: Action)
    requires Inv(clients, w) && !a.AcceptLoaded? && !a.Create?
    ensures Inv(clients, Step(clients, w, a))
  {
    assert TokensOk(w);
    hide Inv, Step, AcceptsNothing, TokensOk;
    OtherStepAcceptsNothing(clients, w, a);
    UnacceptedKeepsInv(clients, w, Step(clients, w, a));
  }

  lemma RefusedAcceptsNothing(w: World, handle: nat)
    requires TokensOk(w)
    ensures AcceptsNothing(w, w.(loads := w.loads - {handle}))
  {
    NoChangeGrows(w.c.consents);
    hide Grows;
  }

  lemma {:induction false} RunKeepsInv(clients: Clients, w: World, actions: seq<Action>)
    requires Inv(clients, w)
    ensures Inv(clients, Run(clients, w, actions))
    decreases |actions|
  {
    if |actions| == 0 {
    } else {
      var a := actions[0];
      if a.AcceptLoaded? {
        AcceptKeepsInv(clients, w, a.handle, a.env, a.input);
      } else if a.Create? {
        CreateKeepsInv(clients, w, a.id, a.env, a.clientID, a.resource, a.requested);
      } else {
        OtherStepKeepsInv(clients, w, a);
      }
      hide Inv;
      RunKeepsInv(clients, Step(clients, w, a), actions[1..]);
    }
  }

  /**
   Whatever interleaves, a user code is accepted once at most, and every acceptance is justified: granted
   is exactly what was asked for and approved, consented to, and proved where the client demands it.
   */
  lemma EveryAcceptanceIsJustified(clients: Clients, now: Time, consents: Rows, actions: seq<Action>)
    ensures
      var w := Run(clients, Start(now, consents), actions);
      && (forall n :: 0 <= n < |w.acceptances| ==> Justified(clients, w, w.acceptances[n]))
      && (forall m, n :: 0 <= m < n < |w.acceptances| ==> w.acceptances[m].id != w.acceptances[n].id)
  {
    RunKeepsInv(clients, Start(now, consents), actions);
  }
}
