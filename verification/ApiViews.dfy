/**
 What the readers of the API tables see: the admin's list views, the assignable sides, the runtime
 decision for one audience, and the widening used before a resource is resolved. The theorems say that
 these independent readings of the same tables agree.
 */
module ApiViews {
  import opened Common
  import opened ApiTables

  // One client on one API, as the admin's list views show it
  datatype View = View(
    userAccess: bool,
    clientAccess: bool,
    cimdAccess: bool,
    userPermissions: set<string>,
    clientPermissions: set<string>,
    cimdPermissions: set<string>
  )

  const NOTHING := View(false, false, false, {}, {}, {})

  function GrantedOn(db: Db, client: string, api: string, subject: Subject): set<string> {
    set p | p in PermissionsOf(db, api) && Grant(client, p, subject) in db.grants
  }

  // The API-wide opt-in reaches every client that is a client ID metadata document
  predicate CimdReaches(db: Db, client: string, api: string) {
    client in db.clients && db.clients[client].isCimd && api in db.apis && db.apis[api].allowCimd
  }

  function CimdPermissions(db: Db, api: string): set<string> {
    set p | p in PermissionsOf(db, api) && db.permissions[p].forCimd
  }

  function ViewOf(db: Db, client: string, api: string): View {
    View(Access(client, api, User) in db.access,
         Access(client, api, Client) in db.access,
         CimdReaches(db, client, api),
         GrantedOn(db, client, api, User),
         GrantedOn(db, client, api, Client),
         if CimdReaches(db, client, api) then CimdPermissions(db, api) else {})
  }

  // The list views hold every pair with any row at all, access or permission
  function ListedApis(db: Db, client: string): set<string> {
    set a | a in db.apis && ViewOf(db, client, a).(cimdPermissions := {}) != NOTHING
  }

  function ListedClients(db: Db, api: string): set<string> {
    set c | c in db.clients && ViewOf(db, c, api).(cimdPermissions := {}) != NOTHING
  }

  // The assignable sides look at access rows only
  predicate Reaches(db: Db, client: string, api: string) {
    Access(client, api, User) in db.access || Access(client, api, Client) in db.access || CimdReaches(db, client, api)
  }

  function AssignableApis(db: Db, client: string): set<string> {
    set a | a in db.apis && !Reaches(db, client, a)
  }

  function AssignableClients(db: Db, api: string): set<string> {
    set c | c in db.clients && !Reaches(db, c, api)
  }

  // ---------------------------------------------------------------- runtime decision

  function KeysOfIDs(db: Db, ids: set<string>): set<string> {
    set p | p in ids && p in db.permissions :: db.permissions[p].key
  }

  predicate HasAccess(view: View, subject: Subject) {
    match subject
    case User => view.userAccess || view.cimdAccess
    case Client => view.clientAccess
  }

  function AllowedIDs(view: View, subject: Subject): set<string> {
    match subject
    case User => view.userPermissions + view.cimdPermissions
    case Client => view.clientPermissions
  }

  // The API is open to client ID metadata documents, and the client is one
  predicate OptedIn(db: Db, client: string, api: string) {
    && client in db.clients && db.clients[client].isCimd
    && api in db.apis && db.apis[api].allowCimd
  }

  /**
   A subject may reach an API if and only if it has an access row there, or acts for a user through the opt-in;
   a key is allowed if and only if the subject holds a permission with it there, or the opt-in flags one.
   A token for the client itself gets nothing from the opt-in.
   */
  lemma DecisionExactlyWhen(db: Db, client: string, api: string, subject: Subject)
    ensures
      var v, optIn := ViewOf(db, client, api), subject == User && OptedIn(db, client, api);
      && (HasAccess(v, subject) <==> Access(client, api, subject) in db.access || optIn)
      && (forall k :: k in KeysOfIDs(db, AllowedIDs(v, subject)) <==>
            exists p :: && p in db.permissions && db.permissions[p].apiID == api && db.permissions[p].key == k
                        && (Grant(client, p, subject) in db.grants || (optIn && db.permissions[p].forCimd)))
  {
    var v, optIn := ViewOf(db, client, api), subject == User && OptedIn(db, client, api);
    forall p ensures p in AllowedIDs(v, subject) <==>
      && p in db.permissions && db.permissions[p].apiID == api
      && (Grant(client, p, subject) in db.grants || (optIn && db.permissions[p].forCimd))
    {
    }
  }

  // Everything the client may ask for anywhere, read without looking at any one API
  function WidenedScopes(db: Db, client: string, isCimd: bool): set<string> {
    (set g | g in db.grants && g.client == client && g.permission in db.permissions :: db.permissions[g.permission].key)
    + if !isCimd then {}
      else set p | p in db.permissions && db.permissions[p].forCimd && CimdReaches(db, client, db.permissions[p].apiID)
             :: db.permissions[p].key
  }

  function WidenedAudiences(db: Db, client: string, isCimd: bool): set<string> {
    (set r | r in db.access && r.client == client && r.api in db.apis :: db.apis[r.api].audience)
    + if !isCimd then {} else set a | a in db.apis && CimdReaches(db, client, a) :: db.apis[a].audience
  }

  // ---------------------------------------------------------------- theorems

  /** The listed and the assignable side split all APIs of a client, and all clients of an API. */
  lemma ListedAndAssignablePartition(db: Db)
    requires Valid(db)
    ensures forall c :: ListedApis(db, c) + AssignableApis(db, c) == db.apis.Keys && ListedApis(db, c) !! AssignableApis(db, c)
    ensures forall a :: ListedClients(db, a) + AssignableClients(db, a) == db.clients.Keys
                        && ListedClients(db, a) !! AssignableClients(db, a)
  {
  }

  lemma ListedIffReaches(db: Db, c: string, a: string)
    requires Valid(db)
    ensures ViewOf(db, c, a).(cimdPermissions := {}) != NOTHING <==> Reaches(db, c, a)
  {
  }

  /** In every reachable state, from the empty tables on, the two sides partition the world. */
  lemma EveryRunPartitions(issuer: string, ops: seq<Op>, c: string, a: string)
    ensures
      var db := Run(EMPTY, issuer, ops);
      && (a in db.apis ==> (a in ListedApis(db, c) <==> a !in AssignableApis(db, c)))
      && (c in db.clients ==> (c in ListedClients(db, a) <==> c !in AssignableClients(db, a)))
  {
    EveryRunIsValid(EMPTY, issuer, ops);
    ListedIffReaches(Run(EMPTY, issuer, ops), c, a);
  }

  /**
   The widening is exact: its scopes are what the runtime decision allows on some API for some subject,
   and its audiences are those of the APIs the runtime decision lets the client reach.
   */
  lemma WideningIsExact(db: Db, c: string)
    requires Valid(db) && c in db.clients
    ensures forall k :: k in WidenedScopes(db, c, db.clients[c].isCimd) <==>
      exists a, s :: a in db.apis && HasAccess(ViewOf(db, c, a), s) && k in KeysOfIDs(db, AllowedIDs(ViewOf(db, c, a), s))
    ensures forall aud :: aud in WidenedAudiences(db, c, db.clients[c].isCimd) <==>
      exists a, s :: a in db.apis && HasAccess(ViewOf(db, c, a), s) && aud == db.apis[a].audience
  {
    forall k
      ensures k in WidenedScopes(db, c, db.clients[c].isCimd) <==>
        exists a, s :: a in db.apis && HasAccess(ViewOf(db, c, a), s) && k in KeysOfIDs(db, AllowedIDs(ViewOf(db, c, a), s))
    {
      if k in WidenedScopes(db, c, db.clients[c].isCimd) {
        WidenedScopeIsAllowed(db, c, k);
      }
      if a, s :| a in db.apis && HasAccess(ViewOf(db, c, a), s) && k in KeysOfIDs(db, AllowedIDs(ViewOf(db, c, a), s)) {
        AllowedScopeIsWidened(db, c, k, a, s);
      }
    }
    WidenedAudiencesAreReached(db, c);
  }

  lemma WidenedScopeIsAllowed(db: Db, c: string, k: string)
    requires Valid(db) && c in db.clients && k in WidenedScopes(db, c, db.clients[c].isCimd)
    ensures exists a, s :: a in db.apis && HasAccess(ViewOf(db, c, a), s) && k in KeysOfIDs(db, AllowedIDs(ViewOf(db, c, a), s))
  {
    if g :| g in db.grants && g.client == c && db.permissions[g.permission].key == k {
      var a := db.permissions[g.permission].apiID;
      assert Access(c, a, g.subject) in db.access && g.permission in GrantedOn(db, c, a, g.subject);
      assert HasAccess(ViewOf(db, c, a), g.subject) && k in KeysOfIDs(db, AllowedIDs(ViewOf(db, c, a), g.subject));
    } else {
      var p :| p in db.permissions && db.permissions[p].forCimd && CimdReaches(db, c, db.permissions[p].apiID)
               && db.permissions[p].key == k;
      var a := db.permissions[p].apiID;
      assert p in CimdPermissions(db, a);
      assert HasAccess(ViewOf(db, c, a), User) && k in KeysOfIDs(db, AllowedIDs(ViewOf(db, c, a), User));
    }
  }

  lemma AllowedScopeIsWidened(db: Db, c: string, k: string, a: string, s: Subject)
    requires Valid(db) && c in db.clients && a in db.apis && k in KeysOfIDs(db, AllowedIDs(ViewOf(db, c, a), s))
    ensures k in WidenedScopes(db, c, db.clients[c].isCimd)
  {
    var p :| p in AllowedIDs(ViewOf(db, c, a), s) && db.permissions[p].key == k;
    if Grant(c, p, s) !in db.grants {
      assert CimdReaches(db, c, db.permissions[p].apiID);
    }
  }

  lemma WidenedAudiencesAreReached(db: Db, c: string)
    requires Valid(db) && c in db.clients
    ensures forall aud :: aud in WidenedAudiences(db, c, db.clients[c].isCimd) <==>
      exists a, s :: a in db.apis && HasAccess(ViewOf(db, c, a), s) && aud == db.apis[a].audience
  {
    forall aud | aud in WidenedAudiences(db, c, db.clients[c].isCimd)
      ensures exists a, s :: a in db.apis && HasAccess(ViewOf(db, c, a), s) && aud == db.apis[a].audience
    {
      if r :| r in db.access && r.client == c && db.apis[r.api].audience == aud {
        assert r == Access(c, r.api, r.subject);
        assert HasAccess(ViewOf(db, c, r.api), r.subject);
      } else {
        var a :| a in db.apis && CimdReaches(db, c, a) && db.apis[a].audience == aud;
        assert HasAccess(ViewOf(db, c, a), User);
      }
    }
    forall a, s | a in db.apis && HasAccess(ViewOf(db, c, a), s)
      ensures db.apis[a].audience in WidenedAudiences(db, c, db.clients[c].isCimd)
    {
      assert Access(c, a, s) in db.access || CimdReaches(db, c, a);
    }
  }

  /**
   Deleting permissions drops an access row exactly when the client held one of them there, for that subject, and
   holds none afterwards.
   */
  lemma DeletePermissionsDropsExactly(db: Db, ids: set<string>, r: Access)
    requires Valid(db) && r in db.access
    ensures
      var d := DeletePermissions(db, ids);
      r !in d.access <==>
        && GrantedOn(db, r.client, r.api, r.subject) * ids != {}
        && GrantedOn(d, r.client, r.api, r.subject) == {}
  {
    var d := DeletePermissions(db, ids);
    var before, after := GrantedOn(db, r.client, r.api, r.subject), GrantedOn(d, r.client, r.api, r.subject);
    assert after == before - ids;
    if p :| p in before * ids {
      assert Grant(r.client, p, r.subject) in db.grants;
      assert Holds(db, r, ids);
    }
    if p :| p in after {
      assert Grant(r.client, p, r.subject) in db.grants && p in PermissionsOf(db, r.api) - ids;
      assert Holds(db, r, PermissionsOf(db, r.api) - ids);
    }
    if Holds(db, r, ids) {
      var g :| g in db.grants && g.client == r.client && g.subject == r.subject && g.permission in ids
               && g.permission in PermissionsOf(db, r.api);
      assert g == Grant(r.client, g.permission, r.subject);
      assert g.permission in before * ids;
    }
    if Holds(db, r, PermissionsOf(db, r.api) - ids) {
      var g :| g in db.grants && g.client == r.client && g.subject == r.subject && g.permission in PermissionsOf(db, r.api) - ids;
      assert g == Grant(r.client, g.permission, r.subject);
      assert g.permission in after;
    }
  }

  lemma UpdatedKeys(db: Db, id: string, inputs: seq<PermissionInput>, newIDs: map<string, string>)
    requires FreshIDs(db, id, inputs, newIDs)
    requires UpdatePermissions(db, id, inputs, newIDs).Ok?
    ensures KeysOf(UpdatePermissions(db, id, inputs, newIDs).value, id) == Keys(inputs)
  {
    var removed := RemovedPermissions(db, id, inputs);
    var u := UpdatePermissions(db, id, inputs, newIDs).value;
    assert u.permissions == Renamed(DeletePermissions(db, removed), id, inputs) + Inserted(id, inputs, newIDs);
    forall k | k in Keys(inputs) ensures k in KeysOf(u, id) {
      if k in KeysOf(db, id) {
        var p :| p in PermissionsOf(db, id) && db.permissions[p].key == k;
        assert p in PermissionsOf(u, id) && u.permissions[p].key == k;
      } else {
        assert k in newIDs.Values;
        var p :| p in newIDs && newIDs[p] == k;
        assert p in PermissionsOf(u, id) && u.permissions[p].key == k;
      }
    }
  }

  // One of the inputs has this key and this name
  predicate HasInput(inputs: seq<PermissionInput>, key: string, name: string) {
    exists i :: 0 <= i < |inputs| && inputs[i] == PermissionInput(key, name)
  }

  lemma {:induction false} NameForIsOfAnInput(inputs: seq<PermissionInput>, key: string)
    requires key in Keys(inputs)
    ensures HasInput(inputs, key, NameFor(inputs, key))
  {
    var n := |inputs| - 1;
    if inputs[n].key != key {
      assert exists i :: 0 <= i < n && inputs[i].key == key;
      NameForIsOfAnInput(inputs[..n], key);
      var i :| 0 <= i < n && inputs[..n][i] == PermissionInput(key, NameFor(inputs[..n], key));
      assert inputs[i] == PermissionInput(key, NameFor(inputs, key));
    } else {
      assert inputs[n] == PermissionInput(key, NameFor(inputs, key));
    }
  }

  /**
   The API ends up with exactly the requested keys under the requested names; a retained key keeps its row ID,
   opt-in flag and every grant, a new one is opted out and granted to nobody; other APIs keep everything.
   */
  lemma UpdatePermissionsIsExact(db: Db, id: string, inputs: seq<PermissionInput>, newIDs: map<string, string>)
    requires Valid(db) && FreshIDs(db, id, inputs, newIDs)
    requires UpdatePermissions(db, id, inputs, newIDs).Ok?
    ensures
      var u := UpdatePermissions(db, id, inputs, newIDs).value;
      && KeysOf(u, id) == Keys(inputs)
      && (forall p | p in db.permissions ::
            var row := db.permissions[p];
            if row.apiID != id then p in u.permissions && u.permissions[p] == row
            else if row.key !in Keys(inputs) then p !in u.permissions
            else
              && p in u.permissions && u.permissions[p] == row.(name := u.permissions[p].name)
              && HasInput(inputs, row.key, u.permissions[p].name))
      && (forall p | p in u.permissions && p !in db.permissions ::
            var row := u.permissions[p];
            row.apiID == id && !row.forCimd && HasInput(inputs, row.key, row.name))
      && u.grants == (set g | g in db.grants && g.permission in u.permissions)
      && u.access <= db.access && (forall r | r in db.access && r.api != id :: r in u.access)
      && u.apis == db.apis && u.clients == db.clients
  {
    UpdatedKeys(db, id, inputs, newIDs);
    UpdatedRows(db, id, inputs, newIDs);
    UpdatedHolders(db, id, inputs, newIDs);
    hide HasInput, UpdatePermissions, Keys, KeysOf;
  }

  lemma UpdatedRows(db: Db, id: string, inputs: seq<PermissionInput>, newIDs: map<string, string>)
    requires Valid(db) && FreshIDs(db, id, inputs, newIDs)
    requires UpdatePermissions(db, id, inputs, newIDs).Ok?
    ensures
      var u := UpdatePermissions(db, id, inputs, newIDs).value;
      && (forall p | p in db.permissions ::
            var row := db.permissions[p];
            if row.apiID != id then p in u.permissions && u.permissions[p] == row
            else if row.key !in Keys(inputs) then p !in u.permissions
            else
              && p in u.permissions && u.permissions[p] == row.(name := u.permissions[p].name)
              && HasInput(inputs, row.key, u.permissions[p].name))
      && (forall p | p in u.permissions && p !in db.permissions ::
            var row := u.permissions[p];
            row.apiID == id && !row.forCimd && HasInput(inputs, row.key, row.name))
  {
    forall key | key in Keys(inputs) ensures HasInput(inputs, key, NameFor(inputs, key)) {
      NameForIsOfAnInput(inputs, key);
    }
    hide HasInput, Keys, NameFor, LosesAccess, Constraints;
  }

  lemma UpdatedHolders(db: Db, id: string, inputs: seq<PermissionInput>, newIDs: map<string, string>)
    requires Valid(db) && FreshIDs(db, id, inputs, newIDs)
    requires UpdatePermissions(db, id, inputs, newIDs).Ok?
    ensures
      var u := UpdatePermissions(db, id, inputs, newIDs).value;
      && u.grants == (set g | g in db.grants && g.permission in u.permissions)
      && u.access <= db.access && (forall r | r in db.access && r.api != id :: r in u.access)
      && u.apis == db.apis && u.clients == db.clients
  {
    var removed := RemovedPermissions(db, id, inputs);
    var d := DeletePermissions(db, removed);
    forall r | r in db.access && r.api != id ensures r in d.access {
      assert !Holds(db, r, removed);
    }
    hide Keys, NameFor, RowFor, CheckInputs;
  }

  // ---------------------------------------------------------------- one client's grant

  // The permissions of an API that a list of IDs names
  function Named(db: Db, api: string, ids: seq<string>): set<string> {
    set p | p in db.permissions && db.permissions[p].apiID == api && p in ids
  }

  /**
   After SetAPIClientAccess a subject holds exactly the permissions of this API that were wanted for it, and
   has access exactly when access was wanted or it holds any; a public client gets nothing for itself. The
   opt-in and every other pair are unchanged.
   */
  lemma SetAccessReadsBack(db: Db, id: string, client: string, wanted: ClientGrant, c: string, a: string)
    requires Valid(db)
    ensures SetAccess(db, id, client, wanted).Ok? <==> id in db.apis && client in db.clients
    ensures id in db.apis && client in db.clients ==>
      var v := ViewOf(SetAccess(db, id, client, wanted).value, c, a);
      if c == client && a == id then
        && v.userPermissions == Named(db, id, wanted.userPermissions)
        && (v.userAccess <==> wanted.userAccess || v.userPermissions != {})
        && v.clientPermissions == (if db.clients[client].isPublic then {} else Named(db, id, wanted.clientPermissions))
        && (v.clientAccess <==> !db.clients[client].isPublic && (wanted.clientAccess || v.clientPermissions != {}))
        && v.cimdAccess == ViewOf(db, c, a).cimdAccess && v.cimdPermissions == ViewOf(db, c, a).cimdPermissions
      else v == ViewOf(db, c, a)
  {
    if id in db.apis && client in db.clients {
      var d := SetAccess(db, id, client, wanted).value;
      assert ViewOf(d, c, a).cimdPermissions == ViewOf(db, c, a).cimdPermissions;
      GrantsAfterSetAccess(db, id, client, wanted, c, a, User);
      GrantsAfterSetAccess(db, id, client, wanted, c, a, Client);
      AppliedPermissions(db, id, client, wanted);
      hide Valid, GrantedOn, CimdPermissions, PermissionsOf, Named;
    }
  }

  lemma AppliedPermissions(db: Db, id: string, client: string, wanted: ClientGrant)
    requires client in db.clients
    ensures
      var row := db.clients[client];
      var u, s := Applied(db, id, row, wanted, User), Applied(db, id, row, wanted, Client);
      && u.1 == Named(db, id, wanted.userPermissions) && (u.0 <==> wanted.userAccess || u.1 != {})
      && s.1 == (if row.isPublic then {} else Named(db, id, wanted.clientPermissions))
      && (s.0 <==> !row.isPublic && (wanted.clientAccess || s.1 != {}))
  {
  }

  lemma GrantsAfterSetAccess(db: Db, id: string, client: string, wanted: ClientGrant, c: string, a: string, x: Subject)
    requires Valid(db) && id in db.apis && client in db.clients
    ensures GrantedOn(SetAccess(db, id, client, wanted).value, c, a, x) ==
      if c == client && a == id then Applied(db, id, db.clients[client], wanted, x).1 else GrantedOn(db, c, a, x)
  {
    var row := db.clients[client];
    var u, s := Applied(db, id, row, wanted, User), Applied(db, id, row, wanted, Client);
    var d := SetAccess(db, id, client, wanted).value;
    assert d == Insert(Insert(RevokeAll(db, id, client), id, client, User, u), id, client, Client, s);
    assert PermissionsOf(d, a) == PermissionsOf(db, a);
    assert forall p :: p in PermissionsOf(db, a) && Grant(c, p, x) in d.grants <==>
      p in PermissionsOf(db, a)
      && if c == client && a == id then p in (if x == User then u.1 else s.1) else Grant(c, p, x) in db.grants;
  }

  /** Applying the same grant twice changes nothing more, and removing the access erases all of it. */
  lemma SetAccessIsIdempotentAndUndone(db: Db, id: string, client: string, wanted: ClientGrant)
    requires Valid(db) && id in db.apis && client in db.clients
    ensures
      var d := SetAccess(db, id, client, wanted).value;
      && SetAccess(d, id, client, wanted) == Ok(d)
      && RemoveAccess(d, id, client) == RemoveAccess(db, id, client)
      && ViewOf(RemoveAccess(d, id, client).value, client, id).(cimdAccess := false, cimdPermissions := {}) == NOTHING
  {
    var d := SetAccess(db, id, client, wanted).value;
    assert PermissionsOf(d, id) == PermissionsOf(db, id);
    assert RevokeAll(d, id, client) == RevokeAll(db, id, client) by {
      assert RevokeAll(d, id, client).access == RevokeAll(db, id, client).access;
      assert RevokeAll(d, id, client).grants == RevokeAll(db, id, client).grants;
    }
  }
}
