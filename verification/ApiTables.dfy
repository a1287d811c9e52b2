/**
 The tables behind custom APIs: APIs, their permissions, and per client the access and permission
 grants, each split by the subject a token acts for. One function per operation says what the
 operation leaves in the tables; foreign keys delete by cascade.
 */
module ApiTables {
  import opened Common

  datatype Subject = User | Client

  datatype Api = Api(name: string, audience: string, allowCimd: bool)

  datatype Permission = Permission(apiID: string, key: string, name: string, forCimd: bool)

  datatype ClientRow = ClientRow(isPublic: bool, isCimd: bool)

  datatype Access = Access(client: string, api: string, subject: Subject)

  datatype Grant = Grant(client: string, permission: string, subject: Subject)

  datatype Db = Db(
    apis: map<string, Api>,
    permissions: map<string, Permission>,
    clients: map<string, ClientRow>,
    access: set<Access>,
    grants: set<Grant>
  )

  datatype PermissionInput = PermissionInput(key: string, name: string)

  // What the admin asks for, and what was applied
  datatype ClientGrant = ClientGrant(
    userAccess: bool,
    clientAccess: bool,
    userPermissions: seq<string>,
    clientPermissions: seq<string>
  )

  datatype Error = NotFound | InvalidKey | ReservedKey | DuplicateKey | ReservedAudience | AudienceInUse

  // ---------------------------------------------------------------- keys

  const RESERVED_KEYS := {"openid", "profile", "email", "email_verified", "groups", "offline_access"}

  function LowerChar(c: char): char {
    if 'A' <= c <= 'Z' then c - 'A' + 'a' else c
  }

  function Lower(s: string): (r: string)
    ensures |r| == |s| && forall i :: 0 <= i < |s| ==> r[i] == LowerChar(s[i])
  {
    seq(|s|, i requires 0 <= i < |s| => LowerChar(s[i]))
  }

  predicate IsReserved(key: string) {
    Lower(key) in RESERVED_KEYS
  }

  // A scope token of section 3.3 of RFC 6749: printable ASCII without space, double quote or backslash
  predicate IsScopeToken(key: string) {
    key != "" && forall c | c in key :: '!' <= c <= '~' && c != '\"' && c != '\\'
  }

  // ---------------------------------------------------------------- constraints

  function PermissionsOf(db: Db, api: string): set<string> {
    set p | p in db.permissions && db.permissions[p].apiID == api
  }

  // Distinct rows of one API have distinct keys
  ghost predicate KeysUnique(permissions: map<string, Permission>) {
    forall p, q | p in permissions && q in permissions ::
      permissions[p].apiID == permissions[q].apiID && permissions[p].key == permissions[q].key ==> p == q
  }

  // What the schema itself enforces
  ghost predicate Constraints(db: Db) {
    && (forall p :: p in db.permissions ==> db.permissions[p].apiID in db.apis)
    && (forall r :: r in db.access ==> r.client in db.clients && r.api in db.apis)
    && (forall g :: g in db.grants ==> g.client in db.clients && g.permission in db.permissions)
    && (forall a, b | a in db.apis && b in db.apis :: db.apis[a].audience == db.apis[b].audience ==> a == b)
    && KeysUnique(db.permissions)
  }

  // A permission implies access to its API for the same subject
  ghost predicate PermissionImpliesAccess(db: Db) {
    forall g | g in db.grants && g.permission in db.permissions ::
      Access(g.client, db.permissions[g.permission].apiID, g.subject) in db.access
  }

  ghost predicate KeysAllowed(db: Db) {
    forall p :: p in db.permissions ==> IsScopeToken(db.permissions[p].key) && !IsReserved(db.permissions[p].key)
  }

  // Audiences are stored without trailing slashes
  predicate Canonical(audience: string) {
    audience == "" || audience[|audience| - 1] != '/'
  }

  function TrimRightSlashes(s: string): (r: string)
    ensures Canonical(r) && r <= s
    ensures Canonical(s) ==> r == s
  {
    if Canonical(s) then s else TrimRightSlashes(s[..|s| - 1])
  }

  ghost predicate Valid(db: Db) {
    && Constraints(db) && PermissionImpliesAccess(db) && KeysAllowed(db)
    && (forall a :: a in db.apis ==> Canonical(db.apis[a].audience))
  }

  // ---------------------------------------------------------------- deleting permissions

  // The client of access row r holds one of these permissions on r's API for r's subject
  predicate Holds(db: Db, r: Access, ids: set<string>) {
    exists g :: g in db.grants && g.client == r.client && g.subject == r.subject
                && g.permission in ids && g.permission in PermissionsOf(db, r.api)
  }

  predicate LosesAccess(db: Db, r: Access, ids: set<string>) {
    Holds(db, r, ids) && !Holds(db, r, PermissionsOf(db, r.api) - ids)
  }

  function DeletePermissions(db: Db, ids: set<string>): Db {
    db.(permissions := db.permissions - ids,
        grants := (set g | g in db.grants && g.permission !in ids),
        access := (set r | r in db.access && !LosesAccess(db, r, ids)))
  }

  // ---------------------------------------------------------------- operations

  function CreateApi(db: Db, issuer: string, id: string, name: string, resource: string): Result<Db, Error> {
    var audience := TrimRightSlashes(resource);
    if issuer != "" && Lower(audience) == issuer then Err(ReservedAudience)
    else if exists a :: a in db.apis && db.apis[a].audience == audience then Err(AudienceInUse)
    else Ok(db.(apis := db.apis[id := Api(name, audience, false)]))
  }

  function DeleteApi(db: Db, id: string): Result<Db, Error> {
    if id !in db.apis then Err(NotFound)
    else
      var d := DeletePermissions(db, PermissionsOf(db, id));
      Ok(d.(apis := d.apis - {id}, access := (set r | r in d.access && r.api != id)))
  }

  function Keys(inputs: seq<PermissionInput>): set<string> {
    set i | 0 <= i < |inputs| :: inputs[i].key
  }

  // The first input that is rejected decides the error
  function CheckInputs(inputs: seq<PermissionInput>, from: nat): Option<Error>
    requires from <= |inputs|
    decreases |inputs| - from
  {
    if from == |inputs| then None
    else
      var key := inputs[from].key;
      if !IsScopeToken(key) then Some(InvalidKey)
      else if IsReserved(key) then Some(ReservedKey)
      else if key in Keys(inputs[..from]) then Some(DuplicateKey)
      else CheckInputs(inputs, from + 1)
  }

  // The name the request gives a key; the checks above leave one input per key
  function NameFor(inputs: seq<PermissionInput>, key: string): string
    requires key in Keys(inputs)
  {
    if inputs[|inputs| - 1].key == key then inputs[|inputs| - 1].name
    else
      assert exists i :: 0 <= i < |inputs| - 1 && inputs[i].key == key;
      assert inputs == inputs[..|inputs| - 1] + [inputs[|inputs| - 1]];
      NameFor(inputs[..|inputs| - 1], key)
  }

  function RemovedPermissions(db: Db, id: string, inputs: seq<PermissionInput>): set<string> {
    set p | p in PermissionsOf(db, id) && db.permissions[p].key !in Keys(inputs)
  }

  function KeysOf(db: Db, id: string): set<string> {
    set p | p in PermissionsOf(db, id) :: db.permissions[p].key
  }

  // The new keys of a request
  function AddedKeys(db: Db, id: string, inputs: seq<PermissionInput>): set<string> {
    Keys(inputs) - KeysOf(db, id)
  }

  // Database-generated row IDs, one for each new key
  predicate FreshIDs(db: Db, id: string, inputs: seq<PermissionInput>, newIDs: map<string, string>) {
    && newIDs.Keys !! db.permissions.Keys
    && newIDs.Values == AddedKeys(db, id, inputs)
    && (forall p, q | p in newIDs && q in newIDs :: newIDs[p] == newIDs[q] ==> p == q)
  }

  function RowFor(db: Db, id: string, inputs: seq<PermissionInput>, p: string): Permission
    requires p in db.permissions
  {
    var row := db.permissions[p];
    if row.apiID == id && row.key in Keys(inputs) then row.(name := NameFor(inputs, row.key)) else row
  }

  function Renamed(db: Db, id: string, inputs: seq<PermissionInput>): (r: map<string, Permission>)
    ensures r.Keys == db.permissions.Keys
    ensures forall p :: p in r ==>
      var row := db.permissions[p];
      r[p].apiID == row.apiID && r[p].key == row.key && r[p].forCimd == row.forCimd
  {
    map p | p in db.permissions :: RowFor(db, id, inputs, p)
  }

  function Inserted(id: string, inputs: seq<PermissionInput>, newIDs: map<string, string>): (r: map<string, Permission>)
    ensures forall p :: p in r ==> p in newIDs && r[p].apiID == id && r[p].key == newIDs[p] && !r[p].forCimd
  {
    map p | p in newIDs && newIDs[p] in Keys(inputs) :: Permission(id, newIDs[p], NameFor(inputs, newIDs[p]), false)
  }

  function UpdatePermissions(db: Db, id: string, inputs: seq<PermissionInput>, newIDs: map<string, string>)
    : Result<Db, Error>
  {
    if id !in db.apis then Err(NotFound)
    else
      match CheckInputs(inputs, 0)
      case Some(e) => Err(e)
      case None =>
        var d := DeletePermissions(db, RemovedPermissions(db, id, inputs));
        Ok(d.(permissions := Renamed(d, id, inputs) + Inserted(id, inputs, newIDs)))
  }

  function SetCimd(db: Db, id: string, enabled: bool, selected: seq<string>): Result<Db, Error> {
    if id !in db.apis then Err(NotFound)
    else
      Ok(db.(apis := db.apis[id := db.apis[id].(allowCimd := enabled)],
             permissions := map p | p in db.permissions ::
               var row := db.permissions[p];
               if row.apiID == id then row.(forCimd := p in selected) else row))
  }

  // Only permissions of this API count; a public client gets nothing for itself; a permission implies access
  function Applied(db: Db, id: string, client: ClientRow, wanted: ClientGrant, subject: Subject): (bool, set<string>) {
    var requested := if subject == User then wanted.userPermissions else wanted.clientPermissions;
    var flag := if subject == User then wanted.userAccess else wanted.clientAccess;
    if subject == Client && client.isPublic then (false, {})
    else
      var perms := set p | p in PermissionsOf(db, id) && p in requested;
      (flag || perms != {}, perms)
  }

  // A client without any row on this API
  function RevokeAll(db: Db, id: string, client: string): Db {
    db.(access := (set r | r in db.access && !(r.client == client && r.api == id)),
        grants := (set g | g in db.grants && !(g.client == client && g.permission in PermissionsOf(db, id))))
  }

  function Insert(db: Db, id: string, client: string, subject: Subject, applied: (bool, set<string>)): Db {
    db.(access := db.access + (if applied.0 then {Access(client, id, subject)} else {}),
        grants := db.grants + (set p | p in applied.1 :: Grant(client, p, subject)))
  }

  function SetAccess(db: Db, id: string, client: string, wanted: ClientGrant): Result<Db, Error> {
    if id !in db.apis || client !in db.clients then Err(NotFound)
    else
      var row := db.clients[client];
      Ok(Insert(Insert(RevokeAll(db, id, client), id, client, User, Applied(db, id, row, wanted, User)),
                id, client, Client, Applied(db, id, row, wanted, Client)))
  }

  function RemoveAccess(db: Db, id: string, client: string): Result<Db, Error> {
    if id !in db.apis || client !in db.clients then Err(NotFound)
    else Ok(RevokeAll(db, id, client))
  }

  // Clients are registered, changed and deleted elsewhere
  function PutClient(db: Db, client: string, row: ClientRow): Db {
    db.(clients := db.clients[client := row])
  }

  function RemoveClient(db: Db, client: string): Db {
    db.(clients := db.clients - {client},
        access := (set r | r in db.access && r.client != client),
        grants := (set g | g in db.grants && g.client != client))
  }

  // ---------------------------------------------------------------- runs

  datatype Op =
    | OpCreateApi(id: string, name: string, resource: string)
    | OpDeleteApi(id: string)
    | OpUpdatePermissions(id: string, inputs: seq<PermissionInput>, newIDs: map<string, string>)
    | OpSetCimd(id: string, enabled: bool, selected: seq<string>)
    | OpSetAccess(id: string, client: string, wanted: ClientGrant)
    | OpRemoveAccess(id: string, client: string)
    | OpPutClient(client: string, row: ClientRow)
    | OpRemoveClient(client: string)

  // A failed operation rolls back
  function OrElse(r: Result<Db, Error>, db: Db): Db {
    match r
    case Ok(d) => d
    case Err(_) => db
  }

  function Step(db: Db, issuer: string, op: Op): Db {
    match op
    case OpCreateApi(id, name, resource) =>
      if id in db.apis then db else OrElse(CreateApi(db, issuer, id, name, resource), db)
    case OpDeleteApi(id) => OrElse(DeleteApi(db, id), db)
    case OpUpdatePermissions(id, inputs, newIDs) =>
      if FreshIDs(db, id, inputs, newIDs) then OrElse(UpdatePermissions(db, id, inputs, newIDs), db) else db
    case OpSetCimd(id, enabled, selected) => OrElse(SetCimd(db, id, enabled, selected), db)
    case OpSetAccess(id, client, wanted) => OrElse(SetAccess(db, id, client, wanted), db)
    case OpRemoveAccess(id, client) => OrElse(RemoveAccess(db, id, client), db)
    case OpPutClient(client, row) => PutClient(db, client, row)
    case OpRemoveClient(client) => RemoveClient(db, client)
  }

  function Run(db: Db, issuer: string, ops: seq<Op>): Db
    decreases |ops|
  {
    if ops == [] then db else Run(Step(db, issuer, ops[0]), issuer, ops[1..])
  }

  const EMPTY := Db(map[], map[], map[], {}, {})

  lemma DeletePermissionsKeepsValid(db: Db, ids: set<string>)
    requires Valid(db)
    ensures Valid(DeletePermissions(db, ids))
  {
  }

  lemma {:induction false} CheckedInputs(inputs: seq<PermissionInput>, from: nat)
    requires from <= |inputs| && CheckInputs(inputs, from) == None
    ensures forall i :: from <= i < |inputs| ==> IsScopeToken(inputs[i].key) && !IsReserved(inputs[i].key)
    ensures forall i, j :: 0 <= i < j < |inputs| && from <= j ==> inputs[i].key != inputs[j].key
    decreases |inputs| - from
  {
    if from < |inputs| {
      CheckedInputs(inputs, from + 1);
      forall i | 0 <= i < from ensures inputs[i].key != inputs[from].key {
        assert inputs[..from][i].key in Keys(inputs[..from]);
      }
    }
  }

  lemma InsertKeepsKeysUnique(old_: map<string, Permission>, new_: map<string, Permission>, id: string)
    requires KeysUnique(old_) && KeysUnique(new_)
    requires forall p :: p in new_ ==> new_[p].apiID == id
    requires forall p, q | p in old_ && q in new_ :: old_[p].apiID == id ==> old_[p].key != new_[q].key
    ensures KeysUnique(old_ + new_)
  {
  }

  lemma RenameAndInsertKeepsKeysUnique(db: Db, d: Db, id: string, inputs: seq<PermissionInput>,
          newIDs: map<string, string>)
    requires KeysUnique(d.permissions) && KeysOf(d, id) <= KeysOf(db, id) && FreshIDs(db, id, inputs, newIDs)
    ensures KeysUnique(Renamed(d, id, inputs) + Inserted(id, inputs, newIDs))
  {
    var renamed, inserted := Renamed(d, id, inputs), Inserted(id, inputs, newIDs);
    forall p, q | p in renamed && q in inserted && renamed[p].apiID == id
      ensures renamed[p].key != inserted[q].key
    {
      assert p in PermissionsOf(d, id) && d.permissions[p].key in KeysOf(d, id);
      assert newIDs[q] in newIDs.Values;
    }
    InsertKeepsKeysUnique(renamed, inserted, id);
  }

  // New permission rows grant nothing to anyone
  lemma MoreRowsKeepImplication(d: Db, permissions: map<string, Permission>)
    requires PermissionImpliesAccess(d) && forall g :: g in d.grants ==> g.permission in d.permissions
    requires forall p :: p in d.permissions ==> p in permissions && permissions[p].apiID == d.permissions[p].apiID
    ensures PermissionImpliesAccess(d.(permissions := permissions))
  {
  }

  lemma RenameAndInsertKeepsRows(d: Db, id: string, inputs: seq<PermissionInput>, newIDs: map<string, string>)
    requires Constraints(d) && KeysAllowed(d) && id in d.apis
    requires newIDs.Values <= Keys(inputs) && forall k :: k in Keys(inputs) ==> IsScopeToken(k) && !IsReserved(k)
    ensures
      var permissions := Renamed(d, id, inputs) + Inserted(id, inputs, newIDs);
      && (forall p :: p in permissions ==> permissions[p].apiID in d.apis)
      && KeysAllowed(d.(permissions := permissions))
  {
  }

  lemma RenameAndInsertKeepsValid(db: Db, d: Db, id: string, inputs: seq<PermissionInput>, newIDs: map<string, string>)
    requires Valid(d) && id in d.apis && d.permissions.Keys <= db.permissions.Keys
    requires KeysOf(d, id) <= KeysOf(db, id)
    requires FreshIDs(db, id, inputs, newIDs)
    requires forall k :: k in Keys(inputs) ==> IsScopeToken(k) && !IsReserved(k)
    ensures Valid(d.(permissions := Renamed(d, id, inputs) + Inserted(id, inputs, newIDs)))
  {
    var permissions := Renamed(d, id, inputs) + Inserted(id, inputs, newIDs);
    RenameAndInsertKeepsKeysUnique(db, d, id, inputs, newIDs);
    RenameAndInsertKeepsRows(d, id, inputs, newIDs);
    assert newIDs.Keys !! d.permissions.Keys;
    hide KeysUnique, KeysAllowed, RowFor, Keys, KeysOf;
    MoreRowsKeepImplication(d, permissions);
    hide PermissionImpliesAccess;
  }

  lemma UpdatePermissionsKeepsValid(db: Db, id: string, inputs: seq<PermissionInput>, newIDs: map<string, string>)
    requires Valid(db) && FreshIDs(db, id, inputs, newIDs)
    ensures Valid(OrElse(UpdatePermissions(db, id, inputs, newIDs), db))
  {
    if id in db.apis && CheckInputs(inputs, 0) == None {
      DeletePermissionsKeepsValid(db, RemovedPermissions(db, id, inputs));
      CheckedInputs(inputs, 0);
      RenameAndInsertKeepsValid(db, DeletePermissions(db, RemovedPermissions(db, id, inputs)), id, inputs, newIDs);
    }
  }

  lemma RevokeAllKeepsValid(db: Db, id: string, client: string)
    requires Valid(db)
    ensures Valid(RevokeAll(db, id, client))
  {
  }

  lemma InsertKeepsValid(db: Db, id: string, client: string, subject: Subject, applied: (bool, set<string>))
    requires Valid(db) && id in db.apis && client in db.clients
    requires applied.1 <= PermissionsOf(db, id) && (applied.1 != {} ==> applied.0)
    ensures Valid(Insert(db, id, client, subject, applied))
  {
  }

  lemma SetAccessKeepsValid(db: Db, id: string, client: string, wanted: ClientGrant)
    requires Valid(db)
    ensures Valid(OrElse(SetAccess(db, id, client, wanted), db))
  {
    if id in db.apis && client in db.clients {
      var row := db.clients[client];
      var d := RevokeAll(db, id, client);
      RevokeAllKeepsValid(db, id, client);
      InsertKeepsValid(d, id, client, User, Applied(db, id, row, wanted, User));
      var e := Insert(d, id, client, User, Applied(db, id, row, wanted, User));
      InsertKeepsValid(e, id, client, Client, Applied(db, id, row, wanted, Client));
    }
  }

  lemma DeleteApiKeepsValid(db: Db, id: string)
    requires Valid(db)
    ensures Valid(OrElse(DeleteApi(db, id), db))
  {
  }

  lemma CreateApiKeepsValid(db: Db, issuer: string, id: string, name: string, resource: string)
    requires Valid(db) && id !in db.apis
    ensures Valid(OrElse(CreateApi(db, issuer, id, name, resource), db))
  {
  }

  lemma SetCimdKeepsValid(db: Db, id: string, enabled: bool, selected: seq<string>)
    requires Valid(db)
    ensures Valid(OrElse(SetCimd(db, id, enabled, selected), db))
  {
    if id in db.apis {
      FlagsDoNotMatter(db, SetCimd(db, id, enabled, selected).value);
    }
    hide Valid;
  }

  // The opt-in flags are no part of what holds of the rows
  lemma FlagsDoNotMatter(db: Db, d: Db)
    requires Valid(db) && d.clients == db.clients && d.access == db.access && d.grants == db.grants
    requires d.apis.Keys == db.apis.Keys && forall a :: a in d.apis ==> d.apis[a].audience == db.apis[a].audience
    requires d.permissions.Keys == db.permissions.Keys
    requires forall p :: p in d.permissions ==>
      d.permissions[p].apiID == db.permissions[p].apiID && d.permissions[p].key == db.permissions[p].key
    ensures Valid(d)
  {
    hide IsScopeToken, IsReserved, Canonical;
  }

  lemma StepKeepsValid(db: Db, issuer: string, op: Op)
    requires Valid(db)
    ensures Valid(Step(db, issuer, op))
  {
    match op
    case OpCreateApi(id, name, resource) =>
      if id !in db.apis {
        CreateApiKeepsValid(db, issuer, id, name, resource);
      }
    case OpDeleteApi(id) => DeleteApiKeepsValid(db, id);
    case OpUpdatePermissions(id, inputs, newIDs) =>
      if FreshIDs(db, id, inputs, newIDs) {
        UpdatePermissionsKeepsValid(db, id, inputs, newIDs);
      }
    case OpSetCimd(id, enabled, selected) => SetCimdKeepsValid(db, id, enabled, selected);
    case OpSetAccess(id, client, wanted) => SetAccessKeepsValid(db, id, client, wanted);
    case OpRemoveAccess(id, client) => RevokeAllKeepsValid(db, id, client);
    case OpPutClient(client, row) =>
    case OpRemoveClient(client) =>
  }

  /** Whatever the operations, a permission row always has its access row. */
  lemma {:induction false} EveryRunIsValid(db: Db, issuer: string, ops: seq<Op>)
    requires Valid(db)
    ensures Valid(Run(db, issuer, ops))
    decreases |ops|
  {
    if ops == [] {
    } else {
      StepKeepsValid(db, issuer, ops[0]);
      EveryRunIsValid(Step(db, issuer, ops[0]), issuer, ops[1..]);
    }
  }
}
