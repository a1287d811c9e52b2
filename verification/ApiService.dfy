/**
 The service over the tables. Rows come back from the database in no particular order and Go iterates
 over maps in no particular order, so every loop here picks its next row arbitrarily: the contracts say
 that the results do not depend on it.
 */
module ApiService {
  import opened Common
  import opened ApiTables
  import opened ApiRows
  import opened ApiViews
  import opened Lists

  // Keeps the first occurrence of every value
  method Distinct(values: seq<string>) returns (result: seq<string>)
    ensures result == Dedup(values) && NoDuplicates(result) && Elements(result) == Elements(values)
  {
    var seen: set<string> := {};
    result := [];
    for i := 0 to |values|
      invariant seen == Elements(result)
      invariant result == Dedup(values[..i])
    {
      DedupStep(values, i);
      Snoc(result, values[i]);
      if values[i] in seen {
        continue;
      }
      seen := seen + {values[i]};
      result := result + [values[i]];
    }
    assert values[..|values|] == values;
  }

  // Appends the values that are not there yet
  method AppendMissing(values: seq<string>, extra: seq<string>) returns (result: seq<string>)
    requires NoDuplicates(values)
    ensures NoDuplicates(result) && Elements(result) == Elements(values) + Elements(extra)
  {
    result := values;
    for i := 0 to |extra|
      invariant NoDuplicates(result) && Elements(result) == Elements(values) + Elements(extra[..i])
    {
      assert extra[..i + 1] == extra[..i] + [extra[i]];
      Snoc(extra[..i], extra[i]);
      Snoc(result, extra[i]);
      if extra[i] !in result {
        result := result + [extra[i]];
      }
    }
    assert extra[..|extra|] == extra;
  }

  // The requested IDs that are available, in the order of the available ones
  method IntersectIDs(available: seq<string>, requested: seq<string>) returns (result: seq<string>)
    requires NoDuplicates(available)
    ensures NoDuplicates(result) && Elements(result) == Elements(available) * Elements(requested)
  {
    result := [];
    if |requested| == 0 {
      return;
    }
    for i := 0 to |available|
      invariant NoDuplicates(result) && Elements(result) == Elements(available[..i]) * Elements(requested)
    {
      assert available[..i + 1] == available[..i] + [available[i]];
      Snoc(available[..i], available[i]);
      Snoc(result, available[i]);
      if available[i] in requested {
        assert available[i] !in Elements(available[..i]);
        result := result + [available[i]];
      }
    }
    assert available[..|available|] == available;
  }

  // One column of a set of rows, scanned in an arbitrary order
  method Scan<R(==)>(rows: set<R>, column: R --> string) returns (result: seq<string>)
    requires forall r :: r in rows ==> column.requires(r)
    ensures Elements(result) == set r | r in rows :: column(r)
    ensures (forall r, q | r in rows && q in rows :: column(r) == column(q) ==> r == q) ==> NoDuplicates(result)
  {
    result := [];
    var todo := rows;
    while todo != {}
      invariant todo <= rows
      invariant Elements(result) == set r | r in rows - todo :: column(r)
      invariant (forall r, q | r in rows && q in rows :: column(r) == column(q) ==> r == q) ==> NoDuplicates(result)
    {
      var row :| row in todo;
      ghost var done := rows - todo;
      todo := todo - {row};
      assert rows - todo == done + {row};
      assert (set r | r in done + {row} :: column(r)) == (set r | r in done :: column(r)) + {column(row)};
      Snoc(result, column(row));
      result := result + [column(row)];
    }
  }

  class Service {
    const issuer: string
    var apis: map<string, Api>
    var permissions: map<string, Permission>
    var clients: map<string, ClientRow>
    var access: set<Access>
    var grants: set<Grant>

    constructor (issuer: string)
      ensures Snapshot() == EMPTY && this.issuer == issuer
    {
      this.issuer := issuer;
      apis, permissions, clients, access, grants := map[], map[], map[], {}, {};
    }

    function Snapshot(): Db
      reads this
    {
      Db(apis, permissions, clients, access, grants)
    }

    function PermissionIDs(id: string): set<string>
      reads this
    {
      set p | p in permissions && permissions[p].apiID == id
    }

    method Create(id: string, name: string, resource: string) returns (r: Result<(), Error>)
      requires Valid(Snapshot()) && id !in apis
      modifies this
      ensures r.Ok? <==> CreateApi(old(Snapshot()), issuer, id, name, resource).Ok?
      ensures Snapshot() == OrElse(CreateApi(old(Snapshot()), issuer, id, name, resource), old(Snapshot()))
      ensures Valid(Snapshot())
    {
      CreateApiKeepsValid(Snapshot(), issuer, id, name, resource);
      var audience := TrimRightSlashes(resource);
      if issuer != "" && Lower(audience) == issuer {
        return Err(ReservedAudience);
      }
      if exists a :: a in apis && apis[a].audience == audience {
        return Err(AudienceInUse);
      }
      apis := apis[id := Api(name, audience, false)];
      r := Ok(());
    }

    /** Access is dropped together with the last permission a client held on an API. */
    method DeletePermissionRows(ids: set<string>)
      requires Valid(Snapshot())
      modifies this`permissions, this`access, this`grants
      ensures Snapshot() == DeletePermissions(old(Snapshot()), ids)
      ensures Valid(Snapshot())
    {
      ghost var before := Snapshot();
      DeletePermissionsKeepsValid(before, ids);
      DeletionOfHeld(before, ids);
      hide Valid;
      if ids == {} {
        return;
      }
      // Who held these permissions, on which API and for which subject, before the grants are gone
      var affected := HolderRows(Snapshot(), ids);
      permissions := permissions - ids;
      grants := set g | g in grants && g.permission !in ids;
      var todo := affected;
      while todo != {}
        invariant todo <= affected
        invariant Snapshot() == before.(permissions := permissions, grants := grants, access := access)
        invariant permissions == before.permissions - ids
        invariant grants == set g | g in before.grants && g.permission !in ids
        invariant access == set r | r in before.access && (r in affected - todo ==> r in HolderRows(Snapshot(), permissions.Keys))
      {
        var row :| row in todo;
        todo := todo - {row};
        if row in HolderRows(Snapshot(), permissions.Keys) {
          continue;
        }
        access := access - {row};
      }
    }

    method Delete(id: string) returns (r: Result<(), Error>)
      requires Valid(Snapshot())
      modifies this
      ensures r.Ok? <==> id in old(apis)
      ensures Snapshot() == OrElse(DeleteApi(old(Snapshot()), id), old(Snapshot()))
      ensures Valid(Snapshot())
    {
      DeleteApiKeepsValid(Snapshot(), id);
      if id !in apis {
        return Err(NotFound);
      }
      DeletePermissionRows(PermissionIDs(id));
      apis := apis - {id};
      access := set r | r in access && r.api != id;
      r := Ok(());
    }

    // Go's map from key to row, filled from the rows of one API
    method IndexByKey(id: string) returns (existing: map<string, string>)
      ensures existing.Keys == KeysOf(Snapshot(), id)
      ensures forall k :: k in existing ==> existing[k] in PermissionsOf(Snapshot(), id) && permissions[existing[k]].key == k
    {
      existing := map[];
      var rows := PermissionIDs(id);
      var todo := rows;
      while todo != {}
        invariant todo <= rows
        invariant existing.Keys == set p | p in rows - todo :: permissions[p].key
        invariant forall k :: k in existing ==> existing[k] in rows && permissions[existing[k]].key == k
      {
        var p :| p in todo;
        ghost var done := rows - todo;
        todo := todo - {p};
        assert rows - todo == done + {p};
        existing := existing[permissions[p].key := p];
      }
      assert rows == PermissionsOf(Snapshot(), id);
    }

    /** Every order of the three map iterations leaves the same tables; a rejected request leaves them alone. */
    method ReplacePermissions(id: string, inputs: seq<PermissionInput>, newIDs: map<string, string>)
      returns (r: Result<(), Error>)
      requires Valid(Snapshot()) && FreshIDs(Snapshot(), id, inputs, newIDs)
      modifies this`permissions, this`access, this`grants
      ensures Snapshot() == OrElse(UpdatePermissions(old(Snapshot()), id, inputs, newIDs), old(Snapshot()))
      ensures r == match UpdatePermissions(old(Snapshot()), id, inputs, newIDs) case Ok(_) => Ok(()) case Err(e) => Err(e)
      ensures Valid(Snapshot())
    {
      UpdatePermissionsKeepsValid(Snapshot(), id, inputs, newIDs);
      if id !in apis {
        return Err(NotFound);
      }
      var rejected := CheckRequest(inputs);
      if rejected.Some? {
        return Err(rejected.value);
      }
      var existing := IndexByKey(id);
      var wanted := map k | k in Keys(inputs) :: NameFor(inputs, k);
      var removed := FindRemoved(id, inputs, existing, wanted);
      FreshAfterDeletion(Snapshot(), id, inputs, newIDs);
      hide Valid, FreshIDs;
      DeletePermissionRows(removed);
      InsertOrRename(id, inputs, newIDs, existing, wanted);
      r := Ok(());
    }

    method FindRemoved(id: string, inputs: seq<PermissionInput>, existing: map<string, string>,
            wanted: map<string, string>)
      returns (removed: set<string>)
      requires Valid(Snapshot())
      requires existing.Keys == KeysOf(Snapshot(), id) && wanted.Keys == Keys(inputs)
      requires forall k :: k in existing ==> existing[k] in PermissionsOf(Snapshot(), id) && permissions[existing[k]].key == k
      ensures removed == RemovedPermissions(Snapshot(), id, inputs)
    {
      removed := {};
      var todo := existing.Keys;
      while todo != {}
        invariant todo <= existing.Keys
        invariant removed == set k | k in existing && k !in todo && k !in wanted :: existing[k]
      {
        var key :| key in todo;
        todo := todo - {key};
        if key !in wanted {
          removed := removed + {existing[key]};
        }
      }
      forall p | p in RemovedPermissions(Snapshot(), id, inputs) ensures p in removed {
        assert permissions[p].key in KeysOf(Snapshot(), id);
        assert existing[permissions[p].key] == p;
      }
    }

    // Walks the wanted keys in an arbitrary order
    method InsertOrRename(id: string, inputs: seq<PermissionInput>, newIDs: map<string, string>,
                          existing: map<string, string>, wanted: map<string, string>)
      requires wanted.Keys == Keys(inputs) && forall k :: k in wanted ==> wanted[k] == NameFor(inputs, k)
      requires KeysUnique(permissions) && FreshIDs(Snapshot(), id, inputs, newIDs)
      requires forall k :: k in wanted ==> (k in existing <==> k in KeysOf(Snapshot(), id))
      requires forall k :: k in existing && k in wanted ==>
        existing[k] in PermissionsOf(Snapshot(), id) && permissions[existing[k]].key == k
      modifies this`permissions
      ensures permissions == Renamed(old(Snapshot()), id, inputs) + Inserted(id, inputs, newIDs)
    {
      ghost var start := Snapshot();
      WalkBounds(start, id, inputs, newIDs);
      hide Walked, KeysUnique;
      var todo := wanted.Keys;
      while todo != {}
        invariant todo <= wanted.Keys
        invariant permissions == Walked(start, id, inputs, newIDs, todo)
      {
        var key :| key in todo;
        ghost var before := todo;
        todo := todo - {key};
        if key in existing {
          RenameOne(start, id, inputs, newIDs, before, key, existing[key]);
          permissions := permissions[existing[key] := permissions[existing[key]].(name := wanted[key])];
        } else {
          assert key in newIDs.Values;
          var p :| p in newIDs && newIDs[p] == key;
          InsertOne(start, id, inputs, newIDs, before, key, p);
          permissions := permissions[p := Permission(id, key, wanted[key], false)];
        }
      }
    }
  
    method SetCimdAccess(id: string, enabled: bool, selected: seq<string>) returns (r: Result<(), Error>)
      requires Valid(Snapshot())
      modifies this`apis, this`permissions
      ensures r.Ok? <==> id in old(apis)
      ensures Snapshot() == OrElse(SetCimd(old(Snapshot()), id, enabled, selected), old(Snapshot()))
      ensures Valid(Snapshot())
    {
      SetCimdKeepsValid(Snapshot(), id, enabled, selected);
      if id !in apis {
        return Err(NotFound);
      }
      hide Valid;
      FlagPermissions(id, selected);
      apis := apis[id := apis[id].(allowCimd := enabled)];
      r := Ok(());
    }

    // Clears the flag on every row of the API, then sets it on the selected ones
    method FlagPermissions(id: string, selected: seq<string>)
      modifies this`permissions
      ensures permissions == map p | p in old(permissions) ::
        var row := old(permissions)[p];
        if row.apiID == id then row.(forCimd := p in selected) else row
    {
      var table := permissions;
      var cleared := map p | p in table :: if table[p].apiID == id then table[p].(forCimd := false) else table[p];
      permissions := map p | p in cleared ::
        if cleared[p].apiID == id && p in selected then cleared[p].(forCimd := true) else cleared[p];
    }

    // Removes one client's rows on one API
    method DeleteClientGrants(id: string, client: string)
      modifies this`access, this`grants
      ensures Snapshot() == RevokeAll(old(Snapshot()), id, client)
    {
      var own := PermissionIDs(id);
      ghost var before := Snapshot();
      access := set r | r in access && !(r.client == client && r.api == id);
      if own == {} {
        assert grants == RevokeAll(before, id, client).grants;
        return;
      }
      grants := set g | g in grants && !(g.client == client && g.permission in own);
    }

    method InsertGrants(id: string, client: string, subject: Subject, reach: bool, granted: seq<string>)
      modifies this`access, this`grants
      ensures Snapshot() == Insert(old(Snapshot()), id, client, subject, (reach, Elements(granted)))
    {
      ghost var before := grants;
      if reach {
        access := access + {Access(client, id, subject)};
      }
      for i := 0 to |granted|
        invariant access == old(access) + if reach then {Access(client, id, subject)} else {}
        invariant grants == before + set p | p in Elements(granted[..i]) :: Grant(client, p, subject)
      {
        Snoc(granted[..i], granted[i]);
        assert granted[..i + 1] == granted[..i] + [granted[i]];
        grants := grants + {Grant(client, granted[i], subject)};
      }
      assert granted[..|granted|] == granted;
    }

    // The wanted permissions of this API, and the access they imply
    method AppliedGrant(id: string, client: string, wanted: ClientGrant) returns (g: ClientGrant)
      requires client in clients
      ensures (g.userAccess, Elements(g.userPermissions)) == Applied(Snapshot(), id, clients[client], wanted, User)
      ensures (g.clientAccess, Elements(g.clientPermissions)) == Applied(Snapshot(), id, clients[client], wanted, Client)
      ensures NoDuplicates(g.userPermissions) && NoDuplicates(g.clientPermissions)
    {
      var row := clients[client];
      var own := Scan(PermissionIDs(id), p => p);
      assert Elements(own) == PermissionIDs(id);
      var userPermissions := IntersectIDs(own, wanted.userPermissions);
      var clientPermissions := IntersectIDs(own, wanted.clientPermissions);
      SameApplied(Snapshot(), id, own, userPermissions, wanted.userPermissions);
      SameApplied(Snapshot(), id, own, clientPermissions, wanted.clientPermissions);
      var clientAccess := wanted.clientAccess;
      if row.isPublic {
        clientAccess := false;
        clientPermissions := [];
      }
      assert Elements<string>([]) == {};
      var userReach := wanted.userAccess || |userPermissions| > 0;
      var clientReach := clientAccess || |clientPermissions| > 0;
      g := ClientGrant(userReach, clientReach, userPermissions, clientPermissions);
    }

    /** Replaces one client's grants on one API and answers what was applied. */
    method SetAPIClientAccess(id: string, client: string, wanted: ClientGrant) returns (r: Result<ClientGrant, Error>)
      requires Valid(Snapshot())
      modifies this`access, this`grants
      ensures r.Ok? <==> id in apis && client in clients
      ensures Snapshot() == OrElse(SetAccess(old(Snapshot()), id, client, wanted), old(Snapshot()))
      ensures Valid(Snapshot())
      ensures r.Ok? ==>
        var view := ViewOf(Snapshot(), client, id);
        && r.value.userAccess == view.userAccess && Elements(r.value.userPermissions) == view.userPermissions
        && r.value.clientAccess == view.clientAccess && Elements(r.value.clientPermissions) == view.clientPermissions
        && NoDuplicates(r.value.userPermissions) && NoDuplicates(r.value.clientPermissions)
      ensures r.Ok? ==>
        && Elements(r.value.userPermissions) == Named(old(Snapshot()), id, wanted.userPermissions)
        && (r.value.userAccess <==> wanted.userAccess || Elements(r.value.userPermissions) != {})
        && Elements(r.value.clientPermissions) ==
             (if clients[client].isPublic then {} else Named(old(Snapshot()), id, wanted.clientPermissions))
        && (r.value.clientAccess <==>
              !clients[client].isPublic && (wanted.clientAccess || Elements(r.value.clientPermissions) != {}))
    {
      SetAccessKeepsValid(Snapshot(), id, client, wanted);
      if id !in apis || client !in clients {
        return Err(NotFound);
      }
      SetAccessReadsBack(Snapshot(), id, client, wanted, client, id);
      GrantedIsApplied(Snapshot(), id, client, wanted);
      hide Valid, Named, ViewOf, Applied, Elements, NoDuplicates;
      var g := AppliedGrant(id, client, wanted);
      DeleteClientGrants(id, client);
      InsertGrants(id, client, User, g.userAccess, g.userPermissions);
      InsertGrants(id, client, Client, g.clientAccess, g.clientPermissions);
      r := Ok(g);
    }

    method RemoveAPIClientAccess(id: string, client: string) returns (r: Result<(), Error>)
      requires Valid(Snapshot())
      modifies this`access, this`grants
      ensures r.Ok? <==> id in apis && client in clients
      ensures Snapshot() == OrElse(RemoveAccess(old(Snapshot()), id, client), old(Snapshot()))
      ensures Valid(Snapshot())
    {
      RevokeAllKeepsValid(Snapshot(), id, client);
      if id !in apis || client !in clients {
        return Err(NotFound);
      }
      DeleteClientGrants(id, client);
      r := Ok(());
    }

    // ---------------------------------------------------------------- readers

    /**
     The runtime decision for an audience. It is the admin's view of the same client and API: access
     exactly when the view shows it, scopes exactly the keys of the listed permission IDs, none twice.
     */
    method AllowedScopesForAudience(client: string, audience: string, subject: Subject)
      returns (scopes: seq<string>, apiExists: bool, hasAccess: bool)
      requires Valid(Snapshot())
      ensures apiExists <==> exists a :: a in apis && apis[a].audience == audience
      ensures !apiExists ==> scopes == [] && !hasAccess
      ensures NoDuplicates(scopes)
      ensures forall a :: a in apis && apis[a].audience == audience ==>
        && hasAccess == HasAccess(ViewOf(Snapshot(), client, a), subject)
        && Elements(scopes) == KeysOfIDs(Snapshot(), AllowedIDs(ViewOf(Snapshot(), client, a), subject))
      ensures forall a :: a in apis && apis[a].audience == audience ==>
        var optIn := subject == User && OptedIn(Snapshot(), client, a);
        && (hasAccess <==> Access(client, a, subject) in access || optIn)
        && (forall k :: k in scopes <==>
              exists p :: && p in permissions && permissions[p].apiID == a && permissions[p].key == k
                          && (Grant(client, p, subject) in grants || (optIn && permissions[p].forCimd)))
    {
      if !exists a :: a in apis && apis[a].audience == audience {
        return [], false, false;
      }
      var api: string :| api in apis && apis[api].audience == audience;
      apiExists := true;
      GrantedRowsExist(Snapshot(), client, api);
      hide Valid;
      scopes, hasAccess := AllowedScopesForAPI(client, api, subject);
      DecisionExactlyWhen(Snapshot(), client, api, subject);
      assert forall k :: k in scopes <==> k in Elements(scopes);
      hide OptedIn, HasAccess, AllowedIDs, KeysOfIDs, ViewOf;
    }

    method AllowedScopesForAPI(client: string, api: string, subject: Subject)
      returns (scopes: seq<string>, hasAccess: bool)
      requires api in apis
      requires forall p, q | p in PermissionsOf(Snapshot(), api) && q in PermissionsOf(Snapshot(), api) ::
        permissions[p].key == permissions[q].key ==> p == q
      ensures NoDuplicates(scopes)
      ensures hasAccess == HasAccess(ViewOf(Snapshot(), client, api), subject)
      ensures Elements(scopes) == KeysOfIDs(Snapshot(), AllowedIDs(ViewOf(Snapshot(), client, api), subject))
    {
      ghost var view := ViewOf(Snapshot(), client, api);
      var grantCount := |set r | r in Snapshot().access && r.client == client && r.api == api && r.subject == subject|;
      CountAccess(Snapshot(), client, api, subject);
      hasAccess := grantCount > 0;
      scopes := ScopesOn(api, GrantedOn(Snapshot(), client, api, subject));
      if apis[api].allowCimd && subject == User && CimdReaches(Snapshot(), client, api) {
        hasAccess := true;
        var extra := ScopesOn(api, CimdPermissions(Snapshot(), api));
        scopes := AppendMissing(scopes, extra);
        KeysOfUnion(Snapshot(), view.userPermissions, view.cimdPermissions);
      } else {
        assert AllowedIDs(view, subject) == GrantedOn(Snapshot(), client, api, subject);
      }
    }

    // The keys of some rows of one API
    method ScopesOn(api: string, rows: set<string>) returns (scopes: seq<string>)
      requires rows <= PermissionsOf(Snapshot(), api)
      requires forall p, q | p in PermissionsOf(Snapshot(), api) && q in PermissionsOf(Snapshot(), api) ::
        permissions[p].key == permissions[q].key ==> p == q
      ensures NoDuplicates(scopes) && Elements(scopes) == KeysOfIDs(Snapshot(), rows)
    {
      var table := permissions;
      scopes := Scan(rows, p requires p in table => table[p].key);
      assert KeysOfIDs(Snapshot(), rows) == set p | p in rows :: table[p].key;
    }

    /** What fosite's scope and audience checks are widened by, each value once. */
    method ClientAPIScopesAndAudiences(client: string, isCimd: bool)
      returns (scopes: seq<string>, audiences: seq<string>)
      requires Valid(Snapshot())
      ensures NoDuplicates(scopes) && Elements(scopes) == WidenedScopes(Snapshot(), client, isCimd)
      ensures NoDuplicates(audiences) && Elements(audiences) == WidenedAudiences(Snapshot(), client, isCimd)
    {
      var audienceRows := AudienceRows(client);
      var scopeRows := ScopeRows(client);
      if isCimd {
        var moreAudiences := OptInAudiences(client);
        var moreScopes := OptInKeys(client);
        ElementsOfConcat(audienceRows, moreAudiences);
        ElementsOfConcat(scopeRows, moreScopes);
        audienceRows := audienceRows + moreAudiences;
        scopeRows := scopeRows + moreScopes;
      }
      hide Valid;
      scopes := Distinct(scopeRows);
      audiences := Distinct(audienceRows);
    }

    // What the opt-in adds, one value per row
    method OptInAudiences(client: string) returns (audiences: seq<string>)
      ensures Elements(audiences) == set a | a in apis && CimdReaches(Snapshot(), client, a) :: apis[a].audience
    {
      var table := apis;
      var selected := set a | a in apis && CimdReaches(Snapshot(), client, a);
      var column := a requires a in table => table[a].audience;
      audiences := Scan(selected, column);
      assert forall a :: a in selected ==> column(a) == apis[a].audience && column(a) in Elements(audiences);
    }

    method OptInKeys(client: string) returns (keys: seq<string>)
      ensures Elements(keys) ==
        set p | p in permissions && permissions[p].forCimd && CimdReaches(Snapshot(), client, permissions[p].apiID)
          :: permissions[p].key
    {
      var table := permissions;
      var selected := set p | p in permissions && permissions[p].forCimd && CimdReaches(Snapshot(), client, permissions[p].apiID);
      var column := p requires p in table => table[p].key;
      keys := Scan(selected, column);
      assert forall p :: p in selected ==> column(p) == permissions[p].key && column(p) in Elements(keys);
    }

    // One audience per access row of the client, one key per grant row; values may repeat
    method AudienceRows(client: string) returns (rows: seq<string>)
      requires Constraints(Snapshot())
      ensures Elements(rows) == set r | r in access && r.client == client && r.api in apis :: apis[r.api].audience
    {
      var table := apis;
      var selected := set r | r in access && r.client == client && r.api in apis;
      var column := (r: Access) requires r.api in table => table[r.api].audience;
      rows := Scan(selected, column);
      assert forall r :: r in selected ==> column(r) == apis[r.api].audience && column(r) in Elements(rows);
    }

    method ScopeRows(client: string) returns (rows: seq<string>)
      requires Constraints(Snapshot())
      ensures Elements(rows) ==
        set g | g in grants && g.client == client && g.permission in permissions :: permissions[g.permission].key
    {
      var table := permissions;
      var selected := set g | g in grants && g.client == client && g.permission in permissions;
      var column := (g: Grant) requires g.permission in table => table[g.permission].key;
      rows := Scan(selected, column);
      assert forall g :: g in selected ==> column(g) == permissions[g.permission].key && column(g) in Elements(rows);
    }

    /** The client's list of APIs: exactly the pairs with any row, each shown as it is in the tables. */
    method ListClientAPIs(client: string) returns (r: Result<map<string, View>, Error>)
      requires Valid(Snapshot())
      ensures r.Err? <==> client !in clients
      ensures r.Ok? ==> r.value.Keys == ListedApis(Snapshot(), client)
      ensures r.Ok? ==> forall a :: a in r.value ==> r.value[a] == ViewOf(Snapshot(), client, a)
    {
      if client !in clients {
        return Err(NotFound);
      }
      assert Constraints(Snapshot());
      hide Valid, Constraints, ViewOf, WithoutOptIn, CimdPermissions, AccessRowsOfClient, GrantRowsOfClient, Collected;
      var views := CollectRows(AccessRowsOfClient(Snapshot(), client), GrantRowsOfClient(Snapshot(), client));
      forall a ensures a in views <==> WithoutOptIn(ViewOf(Snapshot(), client, a)) != NOTHING
               ensures a in views ==> a in apis && views[a] == WithoutOptIn(ViewOf(Snapshot(), client, a))
               ensures OptInAdds(Snapshot(), client, a)
      {
        RowsOfClientAreTheView(Snapshot(), client, a);
      }
      // The same again for the opt-in
      var reached := set a | a in apis && CimdReaches(Snapshot(), client, a);
      views := map a | a in views.Keys + reached ::
        var v := if a in views then views[a] else NOTHING;
        if a in reached then v.(cimdAccess := true, cimdPermissions := CimdPermissions(Snapshot(), a)) else v;
      r := Ok(views);
    }

    /** The API's list of clients. Both lists show one pair in the same way. */
    method ListAPIClients(api: string) returns (r: Result<map<string, View>, Error>)
      requires Valid(Snapshot())
      ensures r.Err? <==> api !in apis
      ensures r.Ok? ==> r.value.Keys == ListedClients(Snapshot(), api)
      ensures r.Ok? ==> forall c :: c in r.value ==> r.value[c] == ViewOf(Snapshot(), c, api)
    {
      if api !in apis {
        return Err(NotFound);
      }
      assert Constraints(Snapshot());
      hide Valid, Constraints, ViewOf, WithoutOptIn, CimdPermissions, AccessRowsOfApi, GrantRowsOfApi, Collected;
      var explicit := CollectRows(AccessRowsOfApi(Snapshot(), api), GrantRowsOfApi(Snapshot(), api));
      forall c ensures c in explicit <==> WithoutOptIn(ViewOf(Snapshot(), c, api)) != NOTHING
               ensures c in explicit ==> c in clients && explicit[c] == WithoutOptIn(ViewOf(Snapshot(), c, api))
               ensures OptInAdds(Snapshot(), c, api)
      {
        RowsOfApiAreTheView(Snapshot(), api, c);
      }
      var optedIn := if apis[api].allowCimd then set c | c in clients && clients[c].isCimd else {};
      var cimdIDs := if apis[api].allowCimd then CimdPermissions(Snapshot(), api) else {};
      var views := AddOptIn(explicit, optedIn, cimdIDs);
      OptInCompletes(Snapshot(), api, explicit, optedIn, cimdIDs);
      r := Ok(views);
    }

    method ListAssignableAPIs(client: string) returns (r: Result<set<string>, Error>)
      ensures r.Err? <==> client !in clients
      ensures r.Ok? ==> r.value == AssignableApis(Snapshot(), client)
    {
      if client !in clients {
        return Err(NotFound);
      }
      var granted := set r | r in Snapshot().access && r.client == client :: r.api;
      var found := set a | a in apis && a !in granted;
      var reached := set a | a in apis && CimdReaches(Snapshot(), client, a);
      if reached != {} {
        found := found - reached;
      }
      assert found == set a | a in apis && a !in granted && a !in reached;
      forall a ensures a in granted <==> Access(client, a, User) in access || Access(client, a, Client) in access {
        ApisWithAccess(Snapshot(), client, a);
      }
      r := Ok(found);
    }

    method ListAssignableClients(api: string) returns (r: Result<set<string>, Error>)
      ensures r.Err? <==> api !in apis
      ensures r.Ok? ==> r.value == AssignableClients(Snapshot(), api)
    {
      if api !in apis {
        return Err(NotFound);
      }
      var granted := set r | r in Snapshot().access && r.api == api :: r.client;
      var found := set c | c in clients && c !in granted;
      if apis[api].allowCimd {
        found := set c | c in found && !clients[c].isCimd;
      }
      forall c ensures c in granted <==> Access(c, api, User) in access || Access(c, api, Client) in access {
        ClientsWithAccess(Snapshot(), api, c);
      }
      r := Ok(found);
    }
  }

  // One entry per name that has any row, filled row by row
  method CollectRows(accessRows: set<(string, Subject)>, permissionRows: set<(string, string, Subject)>)
    returns (views: map<string, View>)
    ensures forall x :: x in views <==>
      (exists s :: (x, s) in accessRows) || (exists p, s :: (x, p, s) in permissionRows)
    ensures forall x :: x in views ==> views[x] == Collected(accessRows, permissionRows, x)
  {
    views := map[];
    var todo := accessRows;
    while todo != {}
      invariant todo <= accessRows
      invariant forall x :: x in views <==> exists s :: (x, s) in accessRows - todo
      invariant forall x :: x in views ==> views[x] == Collected(accessRows - todo, {}, x)
    {
      var row :| row in todo;
      todo := todo - {row};
      var entry := if row.0 in views then views[row.0] else NOTHING;
      views := views[row.0 := match row.1
                              case Client => entry.(clientAccess := true)
                              case User => entry.(userAccess := true)];
    }
    var rest := permissionRows;
    while rest != {}
      invariant rest <= permissionRows
      invariant forall x :: x in views <==>
        (exists s :: (x, s) in accessRows) || (exists p, s :: (x, p, s) in permissionRows - rest)
      invariant forall x :: x in views ==> views[x] == Collected(accessRows, permissionRows - rest, x)
    {
      var row :| row in rest;
      rest := rest - {row};
      var entry := if row.0 in views then views[row.0] else NOTHING;
      views := views[row.0 := match row.2
                              case Client => entry.(clientPermissions := entry.clientPermissions + {row.1})
                              case User => entry.(userPermissions := entry.userPermissions + {row.1})];
    }
  }

  // Keys are distinct within one API, so its rows give no key twice
  lemma GrantedRowsExist(db: Db, client: string, api: string)
    requires Valid(db)
    ensures forall p, q | p in PermissionsOf(db, api) && q in PermissionsOf(db, api) ::
      db.permissions[p].key == db.permissions[q].key ==> p == q
    ensures forall a | a in db.apis && api in db.apis :: db.apis[a].audience == db.apis[api].audience ==> a == api
  {
  }

  lemma KeysOfUnion(db: Db, a: set<string>, b: set<string>)
    ensures KeysOfIDs(db, a + b) == KeysOfIDs(db, a) + KeysOfIDs(db, b)
  {
  }

  lemma GrantedIsApplied(db: Db, id: string, client: string, wanted: ClientGrant)
    requires Valid(db) && id in db.apis && client in db.clients
    ensures
      var v, row := ViewOf(SetAccess(db, id, client, wanted).value, client, id), db.clients[client];
      && (v.userAccess, v.userPermissions) == Applied(db, id, row, wanted, User)
      && (v.clientAccess, v.clientPermissions) == Applied(db, id, row, wanted, Client)
  {
    SetAccessReadsBack(db, id, client, wanted, client, id);
    AppliedPermissions(db, id, client, wanted);
    hide Valid, Named, ViewOf, Applied, SetAccess;
  }

  lemma SameApplied(db: Db, id: string, own: seq<string>, granted: seq<string>, requested: seq<string>)
    requires Elements(own) == PermissionsOf(db, id) && Elements(granted) == Elements(own) * Elements(requested)
    ensures Elements(granted) == set p | p in PermissionsOf(db, id) && p in requested
    ensures |granted| > 0 <==> Elements(granted) != {}
  {
    assert |granted| > 0 ==> granted[0] in Elements(granted);
    assert forall p :: p in Elements(requested) <==> p in requested;
  }

  // The first invalid key of the request decides the error
  method CheckRequest(inputs: seq<PermissionInput>) returns (rejected: Option<Error>)
    ensures rejected == CheckInputs(inputs, 0)
  {
    var seen: set<string> := {};
    for i := 0 to |inputs|
      invariant seen == Keys(inputs[..i])
      invariant CheckInputs(inputs, 0) == CheckInputs(inputs, i)
    {
      var key := inputs[i].key;
      if !IsScopeToken(key) {
        return Some(InvalidKey);
      }
      if IsReserved(key) {
        return Some(ReservedKey);
      }
      if key in seen {
        return Some(DuplicateKey);
      }
      KeysSnoc(inputs, i);
      seen := seen + {key};
    }
    rejected := None;
  }

  // The permission table while the keys in todo are still to be handled
  ghost function WalkedRows(start: Db, id: string, inputs: seq<PermissionInput>,
          todo: set<string>): map<string, Permission> {
    map p | p in start.permissions ::
      if start.permissions[p].key in todo then start.permissions[p] else RowFor(start, id, inputs, p)
  }

  ghost function NewRows(id: string, inputs: seq<PermissionInput>, newIDs: map<string, string>, todo: set<string>)
    : map<string, Permission>
  {
    map p | p in newIDs && newIDs[p] in Keys(inputs) && newIDs[p] !in todo ::
      Permission(id, newIDs[p], NameFor(inputs, newIDs[p]), false)
  }

  ghost function Walked(start: Db, id: string, inputs: seq<PermissionInput>, newIDs: map<string, string>,
          todo: set<string>)
    : map<string, Permission>
  {
    WalkedRows(start, id, inputs, todo) + NewRows(id, inputs, newIDs, todo)
  }

  lemma WalkBounds(start: Db, id: string, inputs: seq<PermissionInput>, newIDs: map<string, string>)
    ensures Walked(start, id, inputs, newIDs, Keys(inputs)) == start.permissions
    ensures Walked(start, id, inputs, newIDs, {}) == Renamed(start, id, inputs) + Inserted(id, inputs, newIDs)
  {
  }

  lemma RenameOne(start: Db, id: string, inputs: seq<PermissionInput>, newIDs: map<string, string>, todo: set<string>,
                  key: string, p: string)
    requires KeysUnique(start.permissions) && FreshIDs(start, id, inputs, newIDs)
    requires key in todo && key in Keys(inputs) && p in PermissionsOf(start, id) && start.permissions[p].key == key
    ensures
      var w := Walked(start, id, inputs, newIDs, todo);
      p in w && Walked(start, id, inputs, newIDs, todo - {key}) == w[p := w[p].(name := NameFor(inputs, key))]
  {
    assert key in KeysOf(start, id);
    forall q | q in newIDs ensures newIDs[q] != key {
      assert newIDs[q] in newIDs.Values;
    }
    assert NewRows(id, inputs, newIDs, todo - {key}) == NewRows(id, inputs, newIDs, todo);
    var w := WalkedRows(start, id, inputs, todo);
    assert WalkedRows(start, id, inputs, todo - {key}) == w[p := w[p].(name := NameFor(inputs, key))];
  }

  lemma RowsOfOtherKeys(start: Db, id: string, inputs: seq<PermissionInput>, todo: set<string>, key: string)
    requires key !in KeysOf(start, id)
    ensures WalkedRows(start, id, inputs, todo - {key}) == WalkedRows(start, id, inputs, todo)
  {
  }

  lemma NewRowOfKey(id: string, inputs: seq<PermissionInput>, newIDs: map<string, string>, todo: set<string>, p: string)
    requires p in newIDs && newIDs[p] in todo && newIDs[p] in Keys(inputs)
    requires forall q :: q in newIDs && newIDs[q] == newIDs[p] ==> q == p
    ensures NewRows(id, inputs, newIDs, todo - {newIDs[p]}) ==
      NewRows(id, inputs, newIDs, todo)[p := Permission(id, newIDs[p], NameFor(inputs, newIDs[p]), false)]
  {
  }

  lemma UpdateOfUnion<K, V>(a: map<K, V>, b: map<K, V>, k: K, v: V)
    ensures a + b[k := v] == (a + b)[k := v]
  {
  }

  lemma InsertOne(start: Db, id: string, inputs: seq<PermissionInput>, newIDs: map<string, string>, todo: set<string>,
                  key: string, p: string)
    requires FreshIDs(start, id, inputs, newIDs)
    requires key in todo && p in newIDs && newIDs[p] == key
    ensures
      key in Keys(inputs) &&
      Walked(start, id, inputs, newIDs, todo - {key}) ==
      Walked(start, id, inputs, newIDs, todo)[p := Permission(id, key, NameFor(inputs, key), false)]
  {
    assert key in newIDs.Values;
    assert forall q :: q in newIDs && newIDs[q] == newIDs[p] ==> q == p;
    hide FreshIDs, KeysOf, Keys, NameFor, WalkedRows, NewRows;
    RowsOfOtherKeys(start, id, inputs, todo, key);
    NewRowOfKey(id, inputs, newIDs, todo, p);
    UpdateOfUnion(WalkedRows(start, id, inputs, todo), NewRows(id, inputs, newIDs, todo), p,
                  Permission(id, key, NameFor(inputs, key), false));
  }

  lemma FreshAfterDeletion(db: Db, id: string, inputs: seq<PermissionInput>, newIDs: map<string, string>)
    requires Valid(db) && FreshIDs(db, id, inputs, newIDs)
    ensures
      var d := DeletePermissions(db, RemovedPermissions(db, id, inputs));
      && FreshIDs(d, id, inputs, newIDs) && KeysUnique(d.permissions)
      && (forall p :: p in PermissionsOf(db, id) && db.permissions[p].key in Keys(inputs) ==> p in PermissionsOf(d, id))
      && (forall k :: k in Keys(inputs) ==> (k in KeysOf(d, id) <==> k in KeysOf(db, id)))
  {
    var d := DeletePermissions(db, RemovedPermissions(db, id, inputs));
    KeptAfterDeletion(db, id, inputs);
    hide DeletePermissions, RemovedPermissions, Valid, KeysUnique, PermissionsOf, KeysOf, Keys;
    assert AddedKeys(d, id, inputs) == AddedKeys(db, id, inputs);
  }

  lemma KeptAfterDeletion(db: Db, id: string, inputs: seq<PermissionInput>)
    requires Valid(db)
    ensures
      var d := DeletePermissions(db, RemovedPermissions(db, id, inputs));
      && KeysUnique(d.permissions) && d.permissions.Keys <= db.permissions.Keys
      && (forall p :: p in PermissionsOf(db, id) && db.permissions[p].key in Keys(inputs) ==> p in PermissionsOf(d, id))
      && (forall k :: k in Keys(inputs) ==> (k in KeysOf(d, id) <==> k in KeysOf(db, id)))
  {
    var d := DeletePermissions(db, RemovedPermissions(db, id, inputs));
    hide LosesAccess, Keys;
    forall k | k in Keys(inputs) && k in KeysOf(db, id) ensures k in KeysOf(d, id) {
      var p :| p in PermissionsOf(db, id) && db.permissions[p].key == k;
      assert p in PermissionsOf(d, id);
    }
  }

  lemma KeysSnoc(inputs: seq<PermissionInput>, i: nat)
    requires i < |inputs|
    ensures Keys(inputs[..i + 1]) == Keys(inputs[..i]) + {inputs[i].key}
  {
  }

  // The access rows that the grants of these permissions stand for
  function HolderRows(db: Db, ids: set<string>): set<Access> {
    set g | g in db.grants && g.permission in ids && g.permission in db.permissions ::
      Access(g.client, db.permissions[g.permission].apiID, g.subject)
  }

  // The rows that lose their last permission, by looking before the deletion and again after it
  lemma DeletionOfHeld(db: Db, ids: set<string>)
    requires Valid(db)
    ensures
      var d := DeletePermissions(db, ids);
      && d.access == (set r | r in db.access && (r in HolderRows(db, ids) ==> r in HolderRows(d, d.permissions.Keys)))
      && (ids == {} ==> d == db)
  {
    var d := DeletePermissions(db, ids);
    forall r: Access
      ensures r in HolderRows(db, ids) <==> Holds(db, r, ids)
      ensures r in HolderRows(d, d.permissions.Keys) <==> Holds(db, r, PermissionsOf(db, r.api) - ids)
    {
      HolderIffHolds(db, r, ids);
      HolderIffHolds(d, r, d.permissions.Keys);
      HeldAfterDeletion(db, r, ids);
    }
    hide Valid, Holds, HolderRows;
  }

  lemma HolderIffHolds(db: Db, r: Access, ids: set<string>)
    ensures r in HolderRows(db, ids) <==> Holds(db, r, ids)
  {
  }

  lemma HeldAfterDeletion(db: Db, r: Access, ids: set<string>)
    ensures
      var d := DeletePermissions(db, ids);
      Holds(d, r, d.permissions.Keys) <==> Holds(db, r, PermissionsOf(db, r.api) - ids)
  {
    hide LosesAccess;
  }

  // The opt-in on top of the explicit rows of one API
  function AddOptIn(explicit: map<string, View>, optedIn: set<string>, ids: set<string>): map<string, View> {
    map c | c in explicit.Keys + optedIn ::
      var v := if c in explicit then explicit[c] else NOTHING;
      if c in optedIn then v.(cimdAccess := true, cimdPermissions := ids) else v
  }

  lemma OptInCompletes(db: Db, api: string, explicit: map<string, View>, optedIn: set<string>, ids: set<string>)
    requires forall c :: c in explicit <==> WithoutOptIn(ViewOf(db, c, api)) != NOTHING
    requires forall c :: c in explicit ==> c in db.clients && explicit[c] == WithoutOptIn(ViewOf(db, c, api))
    requires forall c :: OptInAdds(db, c, api)
    requires forall c :: c in optedIn <==> CimdReaches(db, c, api)
    requires optedIn != {} ==> ids == CimdPermissions(db, api)
    ensures
      var views := AddOptIn(explicit, optedIn, ids);
      views.Keys == ListedClients(db, api) && forall c :: c in views ==> views[c] == ViewOf(db, c, api)
  {
    var views := AddOptIn(explicit, optedIn, ids);
    hide ViewOf, WithoutOptIn, CimdPermissions;
    forall c ensures c in views <==> c in ListedClients(db, api) {
      assert OptInAdds(db, c, api);
    }
    forall c | c in views ensures views[c] == ViewOf(db, c, api) {
      assert OptInAdds(db, c, api);
    }
  }
}
