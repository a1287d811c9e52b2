/** What the remaining operations on the API tables change, and what a reader sees of it. */
module ApiChanges {
  import opened Common
  import opened ApiTables
  import opened ApiViews

  /**
   After the opt-in of an API is set, a client ID metadata document reaches it for users exactly when the opt-in is
   on, with exactly the selected permissions of this API; explicit grants and other APIs are unchanged.
   */
  lemma SetCimdReadsBack(db: Db, id: string, enabled: bool, selected: seq<string>, c: string, a: string)
    ensures SetCimd(db, id, enabled, selected).Ok? <==> id in db.apis
    ensures id in db.apis ==>
      var d := SetCimd(db, id, enabled, selected).value;
      var v, before := ViewOf(d, c, a), ViewOf(db, c, a);
      && v.userAccess == before.userAccess && v.userPermissions == before.userPermissions
      && v.clientAccess == before.clientAccess && v.clientPermissions == before.clientPermissions
      && (if a == id then
            && (v.cimdAccess <==> enabled && c in db.clients && db.clients[c].isCimd)
            && v.cimdPermissions == if v.cimdAccess then Named(db, id, selected) else {}
          else v == before)
  {
    if id in db.apis {
      var d := SetCimd(db, id, enabled, selected).value;
      assert forall x, s :: GrantedOn(d, c, x, s) == GrantedOn(db, c, x, s) by {
        forall x ensures PermissionsOf(d, x) == PermissionsOf(db, x) {
        }
      }
      assert a != id ==> CimdPermissions(d, a) == CimdPermissions(db, a);
    }
  }

  /** Every flag is set exactly on the selected permissions of this API; nothing else in a row changes. */
  lemma SetCimdFlags(db: Db, id: string, enabled: bool, selected: seq<string>)
    requires id in db.apis
    ensures
      var d := SetCimd(db, id, enabled, selected).value;
      && d.permissions.Keys == db.permissions.Keys && d.apis.Keys == db.apis.Keys
      && (forall p :: p in db.permissions ==>
            var row, row' := db.permissions[p], d.permissions[p];
            && row'.apiID == row.apiID && row'.key == row.key && row'.name == row.name
            && (row'.forCimd <==> if row.apiID == id then p in selected else row.forCimd))
      && (forall x :: x in db.apis ==>
            && d.apis[x].name == db.apis[x].name && d.apis[x].audience == db.apis[x].audience
            && (d.apis[x].allowCimd <==> if x == id then enabled else db.apis[x].allowCimd))
      && d.clients == db.clients && d.access == db.access && d.grants == db.grants
  {
  }

  /**
   An API is created exactly when its audience, without trailing slashes, is neither the issuer's nor taken; then
   it is the only new row, nobody reaches it, and every other pair reads as before.
   */
  lemma CreateApiExactlyWhen(db: Db, issuer: string, id: string, name: string, resource: string, c: string, a: string)
    requires Valid(db) && id !in db.apis
    ensures
      var audience := TrimRightSlashes(resource);
      var r := CreateApi(db, issuer, id, name, resource);
      && (r.Ok? <==> !(issuer != "" && Lower(audience) == issuer) && forall x :: x in db.apis ==> db.apis[x].audience != audience)
      && (r == Err(ReservedAudience) <==> issuer != "" && Lower(audience) == issuer)
      && (r.Ok? ==>
            && r.value.apis == db.apis[id := Api(name, audience, false)]
            && r.value.permissions == db.permissions
            && ViewOf(r.value, c, a) == if a == id then NOTHING else ViewOf(db, c, a))
  {
    var r := CreateApi(db, issuer, id, name, resource);
    if r.Ok? {
      assert PermissionsOf(r.value, a) == PermissionsOf(db, a);
      assert PermissionsOf(db, id) == {};
    }
  }

  lemma DeletedRows(db: Db, id: string)
    requires Valid(db) && id in db.apis
    ensures
      var d := DeleteApi(db, id).value;
      && d.apis == db.apis - {id} && d.clients == db.clients
      && (forall p :: p in d.permissions <==> p in db.permissions && db.permissions[p].apiID != id)
      && (forall p :: p in d.permissions ==> d.permissions[p] == db.permissions[p])
      && (forall r :: r in d.access <==> r in db.access && r.api != id)
      && (forall g :: g in d.grants <==> g in db.grants && db.permissions[g.permission].apiID != id)
  {
    forall r | r in db.access && r.api != id ensures !LosesAccess(db, r, PermissionsOf(db, id)) {
      assert !Holds(db, r, PermissionsOf(db, id));
    }
    hide LosesAccess;
  }

  /** Deleting an API removes it, its permissions and every row about them, and no other pair changes. */
  lemma DeleteApiIsExact(db: Db, id: string, c: string, a: string)
    requires Valid(db)
    ensures DeleteApi(db, id).Ok? <==> id in db.apis
    ensures id in db.apis ==>
      var d := DeleteApi(db, id).value;
      && d.apis == db.apis - {id} && d.clients == db.clients
      && (forall p :: p in d.permissions <==> p in db.permissions && db.permissions[p].apiID != id)
      && (forall p :: p in d.permissions ==> d.permissions[p] == db.permissions[p])
      && (forall r :: r in d.access <==> r in db.access && r.api != id)
      && (forall g :: g in d.grants <==> g in db.grants && db.permissions[g.permission].apiID != id)
      && ViewOf(d, c, a) == if a == id then NOTHING else ViewOf(db, c, a)
  {
    if id in db.apis {
      var d := DeleteApi(db, id).value;
      DeletedRows(db, id);
      hide LosesAccess, DeletePermissions;
      assert a != id ==> PermissionsOf(d, a) == PermissionsOf(db, a);
      assert PermissionsOf(d, id) == {};
    }
  }

  /** Removing a client's access removes both subjects' rows of this pair and touches no other pair. */
  lemma RemoveAccessIsExact(db: Db, id: string, client: string, c: string, a: string)
    ensures RemoveAccess(db, id, client).Ok? <==> id in db.apis && client in db.clients
    ensures RemoveAccess(db, id, client).Ok? ==>
      var d := RemoveAccess(db, id, client).value;
      var v, before := ViewOf(d, c, a), ViewOf(db, c, a);
      && d.apis == db.apis && d.permissions == db.permissions && d.clients == db.clients
      && (if c == client && a == id then v == NOTHING.(cimdAccess := before.cimdAccess, cimdPermissions := before.cimdPermissions)
          else v == before)
  {
    if RemoveAccess(db, id, client).Ok? {
      var d := RemoveAccess(db, id, client).value;
      assert PermissionsOf(d, a) == PermissionsOf(db, a);
      forall x ensures GrantedOn(d, c, a, x) == if c == client && a == id then {} else GrantedOn(db, c, a, x) {
      }
      assert CimdPermissions(d, a) == CimdPermissions(db, a);
    }
  }

  // ---------------------------------------------------------------- which requests are rejected

  // A key of its own, that is a scope token and not reserved
  predicate Acceptable(inputs: seq<PermissionInput>, i: nat)
    requires i < |inputs|
  {
    && IsScopeToken(inputs[i].key) && !IsReserved(inputs[i].key)
    && forall j :: 0 <= j < i ==> inputs[j].key != inputs[i].key
  }

  // The first unacceptable input decides: no scope token, else reserved, else a duplicate
  ghost predicate DecidedBy(inputs: seq<PermissionInput>, start: nat, i: nat, e: Error)
    requires start <= i < |inputs|
  {
    var key := inputs[i].key;
    && (forall j :: start <= j < i ==> Acceptable(inputs, j)) && !Acceptable(inputs, i)
    && e == if !IsScopeToken(key) then InvalidKey else if IsReserved(key) then ReservedKey else DuplicateKey
  }

  lemma {:induction false} CheckedFrom(inputs: seq<PermissionInput>, start: nat)
    requires start <= |inputs|
    ensures
      var r := CheckInputs(inputs, start);
      if r.None? then forall i :: start <= i < |inputs| ==> Acceptable(inputs, i)
      else exists i :: start <= i < |inputs| && DecidedBy(inputs, start, i, r.value)
    decreases |inputs| - start
  {
    if start < |inputs| {
      CheckedFrom(inputs, start + 1);
      assert (forall j :: 0 <= j < start ==> inputs[j].key != inputs[start].key) <==> inputs[start].key !in Keys(inputs[..start]) by {
        forall j | 0 <= j < start ensures inputs[j].key in Keys(inputs[..start]) {
          assert inputs[..start][j].key in Keys(inputs[..start]);
        }
      }
      hide Keys, IsScopeToken, IsReserved;
      if !Acceptable(inputs, start) {
        assert DecidedBy(inputs, start, start, CheckInputs(inputs, start).value);
      } else if CheckInputs(inputs, start).Some? {
        var i :| start + 1 <= i < |inputs| && DecidedBy(inputs, start + 1, i, CheckInputs(inputs, start).value);
        assert DecidedBy(inputs, start, i, CheckInputs(inputs, start).value);
      }
    }
  }

  /**
   A list of permissions is accepted if and only if every key is an unreserved scope token and no key is repeated;
   otherwise the first input that is not decides the error.
   */
  lemma CheckInputsExactlyWhen(inputs: seq<PermissionInput>)
    ensures CheckInputs(inputs, 0) == None <==>
      && (forall i :: 0 <= i < |inputs| ==> IsScopeToken(inputs[i].key) && !IsReserved(inputs[i].key))
      && (forall i, j :: 0 <= i < j < |inputs| ==> inputs[i].key != inputs[j].key)
    ensures CheckInputs(inputs, 0).Some? ==>
      exists i :: 0 <= i < |inputs| && DecidedBy(inputs, 0, i, CheckInputs(inputs, 0).value)
  {
    CheckedFrom(inputs, 0);
    hide IsScopeToken, IsReserved, CheckInputs;
    if CheckInputs(inputs, 0) == None {
      forall i, j | 0 <= i < j < |inputs| ensures inputs[i].key != inputs[j].key {
        assert Acceptable(inputs, j);
      }
      forall i | 0 <= i < |inputs| ensures IsScopeToken(inputs[i].key) && !IsReserved(inputs[i].key) {
        assert Acceptable(inputs, i);
      }
    } else {
      var i :| 0 <= i < |inputs| && DecidedBy(inputs, 0, i, CheckInputs(inputs, 0).value);
      if j :| 0 <= j < i && inputs[j].key == inputs[i].key {
      }
    }
  }
}
