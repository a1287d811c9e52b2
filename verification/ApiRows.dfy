/** What the queries of the API service select, and how the selected rows add up to the views. */
module ApiRows {
  import opened ApiTables
  import opened ApiViews

  // Rows keyed by API for one client, and by client for one API

  function AccessRowsOfClient(db: Db, client: string): set<(string, Subject)> {
    set r | r in db.access && r.client == client :: (r.api, r.subject)
  }

  function GrantRowsOfClient(db: Db, client: string): set<(string, string, Subject)> {
    set g | g in db.grants && g.client == client && g.permission in db.permissions ::
      (db.permissions[g.permission].apiID, g.permission, g.subject)
  }

  function AccessRowsOfApi(db: Db, api: string): set<(string, Subject)> {
    set r | r in db.access && r.api == api :: (r.client, r.subject)
  }

  function GrantRowsOfApi(db: Db, api: string): set<(string, string, Subject)> {
    set g | g in db.grants && g.permission in PermissionsOf(db, api) :: (g.client, g.permission, g.subject)
  }

  // The entry that collecting such rows builds for one name
  function Collected(accessRows: set<(string, Subject)>, grantRows: set<(string, string, Subject)>, x: string): View {
    View((x, User) in accessRows, (x, Client) in accessRows, false,
         set r | r in grantRows && r.0 == x && r.2 == User :: r.1,
         set r | r in grantRows && r.0 == x && r.2 == Client :: r.1,
         {})
  }

  function WithoutOptIn(v: View): View {
    v.(cimdAccess := false, cimdPermissions := {})
  }

  // A view is its explicit part, with the opt-in on top where it reaches
  ghost predicate OptInAdds(db: Db, client: string, api: string) {
    var v, explicit := ViewOf(db, client, api), WithoutOptIn(ViewOf(db, client, api));
    && v == (if !CimdReaches(db, client, api) then explicit
             else explicit.(cimdAccess := true, cimdPermissions := CimdPermissions(db, api)))
    && (v.(cimdPermissions := {}) != NOTHING <==> explicit != NOTHING || CimdReaches(db, client, api))
  }

  lemma CollectedOfClient(db: Db, client: string, a: string)
    ensures Collected(AccessRowsOfClient(db, client), GrantRowsOfClient(db, client), a) == WithoutOptIn(ViewOf(db, client, a))
  {
    var accessRows, grantRows := AccessRowsOfClient(db, client), GrantRowsOfClient(db, client);
    forall s ensures (a, s) in accessRows <==> Access(client, a, s) in db.access {
      if Access(client, a, s) in db.access {
        assert (Access(client, a, s).api, Access(client, a, s).subject) in accessRows;
      }
    }
    forall p, s ensures (a, p, s) in grantRows <==> p in GrantedOn(db, client, a, s) {
      if p in GrantedOn(db, client, a, s) {
        var g := Grant(client, p, s);
        assert (db.permissions[g.permission].apiID, g.permission, g.subject) in grantRows;
      }
    }
    var v := Collected(accessRows, grantRows, a);
    assert v.userPermissions == GrantedOn(db, client, a, User) by {
      forall p | p in GrantedOn(db, client, a, User) ensures p in v.userPermissions {
        assert (a, p, User) in grantRows;
      }
    }
    assert v.clientPermissions == GrantedOn(db, client, a, Client) by {
      forall p | p in GrantedOn(db, client, a, Client) ensures p in v.clientPermissions {
        assert (a, p, Client) in grantRows;
      }
    }
  }

  lemma CollectedOfApi(db: Db, api: string, c: string)
    ensures Collected(AccessRowsOfApi(db, api), GrantRowsOfApi(db, api), c) == WithoutOptIn(ViewOf(db, c, api))
  {
    var accessRows, grantRows := AccessRowsOfApi(db, api), GrantRowsOfApi(db, api);
    forall s ensures (c, s) in accessRows <==> Access(c, api, s) in db.access {
      if Access(c, api, s) in db.access {
        assert (Access(c, api, s).client, Access(c, api, s).subject) in accessRows;
      }
    }
    forall p, s ensures (c, p, s) in grantRows <==> p in GrantedOn(db, c, api, s) {
      if p in GrantedOn(db, c, api, s) {
        var g := Grant(c, p, s);
        assert (g.client, g.permission, g.subject) in grantRows;
      }
    }
    var v := Collected(accessRows, grantRows, c);
    assert v.userPermissions == GrantedOn(db, c, api, User) by {
      forall p | p in GrantedOn(db, c, api, User) ensures p in v.userPermissions {
        assert (c, p, User) in grantRows;
      }
    }
    assert v.clientPermissions == GrantedOn(db, c, api, Client) by {
      forall p | p in GrantedOn(db, c, api, Client) ensures p in v.clientPermissions {
        assert (c, p, Client) in grantRows;
      }
    }
  }

  // A name has an entry exactly when some row mentions it
  lemma MentionedIffCollected(accessRows: set<(string, Subject)>, grantRows: set<(string, string, Subject)>, x: string)
    ensures (exists s :: (x, s) in accessRows) || (exists p, s :: (x, p, s) in grantRows)
            <==> Collected(accessRows, grantRows, x) != NOTHING
  {
    var v := Collected(accessRows, grantRows, x);
    if s :| (x, s) in accessRows {
      assert s == User || s == Client;
    }
    if p, s :| (x, p, s) in grantRows {
      if s == User {
        assert (x, p, User).1 in v.userPermissions;
      } else {
        assert (x, p, Client).1 in v.clientPermissions;
      }
    }
    if v.userPermissions != {} {
      var p :| p in v.userPermissions;
      assert (x, p, User) in grantRows;
    }
    if v.clientPermissions != {} {
      var p :| p in v.clientPermissions;
      assert (x, p, Client) in grantRows;
    }
  }

  // The sub-selects of the assignable sides

  lemma ApisWithAccess(db: Db, client: string, a: string)
    ensures a in (set r | r in db.access && r.client == client :: r.api) <==>
            Access(client, a, User) in db.access || Access(client, a, Client) in db.access
  {
    var found := set r | r in db.access && r.client == client :: r.api;
    forall s | Access(client, a, s) in db.access ensures a in found {
      assert Access(client, a, s).api in found;
    }
    if r :| r in db.access && r.client == client && r.api == a {
      assert r == Access(client, a, r.subject) && r.api in found;
      match r.subject {
        case User =>
        case Client =>
      }
    }
  }

  lemma ClientsWithAccess(db: Db, api: string, c: string)
    ensures c in (set r | r in db.access && r.api == api :: r.client) <==>
            Access(c, api, User) in db.access || Access(c, api, Client) in db.access
  {
    var found := set r | r in db.access && r.api == api :: r.client;
    forall s | Access(c, api, s) in db.access ensures c in found {
      assert Access(c, api, s).client in found;
    }
    if r :| r in db.access && r.api == api && r.client == c {
      assert r == Access(c, api, r.subject) && r.client in found;
      match r.subject {
        case User =>
        case Client =>
      }
    }
  }

  // Two ways to say how many access rows match
  lemma CountAccess(db: Db, client: string, api: string, subject: Subject)
    ensures |set r | r in db.access && r.client == client && r.api == api && r.subject == subject| > 0
            <==> Access(client, api, subject) in db.access
  {
    var rows := set r | r in db.access && r.client == client && r.api == api && r.subject == subject;
    if Access(client, api, subject) in db.access {
      assert Access(client, api, subject) in rows;
    } else {
      assert rows == {};
    }
  }

  // The rows of one client, collected per API, are the views without the opt-in
  lemma RowsOfClientAreTheView(db: Db, client: string, a: string)
    requires Constraints(db)
    ensures
      var accessRows, grantRows := AccessRowsOfClient(db, client), GrantRowsOfClient(db, client);
      var explicit := WithoutOptIn(ViewOf(db, client, a));
      && Collected(accessRows, grantRows, a) == explicit
      && ((exists s :: (a, s) in accessRows) || (exists p, s :: (a, p, s) in grantRows) <==> explicit != NOTHING)
      && (explicit != NOTHING ==> a in db.apis)
      && OptInAdds(db, client, a)
  {
    CollectedOfClient(db, client, a);
    MentionedIffCollected(AccessRowsOfClient(db, client), GrantRowsOfClient(db, client), a);
    hide Collected, AccessRowsOfClient, GrantRowsOfClient;
  }

  lemma RowsOfApiAreTheView(db: Db, api: string, c: string)
    requires Constraints(db)
    ensures
      var accessRows, grantRows := AccessRowsOfApi(db, api), GrantRowsOfApi(db, api);
      var explicit := WithoutOptIn(ViewOf(db, c, api));
      && Collected(accessRows, grantRows, c) == explicit
      && ((exists s :: (c, s) in accessRows) || (exists p, s :: (c, p, s) in grantRows) <==> explicit != NOTHING)
      && (explicit != NOTHING ==> c in db.clients)
      && OptInAdds(db, c, api)
  {
    CollectedOfApi(db, api, c);
    MentionedIffCollected(AccessRowsOfApi(db, api), GrantRowsOfApi(db, api), c);
    hide Collected, AccessRowsOfApi, GrantRowsOfApi;
  }
}
