/**
 Resource indicators, section 2 of RFC 8707: which audience a token gets and which of the requested
 scopes it may carry. Whether a string is a valid resource URI is decided by a library.
 */
module Resource {
  import opened Common
  import opened Lists
  import opened ApiTables
  import opened ApiViews
  import opened Consent

  // How the API tables answer for one client, audience and subject
  datatype Lookup = Lookup(scopes: seq<string>, apiExists: bool, hasAccess: bool)

  datatype Denial = InvalidTarget | NoAccess | InvalidScope(scope: string)

  datatype Resolved = Resolved(audience: string, scopes: seq<string>)

  function AudienceOf(client: string, resource: string): string {
    if resource == "" then client else TrimRightSlashes(resource)
  }

  predicate Grantable(resource: string, lookup: Lookup, scope: string) {
    IsStandard(scope) || (resource != "" && scope in lookup.scopes)
  }

  // A client acting for itself that names no scope asks for everything it is granted
  function Wanted(resource: string, lookup: Lookup, requested: seq<string>, subject: Subject): seq<string> {
    if resource != "" && subject == Client && requested == [] then lookup.scopes else requested
  }

  // The first scope that may not be granted, if any
  function FirstUngrantable(resource: string, lookup: Lookup, scopes: seq<string>): (r: Option<string>)
    ensures r == None <==> forall s :: s in scopes ==> Grantable(resource, lookup, s)
  {
    if scopes == [] then None
    else if !Grantable(resource, lookup, scopes[0]) then Some(scopes[0])
    else FirstUngrantable(resource, lookup, scopes[1..])
  }

  function Resolve(validUri: bool, lookup: Lookup, client: string, resource: string, requested: seq<string>,
          subject: Subject)
    : Result<Resolved, Denial>
  {
    if resource != "" && (!validUri || !lookup.apiExists) then Err(InvalidTarget)
    else if resource != "" && !lookup.hasAccess then Err(NoAccess)
    else
      var wanted := Wanted(resource, lookup, requested, subject);
      match FirstUngrantable(resource, lookup, wanted)
      case Some(scope) => Err(InvalidScope(scope))
      case None => Ok(Resolved(AudienceOf(client, resource), Dedup(wanted)))
  }

  // The identity scopes, and those the API grants for a named resource
  method GrantableScopes(resource: string, lookup: Lookup) returns (grantable: set<string>)
    ensures forall s :: s in grantable <==> Grantable(resource, lookup, s)
  {
    grantable := {};
    for i := 0 to |STANDARD_SCOPES|
      invariant grantable == Elements(STANDARD_SCOPES[..i])
    {
      grantable := grantable + {STANDARD_SCOPES[i]};
      assert STANDARD_SCOPES[..i + 1] == STANDARD_SCOPES[..i] + [STANDARD_SCOPES[i]];
    }
    assert STANDARD_SCOPES[..|STANDARD_SCOPES|] == STANDARD_SCOPES;
    if resource == "" {
      return;
    }
    var base := grantable;
    for i := 0 to |lookup.scopes|
      invariant grantable == base + Elements(lookup.scopes[..i])
    {
      grantable := grantable + {lookup.scopes[i]};
      assert lookup.scopes[..i + 1] == lookup.scopes[..i] + [lookup.scopes[i]];
    }
    assert lookup.scopes[..|lookup.scopes|] == lookup.scopes;
  }

  lemma UngrantableFrom(resource: string, lookup: Lookup, wanted: seq<string>, i: nat)
    requires i < |wanted|
    ensures FirstUngrantable(resource, lookup, wanted[i..]) ==
      if Grantable(resource, lookup, wanted[i]) then FirstUngrantable(resource, lookup, wanted[i + 1..]) else Some(wanted[i])
  {
    assert wanted[i..][1..] == wanted[i + 1..];
  }

  // Each wanted scope once; the first one that may not be granted fails the request
  method GrantEach(resource: string, lookup: Lookup, grantable: set<string>, wanted: seq<string>)
    returns (r: Result<seq<string>, Denial>)
    requires forall s :: s in grantable <==> Grantable(resource, lookup, s)
    ensures r == match FirstUngrantable(resource, lookup, wanted)
      case Some(scope) => Err(InvalidScope(scope))
      case None => Ok(Dedup(wanted))
  {
    var granted: seq<string> := [];
    assert Dedup(wanted[..0]) == [] && wanted[0..] == wanted;
    assert FirstUngrantable(resource, lookup, []) == None;
    hide Dedup, Grantable, FirstUngrantable;
    for i := 0 to |wanted|
      invariant granted == Dedup(wanted[..i])
      invariant FirstUngrantable(resource, lookup, wanted) == FirstUngrantable(resource, lookup, wanted[i..])
    {
      UngrantableFrom(resource, lookup, wanted, i);
      if wanted[i] !in grantable {
        return Err(InvalidScope(wanted[i]));
      }
      DedupStep(wanted, i);
      if wanted[i] !in granted {
        granted := granted + [wanted[i]];
      }
    }
    assert wanted[..|wanted|] == wanted && wanted[|wanted|..] == [];
    r := Ok(granted);
  }

  // The lookup is made for the resource without its trailing slashes
  method ResolveResource(validUri: bool, lookup: Lookup, client: string, resource: string, requested: seq<string>,
                         subject: Subject)
    returns (r: Result<Resolved, Denial>)
    ensures r == Resolve(validUri, lookup, client, resource, requested, subject)
  {
    var audience, wanted := client, requested;
    if resource != "" {
      if !validUri {
        return Err(InvalidTarget);
      }
      audience := TrimRightSlashes(resource);
      if !lookup.apiExists {
        return Err(InvalidTarget);
      }
      if !lookup.hasAccess {
        return Err(NoAccess);
      }
      if subject == Client && |requested| == 0 {
        wanted := lookup.scopes;
      }
    }
    hide FirstUngrantable, Dedup, Grantable;
    var grantable := GrantableScopes(resource, lookup);
    var granted := GrantEach(resource, lookup, grantable, wanted);
    if granted.Err? {
      return Err(granted.error);
    }
    r := Ok(Resolved(audience, granted.value));
  }

  // ---------------------------------------------------------------- one request

  // The consent keys of a request made for a user
  function RequestKeys(client: string, resource: string, scopes: seq<string>): seq<string> {
    KeysForGrant(AudienceOf(client, resource), resource, Dedup(scopes))
  }

  /** A request that asks for less under the same resource needs no consent its original did not. */
  lemma FewerScopesFewerKeys(client: string, resource: string, fewer: seq<string>, scopes: seq<string>,
          authorized: seq<string>)
    requires forall s :: s in fewer ==> s in scopes
    requires Includes(authorized, RequestKeys(client, resource, scopes))
    ensures Includes(authorized, RequestKeys(client, resource, fewer))
  {
    var audience := AudienceOf(client, resource);
    var all := RequestKeys(client, resource, scopes);
    forall s | s in scopes ensures ScopeKey(audience, s) in all {
      var i :| 0 <= i < |Dedup(scopes)| && Dedup(scopes)[i] == s;
      assert all[i] == ScopeKey(audience, s);
    }
    if resource != "" {
      assert all[|Dedup(scopes)|] == AudienceKey(audience);
    }
    forall k | k in RequestKeys(client, resource, fewer) ensures k in all {
      var i :| 0 <= i < |RequestKeys(client, resource, fewer)| && RequestKeys(client, resource, fewer)[i] == k;
      if i < |Dedup(fewer)| {
        assert Dedup(fewer)[i] in fewer;
      }
    }
  }

  /** A narrowed request of a user resolves whenever its original does, to the same audience. */
  lemma NarrowedRequestResolves(validUri: bool, lookup: Lookup, client: string, resource: string, fewer: seq<string>,
          scopes: seq<string>)
    requires Subsequence(fewer, scopes)
    requires Resolve(validUri, lookup, client, resource, scopes, User).Ok?
    ensures Resolve(validUri, lookup, client, resource, fewer, User) == Ok(Resolved(AudienceOf(client, resource), Dedup(fewer)))
  {
    SubsequenceHasNoNewElements(fewer, scopes);
    assert forall s :: s in fewer ==> s in Elements(fewer);
  }

  /** Every spelling of a resource with more trailing slashes resolves alike. */
  lemma {:induction false} TrailingSlashesDoNotMatter(client: string, resource: string, slashes: string)
    requires resource != "" && forall c :: c in slashes ==> c == '/'
    ensures AudienceOf(client, resource + slashes) == AudienceOf(client, resource)
    decreases |slashes|
  {
    if slashes == "" {
      assert resource + slashes == resource;
    } else {
      var longer := resource + slashes;
      assert Last(slashes) in slashes && longer[|longer| - 1] == '/';
      forall c | c in Init(slashes) ensures c == '/' {
        assert c in slashes;
      }
      assert longer[..|longer| - 1] == resource + Init(slashes);
      TrailingSlashesDoNotMatter(client, resource, Init(slashes));
    }
  }

  // ---------------------------------------------------------------- against the tables

  // What the reader of the API tables promises about its answer
  ghost predicate Answers(db: Db, client: string, audience: string, subject: Subject, l: Lookup) {
    && (l.apiExists <==> exists a :: a in db.apis && db.apis[a].audience == audience)
    && (forall a :: a in db.apis && db.apis[a].audience == audience ==>
          && l.hasAccess == HasAccess(ViewOf(db, client, a), subject)
          && Elements(l.scopes) == KeysOfIDs(db, AllowedIDs(ViewOf(db, client, a), subject)))
  }

  /**
   A named resource resolves exactly when the admin's view of some API with that audience shows access for
   the subject, and every scope wanted is an identity scope or the key of a permission listed there.
   */
  lemma ResolutionMatchesTheAdminView(db: Db, client: string, resource: string, requested: seq<string>, subject: Subject,
                                      lookup: Lookup)
    requires Valid(db) && resource != "" && Answers(db, client, TrimRightSlashes(resource), subject, lookup)
    ensures Resolve(true, lookup, client, resource, requested, subject).Ok? <==>
      exists a :: && a in db.apis && db.apis[a].audience == TrimRightSlashes(resource)
                  && HasAccess(ViewOf(db, client, a), subject)
                  && forall s :: s in Wanted(resource, lookup, requested, subject) ==>
                       IsStandard(s) || s in KeysOfIDs(db, AllowedIDs(ViewOf(db, client, a), subject))
  {
    forall a | a in db.apis && db.apis[a].audience == TrimRightSlashes(resource)
      ensures forall s :: s in lookup.scopes <==> s in KeysOfIDs(db, AllowedIDs(ViewOf(db, client, a), subject))
    {
      assert forall s :: s in lookup.scopes <==> s in Elements(lookup.scopes);
    }
  }

  // The subject holds a permission with this key on the API, or the opt-in flags one
  ghost predicate MayCarry(db: Db, client: string, api: string, subject: Subject, key: string) {
    exists p :: && p in db.permissions && db.permissions[p].apiID == api && db.permissions[p].key == key
                && (ApiTables.Grant(client, p, subject) in db.grants
                    || (subject == User && OptedIn(db, client, api) && db.permissions[p].forCimd))
  }

  /**
   A named resource is refused as a target exactly when it is no valid URI or no API has its audience, and for
   lack of access exactly when the subject has no access row there and no opt-in. It resolves exactly when every
   requested scope is an identity scope or may be carried, and grants what was requested; a client acting for
   itself that requests nothing is granted everything it may carry.
   */
  lemma ResourceResolvesExactlyWhen(db: Db, client: string, resource: string, requested: seq<string>, subject: Subject,
                                    validUri: bool, lookup: Lookup, a: string)
    requires Valid(db) && resource != "" && Answers(db, client, TrimRightSlashes(resource), subject, lookup)
    ensures Resolve(validUri, lookup, client, resource, requested, subject) == Err(InvalidTarget) <==>
      !validUri || forall x :: x in db.apis ==> db.apis[x].audience != TrimRightSlashes(resource)
    ensures validUri && a in db.apis && db.apis[a].audience == TrimRightSlashes(resource) ==>
      var r := Resolve(validUri, lookup, client, resource, requested, subject);
      var reached := Access(client, a, subject) in db.access || (subject == User && OptedIn(db, client, a));
      && (r == Err(NoAccess) <==> !reached)
      && (r.Ok? <==> reached && forall s :: s in requested ==> IsStandard(s) || MayCarry(db, client, a, subject, s))
      && (r.Ok? ==>
            && r.value.audience == TrimRightSlashes(resource) && NoDuplicates(r.value.scopes)
            && forall s :: s in r.value.scopes <==>
                 if subject == Client && requested == [] then MayCarry(db, client, a, subject, s) else s in requested)
  {
    if validUri && a in db.apis && db.apis[a].audience == TrimRightSlashes(resource) {
      DecisionExactlyWhen(db, client, a, subject);
      forall s ensures s in lookup.scopes <==> MayCarry(db, client, a, subject, s) {
        assert s in lookup.scopes <==> s in Elements(lookup.scopes);
      }
      hide Valid, OptedIn, HasAccess, AllowedIDs, KeysOfIDs, ViewOf, MayCarry;
    }
  }

  /** Without a resource exactly the identity scopes can be granted, for the client itself as the audience. */
  lemma IdentityResolvesExactlyWhen(validUri: bool, lookup: Lookup, client: string, requested: seq<string>, subject: Subject)
    ensures
      var r := Resolve(validUri, lookup, client, "", requested, subject);
      && (r.Ok? <==> forall s :: s in requested ==> s in ["openid", "profile", "email", "groups", "offline_access"])
      && (r.Ok? ==> r.value == Resolved(client, Dedup(requested)))
  {
  }

  /**
   The check made before a resource is resolved accepts everything resolving it grants: the audience and
   every custom scope are among the widened ones.
   */
  lemma WideningCoversResolution(db: Db, client: string, resource: string, requested: seq<string>, subject: Subject,
                                 validUri: bool, lookup: Lookup)
    requires Valid(db) && client in db.clients && resource != ""
    requires Answers(db, client, TrimRightSlashes(resource), subject, lookup)
    requires Resolve(validUri, lookup, client, resource, requested, subject).Ok?
    ensures
      var r := Resolve(validUri, lookup, client, resource, requested, subject).value;
      var isCimd := db.clients[client].isCimd;
      && r.audience in WidenedAudiences(db, client, isCimd)
      && (forall s :: s in r.scopes && !IsStandard(s) ==> s in WidenedScopes(db, client, isCimd))
  {
    var r := Resolve(validUri, lookup, client, resource, requested, subject).value;
    var a :| a in db.apis && db.apis[a].audience == r.audience;
    WideningIsExact(db, client);
    assert HasAccess(ViewOf(db, client, a), subject);
    forall s | s in r.scopes && !IsStandard(s) ensures s in WidenedScopes(db, client, db.clients[client].isCimd) {
      assert Grantable(resource, lookup, s);
      assert s in Elements(lookup.scopes);
      assert s in KeysOfIDs(db, AllowedIDs(ViewOf(db, client, a), subject));
    }
  }

  /**
   What resolving grants can be recorded without loss: the hypotheses of the encoding hold of every resolved grant.
   */
  lemma ResolvedGrantsAreWellFormed(db: Db, client: string, user: string, resource: string, requested: seq<string>,
                                    validUri: bool, lookup: Lookup)
    requires Valid(db) && Answers(db, client, TrimRightSlashes(resource), User, lookup)
    requires validUri ==> Plain(resource)
    requires Resolve(validUri, lookup, client, resource, requested, User).Ok?
    ensures
      var r := Resolve(validUri, lookup, client, resource, requested, User).value;
      WellFormedGrant(Consented(client, user, r.audience, resource, r.scopes))
  {
    var r := Resolve(validUri, lookup, client, resource, requested, User).value;
    if resource != "" {
      var a :| a in db.apis && db.apis[a].audience == r.audience;
      forall s | s in r.scopes && !IsStandard(s) ensures s != "" && Plain(s) {
        assert Grantable(resource, lookup, s);
        assert s in Elements(lookup.scopes);
        var p :| p in db.permissions && db.permissions[p].key == s;
        PermissionKeysAreEncodable(db, p);
      }
    }
  }
}
