/** What every operation of the protocol answers, in terms of what the caller and the tables bring along. */
module InteractionOutcomes {
  import opened Common
  import opened Lists
  import opened Text
  import opened Consent
  import opened Resource
  import opened Interaction
  import opened InteractionRuns
  import opened InteractionFrames
  import opened InteractionSteps
  import opened InteractionTokens
  import opened InteractionSafety

  // ---------------------------------------------------------------- what a user owes

  predicate OwesConsent(clients: Clients, consents: Rows, q: Asked, userID: string) {
    || PromptHas(q.params, "consent")
    || (!ClientOf(clients, q.clientID).skipConsent && !HasAuthorized(consents, q.clientID, userID, q.Keys()))
  }

  predicate OwesLogin(clients: Clients, q: Asked, authenticatedAt: Option<Time>, now: Time) {
    || PromptHas(q.params, "login") || ClientOf(clients, q.clientID).requiresReauthentication
    || DueByMaxAge(Param(q.params, "max_age"), authenticatedAt, now) == Ok(true)
  }

  // The resource can be granted for the scopes, and max_age is a number that is not negative
  predicate IsGrantable(env: Env, q: Asked) {
    ResolveGrant(env, q.clientID, q.Resource(), q.scopes).Ok?
  }

  lemma RequiredExactlyWhen(clients: Clients, env: Env, consents: Rows, q: Asked, userID: string,
                            authenticatedAt: Option<Time>, now: Time)
    ensures
      var r := RequirementsFor(clients, env, consents, q, userID, authenticatedAt, now);
      && (r.Ok? <==> IsGrantable(env, q) && MaxAgeParses(q.params))
      && (r.Ok? ==> r.value == Requirements(OwesConsent(clients, consents, q, userID), OwesLogin(clients, q, authenticatedAt, now),
                                            false, PromptHas(q.params, "select_account")))
  {
    MaxAgeParsesForAll(q.params, authenticatedAt, now);
    hide ResolveGrant, HasAuthorized, Fields, ParseInt, RequestKeys, MaxAgeParses;
  }

  // ---------------------------------------------------------------- changes to a session

  /** A switch makes the new user owe exactly what the request demands of them; only the account selection stays as it was. */
  lemma SwitchOwesExactly(clients: Clients, env: Env, consents: Rows, s: Session, userID: string,
                          authenticatedAt: Option<Time>, now: Time)
    ensures
      var r, q := SwitchUser(clients, env, consents, s, userID, authenticatedAt, now), AskedBy(s);
      && (r.Ok? <==> userID != "" && IsGrantable(env, q) && MaxAgeParses(q.params))
      && (r.Ok? ==>
            r.value == Session(s.clientID, Some(userID), s.scopes, s.params,
                               Requirements(OwesConsent(clients, consents, q, userID), OwesLogin(clients, q, authenticatedAt, now),
                                            false, s.needs.selection),
                               s.createdAt, None))
  {
    RequiredExactlyWhen(clients, env, consents, AskedBy(s), userID, authenticatedAt, now);
    hide RequirementsFor, OwesConsent, OwesLogin, IsGrantable, MaxAgeParses;
  }

  /** Authenticating binds the user, adds exactly what the request demands of them, and forgets nothing that was owed. */
  lemma AuthenticatingAddsExactly(clients: Clients, env: Env, consents: Rows, s: Session, userID: string,
                                  authenticatedAt: Option<Time>, now: Time)
    ensures
      var r, q := AuthenticateUser(clients, env, consents, s, userID, authenticatedAt, now), AskedBy(s);
      && (r.Ok? <==> userID != "" && !IsOther(s, userID) && IsGrantable(env, q) && MaxAgeParses(q.params))
      && (r.Ok? ==>
            r.value == s.(userID := Some(userID),
                          needs := Requirements(s.needs.consent || OwesConsent(clients, consents, q, userID),
                                                s.needs.reauthentication || OwesLogin(clients, q, authenticatedAt, now),
                                                false,
                                                s.needs.selection || PromptHas(s.params, "select_account"))))
  {
    RequiredExactlyWhen(clients, env, consents, AskedBy(s), userID, authenticatedAt, now);
    assert AskedBy(s.(userID := Some(userID))) == AskedBy(s);
    hide RequirementsFor, OwesConsent, OwesLogin, IsGrantable, MaxAgeParses, PromptHas;
  }

  // The session with the scopes the user left in
  function Left(s: Session, approved: Option<seq<string>>): Asked {
    var scopes := if approved.None? then s.scopes else KeepApproved(s.scopes, approved.value);
    Asked(s.clientID, s.params, scopes)
  }

  lemma RecordExactly(rows: Rows, client: string, user: string, keys: seq<string>)
    ensures
      var rows' := Record(rows, client, user, keys);
      && rows'.Keys == rows.Keys + {(client, user)}
      && (forall pair :: pair in rows && pair != (client, user) ==> rows'[pair] == rows[pair])
      && (forall k :: k in rows'[(client, user)] <==> k in keys || ((client, user) in rows && k in rows[(client, user)]))
  {
  }

  /**
   A consent step succeeds exactly when every approved scope was requested and what is left can be granted. It records
   the keys of exactly what is left, for this user and client, and nothing for anybody else.
   */
  lemma ConsentStepRecordsExactly(env: Env, t: Tables, s: Session, x: StepInput)
    requires x.userID != "" && !IsOther(s, x.userID)
    ensures
      var r, left := ApplyConsent(env, t, s, x), Left(s, x.approved);
      && (r.Ok? <==>
            && (x.approved.Some? ==> forall scope :: scope in x.approved.value ==> scope in s.scopes)
            && IsGrantable(env, left))
      && (r.Ok? ==>
            var pair, after := (s.clientID, x.userID), r.value.consents;
            && after.Keys == t.consents.Keys + {pair}
            && (forall p :: p in t.consents && p != pair ==> after[p] == t.consents[p])
            && (forall k :: k in after[pair] <==> k in left.Keys() || (pair in t.consents && k in t.consents[pair]))
            && r.value.tokens == t.tokens
            && r.value.session.scopes == left.scopes && r.value.session.needs == s.needs.(consent := false)
            && r.value.session.userID == Some(x.userID))
  {
    var r, left := ApplyConsent(env, t, s, x), Left(s, x.approved);
    NarrowedExactly(s.(userID := Some(x.userID)), x.approved);
    assert Left(s.(userID := Some(x.userID)), x.approved) == left;
    GrantedExactly(env, left);
    hide NarrowSession, ResolveGrant, KeysForGrant, Left;
    if r.Ok? {
      RecordExactly(t.consents, s.clientID, x.userID, left.Keys());
    }
    hide Record;
  }

  lemma NarrowedExactly(s: Session, approved: Option<seq<string>>)
    ensures
      var r, left := NarrowSession(s, approved), Left(s, approved);
      && (r.Ok? <==> (approved.Some? ==> forall scope :: scope in approved.value ==> scope in s.scopes))
      && (r.Ok? ==>
            && r.value == s.(scopes := left.scopes, params := r.value.params)
            && AskedBy(r.value).Resource() == left.Resource() && left.clientID == s.clientID)
  {
    hide KeepApproved, JoinScopes;
  }

  lemma GrantedExactly(env: Env, q: Asked)
    ensures
      var r := ResolveGrant(env, q.clientID, q.Resource(), q.scopes);
      r.Ok? ==> KeysForGrant(r.value.audience, q.Resource(), r.value.scopes) == q.Keys()
  {
    hide KeysForGrant;
  }

  // ---------------------------------------------------------------- completing a step

  // What is still owed when the step is completed: a user other than the bound one owes everything anew
  function NeedsOf(clients: Clients, consents: Rows, s: Session, x: StepInput, now: Time): Requirements {
    if IsOther(s, x.userID) then
      Requirements(OwesConsent(clients, consents, AskedBy(s), x.userID),
                   OwesLogin(clients, AskedBy(s), x.authenticatedAt, now), false, s.needs.selection)
    else s.needs
  }

  // The step is the first one open, and the user brings what it takes
  predicate Fits(env: Env, t: Tables, s: Session, needs: Requirements, x: StepInput, now: Time) {
    match x.step
    case Authenticate => needs.authentication && IsGrantable(env, AskedBy(s)) && MaxAgeParses(s.params)
    case SelectAccount =>
      !needs.authentication && needs.selection && IsGrantable(env, AskedBy(s)) && MaxAgeParses(s.params)
    case Reauthenticate =>
      && !needs.authentication && !needs.selection && needs.reauthentication
      && IsUsable(t.tokens, x.token, x.userID, now)
    case GiveConsent =>
      && needs == Requirements(true, false, false, false)
      && (x.approved.Some? ==> forall scope :: scope in x.approved.value ==> scope in s.scopes)
      && IsGrantable(env, Left(s, x.approved))
  }

  // An interaction is there for an hour
  predicate IsOpen(sessions: map<string, Session>, id: string, now: Time) {
    id in sessions && now - sessions[id].createdAt <= 3_600_000_000_000
  }

  lemma AppliedExactlyWhen(clients: Clients, env: Env, t: Tables, s: Session, x: StepInput, now: Time)
    requires x.userID != "" && !IsOther(s, x.userID) && RequiredSteps(s.needs) != [] && RequiredSteps(s.needs)[0] == x.step
    ensures ApplyStep(clients, env, t, s, x, now).Ok? <==> Fits(env, t, s, s.needs, x, now)
  {
    match x.step
    case Authenticate =>
      AuthenticatingAddsExactly(clients, env, t.consents, s, x.userID, x.authenticatedAt, now);
      hide AuthenticateUser, IsGrantable, MaxAgeParses;
    case SelectAccount =>
      SwitchOwesExactly(clients, env, t.consents, s, x.userID, x.authenticatedAt, now);
      hide SwitchUser, IsGrantable, MaxAgeParses;
    case Reauthenticate =>
      ReauthenticationSucceedsExactlyWhen(t, s, x, now);
      hide ApplyReauthentication, IsUsable;
    case GiveConsent =>
      ConsentStepRecordsExactly(env, t, s, x);
      hide ApplyConsent, IsGrantable, Left;
  }

  lemma FirstStep(needs: Requirements, step: Interaction.Step)
    ensures RequiredSteps(needs) == [] <==> !Any(needs)
    ensures RequiredSteps(needs) != [] && RequiredSteps(needs)[0] == step <==>
      match step
      case Authenticate => needs.authentication
      case SelectAccount => !needs.authentication && needs.selection
      case Reauthenticate => !needs.authentication && !needs.selection && needs.reauthentication
      case GiveConsent => needs == Requirements(true, false, false, false)
  {
  }

  /**
   Completing a step succeeds exactly when the interaction is no older than an hour, somebody is signed in, a
   different user than the bound one can be switched to, and either nothing is owed or the step is the first one open
   and the user brings what it takes.
   */
  lemma CompletedExactlyWhen(clients: Clients, env: Env, t: Tables, id: string, x: StepInput, now: Time)
    ensures CompleteStep(clients, env, t, id, x, now) == Err(InteractionNotFound) <==> !IsOpen(t.sessions, id, now)
    ensures IsOpen(t.sessions, id, now) ==>
      var s := t.sessions[id];
      var needs := NeedsOf(clients, t.consents, s, x, now);
      CompleteStep(clients, env, t, id, x, now).Ok? <==>
        && x.userID != "" && (IsOther(s, x.userID) ==> IsGrantable(env, AskedBy(s)) && MaxAgeParses(s.params))
        && (!Any(needs) || Fits(env, t, s, needs, x, now))
  {
    if IsOpen(t.sessions, id, now) {
      var stored := t.sessions[id];
      SwitchOwesExactly(clients, env, t.consents, stored, x.userID, x.authenticatedAt, now);
      var r := SessionFor(clients, env, t, stored, x, now);
      NoStepIsMissing(clients, env, t, stored, x, now);
      if r.Ok? && x.userID != "" {
        var s := r.value;
        assert s.needs == NeedsOf(clients, t.consents, stored, x, now) && AskedBy(s) == AskedBy(stored);
        SameFits(env, t, stored, s, s.needs, x, now);
        FirstStep(s.needs, x.step);
        if RequiredSteps(s.needs) != [] && RequiredSteps(s.needs)[0] == x.step {
          AppliedExactlyWhen(clients, env, t, s, x, now);
        }
      }
      hide SwitchUser, ApplyStep, OwesConsent, OwesLogin, IsGrantable, MaxAgeParses, IsUsable, RequiredSteps, Left;
    }
  }

  // Neither a switch nor a step ever answers that the interaction is missing
  lemma NoStepIsMissing(clients: Clients, env: Env, t: Tables, s: Session, x: StepInput, now: Time)
    ensures SessionFor(clients, env, t, s, x, now) != Err(InteractionNotFound)
    ensures SessionFor(clients, env, t, s, x, now).Ok? ==>
      ApplyStep(clients, env, t, SessionFor(clients, env, t, s, x, now).value, x, now) != Err(InteractionNotFound)
  {
    NoRequirementIsMissing(clients, env, t.consents, x, now);
    hide RequirementsFor;
    if SessionFor(clients, env, t, s, x, now).Ok? {
      var s1 := SessionFor(clients, env, t, s, x, now).value;
      hide SessionFor, ResolveGrant, KeysForGrant, KeepApproved, Record, JoinScopes;
    }
  }

  lemma NoRequirementIsMissing(clients: Clients, env: Env, consents: Rows, x: StepInput, now: Time)
    ensures forall q :: RequirementsFor(clients, env, consents, q, x.userID, x.authenticatedAt, now) != Err(InteractionNotFound)
  {
    hide ResolveGrant, HasAuthorized, RequestKeys, Fields;
  }

  lemma SameFits(env: Env, t: Tables, s: Session, s': Session, needs: Requirements, x: StepInput, now: Time)
    requires AskedBy(s) == AskedBy(s')
    ensures Fits(env, t, s, needs, x, now) <==> Fits(env, t, s', needs, x, now)
  {
    hide IsGrantable, MaxAgeParses, IsUsable;
  }

  // ---------------------------------------------------------------- opening a request

  // The interaction that a request resumes is open, of the same client, and covers its scopes
  predicate MayResume(sessions: map<string, Session>, i: string, req: Request, now: Time) {
    && IsOpen(sessions, i, now)
    && sessions[i].clientID == req.ClientID() && (sessions[i].userID.Some? ==> req.caller.userID != "")
    && forall scope :: scope in ScopesOf(req.params) ==> scope in sessions[i].scopes
  }

  /**
   A request gets past the checks before its transaction exactly when it has the challenge and was pushed where the
   client demands it, resumes an interaction only if that fits, can be granted, and a user is signed in or may be asked
   to. A signed-in user goes on with the stored session; otherwise a session is made that demands a login first.
   */
  lemma OpenedExactlyWhen(clients: Clients, env: Env, sessions: map<string, Session>, i: string, req: Request, now: Time)
    ensures
      var client, q := ClientOf(clients, req.ClientID()), req.Query();
      var r := OpenAuthorize(clients, env, sessions, i, req, now);
      && (r.Ok? <==>
            && (client.requiresPkce ==> Param(req.params, "code_challenge") != "")
            && (i != "" ==> MayResume(sessions, i, req, now))
            && (client.requiresPar ==> req.caller.pushed || i != "")
            && IsGrantable(env, q)
            && (req.caller.userID == "" ==> !PromptHas(req.params, "none")))
      && (r.Ok? && req.caller.userID != "" ==> r.value == Proceed(if i == "" then None else Some(sessions[i])))
      && (r.Ok? && req.caller.userID == "" ==>
            r.value == AskLogin(Session(req.ClientID(), None, ScopesOf(req.params), req.params,
                                        Requirements(PromptHas(req.params, "consent"),
                                                     PromptHas(req.params, "login") || client.requiresReauthentication,
                                                     true, PromptHas(req.params, "select_account")),
                                        now, None)))
  {
    hide ResolveGrant, Fields, SplitScopes;
  }

  // ---------------------------------------------------------------- the transaction

  /** An unknown user is not found, and a known one is denied exactly when the client is restricted to groups they are not in. */
  lemma DeniedExactlyWhen(clients: Clients, env: Env, t: Tables, req: Request, resumed: Option<Resumed>, now: Time)
    ensures
      var r, u := AuthorizeAuthenticated(clients, env, t, req, resumed, now), req.caller.userID;
      var allowed := ClientOf(clients, req.ClientID()).allowedGroups;
      && (r == Err(UserNotFound) <==> u !in env.users)
      && (u in env.users ==>
            (r == Err(AccessDenied) <==> allowed.Some? && forall g :: g in env.users[u] ==> g !in allowed.value))
  {
    var u := req.caller.userID;
    AllowedIsAllowed(env, u, ClientOf(clients, req.ClientID()));
    hide UserAllowed;
    PassedIsNotDenied(clients, env, t, req, resumed, now);
    hide AuthorizeAuthenticated;
  }

  lemma PassedIsNotDenied(clients: Clients, env: Env, t: Tables, req: Request, resumed: Option<Resumed>, now: Time)
    ensures
      var r, u := AuthorizeAuthenticated(clients, env, t, req, resumed, now), req.caller.userID;
      && (r == Err(UserNotFound) <==> u !in env.users)
      && (r == Err(AccessDenied) <==> u in env.users && !UserAllowed(env, u, ClientOf(clients, req.ClientID())))
  {
    LaterErrors(clients, env, t, req, resumed, now);
    hide SwitchResumed, ResolveRequirements, GrantRequest, CreatedSession, UserAllowed;
  }

  // Nothing after the first two checks answers with their errors
  lemma LaterErrors(clients: Clients, env: Env, t: Tables, req: Request, resumed: Option<Resumed>, now: Time)
    ensures SwitchResumed(clients, env, t, resumed, req.caller, now) !in {Err(UserNotFound), Err(AccessDenied)}
    ensures forall t1, session :: ResolveRequirements(clients, env, t1, req, session, now) !in {Err(UserNotFound), Err(AccessDenied)}
    ensures forall t1, current, owed :: GrantRequest(env, t1, req, current, owed, now) !in {Err(UserNotFound), Err(AccessDenied)}
  {
    hide ResolveGrant, HasAuthorized, RequestKeys, KeysForGrant, Record, Fields;
  }

  predicate IsAllowed(env: Env, u: string, client: Client) {
    u in env.users && (client.allowedGroups.None? || exists g :: g in env.users[u] && g in client.allowedGroups.value)
  }

  lemma AllowedIsAllowed(env: Env, u: string, client: Client)
    ensures UserAllowed(env, u, client) <==> IsAllowed(env, u, client)
  {
    if u in env.users && client.allowedGroups.Some? {
      if g :| g in client.allowedGroups.value * env.users[u] {
        assert g in env.users[u] && g in client.allowedGroups.value;
      }
      if g :| g in env.users[u] && g in client.allowedGroups.value {
        assert g in client.allowedGroups.value * env.users[u];
      }
    }
  }

  // What a request without a session still owes, once a usable proof is spent on the login
  function Remaining(clients: Clients, t: Tables, req: Request, now: Time): Requirements {
    var q, c := req.Query(), req.caller;
    Requirements(OwesConsent(clients, t.consents, q, c.userID),
                 OwesLogin(clients, q, c.authenticatedAt, now) && !IsUsable(t.tokens, c.token, c.userID, now),
                 false, PromptHas(q.params, "select_account"))
  }

  lemma FreshOwes(clients: Clients, env: Env, t: Tables, req: Request, now: Time)
    ensures
      var q, c := req.Query(), req.caller;
      var r := ResolveRequirements(clients, env, t, req, None, now);
      && (r.Ok? <==>
            && IsGrantable(env, q) && MaxAgeParses(q.params)
            && (PromptHas(req.params, "none") ==>
                  !OwesConsent(clients, t.consents, q, c.userID) && !OwesLogin(clients, q, c.authenticatedAt, now)))
      && (r.Ok? ==>
            && r.value.needs == Remaining(clients, t, req, now)
            && (r.value.consumed <==> OwesLogin(clients, q, c.authenticatedAt, now) && IsUsable(t.tokens, c.token, c.userID, now)))
  {
    RequiredExactlyWhen(clients, env, t.consents, req.Query(), req.caller.userID, req.caller.authenticatedAt, now);
    if ResolveRequirements(clients, env, t, req, None, now).Ok? {
      TokenIsUsedExactlyWhen(clients, env, t, req, None, now);
    }
    hide RequirementsFor, OwesConsent, OwesLogin, IsGrantable, MaxAgeParses, Fields;
  }

  lemma FreshGrantSucceeds(env: Env, t: Tables, req: Request, owed: Owed, now: Time)
    requires IsGrantable(env, req.Query())
    ensures GrantRequest(env, t, req, None, owed, now).Ok?
  {
  }

  /**
   The transaction of a request without a session succeeds exactly when the user exists and is allowed, the request can
   be granted, and prompt=none finds nothing owed. It is granted exactly when nothing remains; otherwise a session of
   this user is stored under the request's ID, owing exactly what remains.
   */
  lemma FreshRequestExactly(clients: Clients, env: Env, t: Tables, req: Request, now: Time)
    ensures
      var q, c := req.Query(), req.caller;
      var r := AuthorizeAuthenticated(clients, env, t, req, None, now);
      && (r.Ok? <==>
            && IsAllowed(env, c.userID, ClientOf(clients, req.ClientID()))
            && IsGrantable(env, q) && MaxAgeParses(q.params)
            && (PromptHas(req.params, "none") ==>
                  !OwesConsent(clients, t.consents, q, c.userID) && !OwesLogin(clients, q, c.authenticatedAt, now)))
      && (r.Ok? ==>
            var needs := Remaining(clients, t, req, now);
            && (r.value.answer.Granted? <==> !Any(needs))
            && (r.value.consumed <==> OwesLogin(clients, q, c.authenticatedAt, now) && IsUsable(t.tokens, c.token, c.userID, now))
            && (Any(needs) ==>
                  && r.value.answer == Interact(req.id) && r.value.tables.consents == t.consents
                  && r.value.tables.sessions == t.sessions[req.id :=
                       Session(req.ClientID(), Some(c.userID), ScopesOf(req.params), req.params, needs, now, None)]))
  {
    AllowedIsAllowed(env, req.caller.userID, ClientOf(clients, req.ClientID()));
    FreshOwes(clients, env, t, req, now);
    var owed := ResolveRequirements(clients, env, t, req, None, now);
    assert SwitchResumed(clients, env, t, None, req.caller, now) == Ok((t, None));
    if owed.Ok? {
      var t2 := Spend(t, req, owed.value.consumed);
      if IsGrantable(env, req.Query()) {
        FreshGrantSucceeds(env, t2, req, owed.value, now);
      }
      if GrantRequest(env, t2, req, None, owed.value, now).Ok? {
        GrantPieces(env, t2, req, None, owed.value, now);
      }
    }
    hide ResolveRequirements, OwesConsent, OwesLogin, IsGrantable, MaxAgeParses, UserAllowed, IsAllowed, GrantRequest,
      SwitchResumed, Fields, Remaining;
  }

  // What the user who resumes owes: what the session says, or everything anew for a user it is not bound to
  function ResumedNeeds(clients: Clients, consents: Rows, s: Session, c: Caller, now: Time): Requirements {
    if IsOther(s, c.userID) then
      Requirements(OwesConsent(clients, consents, AskedBy(s), c.userID),
                   OwesLogin(clients, AskedBy(s), c.authenticatedAt, now), false, s.needs.selection)
    else s.needs
  }

  // And what remains once a usable proof is spent
  function Spent(needs: Requirements, tokens: map<string, Token>, c: Caller, now: Time): Requirements {
    if needs.reauthentication && IsUsable(tokens, c.token, c.userID, now) then needs.(reauthentication := false) else needs
  }

  lemma ResumedSwitch(clients: Clients, env: Env, t: Tables, i: string, s: Session, c: Caller, now: Time)
    ensures
      var r := SwitchResumed(clients, env, t, Some(Resumed(i, s)), c, now);
      && (r.Ok? <==> (IsOther(s, c.userID) ==> c.userID != "" && IsGrantable(env, AskedBy(s)) && MaxAgeParses(s.params)))
      && (r.Ok? ==>
            && r.value.1.Some? && r.value.1.value.id == i
            && r.value.1.value.session.needs == ResumedNeeds(clients, t.consents, s, c, now)
            && r.value.0.sessions.Keys == t.sessions.Keys
            && r.value.0.consents == t.consents && r.value.0.tokens == t.tokens)
  {
    SwitchOwesExactly(clients, env, t.consents, s, c.userID, c.authenticatedAt, now);
    hide SwitchUser, OwesConsent, OwesLogin, IsGrantable, MaxAgeParses;
  }

  lemma ResumedOwes(clients: Clients, env: Env, t: Tables, req: Request, s: Session, now: Time)
    ensures
      var q, c := req.Query(), req.caller;
      var r := ResolveRequirements(clients, env, t, req, Some(s), now);
      && (r.Ok? <==>
            && IsGrantable(env, q) && MaxAgeParses(q.params)
            && (PromptHas(req.params, "none") ==> !s.needs.consent && !s.needs.reauthentication))
      && (r.Ok? ==> r.value.needs == Spent(s.needs, t.tokens, c, now))
  {
    RequiredExactlyWhen(clients, env, t.consents, req.Query(), req.caller.userID, req.caller.authenticatedAt, now);
    if ResolveRequirements(clients, env, t, req, Some(s), now).Ok? {
      TokenIsUsedExactlyWhen(clients, env, t, req, Some(s), now);
    }
    hide RequirementsFor, OwesConsent, OwesLogin, IsGrantable, MaxAgeParses, Fields;
  }

  lemma ResumedGrantSucceeds(env: Env, t: Tables, req: Request, i: string, s: Session, owed: Owed, now: Time)
    requires IsGrantable(env, req.Query())
    ensures
      var r := GrantRequest(env, t, req, Some(Resumed(i, s)), owed, now);
      (r.Ok? <==> i in t.sessions) && (r.Ok? ==> r.value.answer.Granted? && r.value.tables.sessions == t.sessions - {i})
  {
  }

  /**
   The transaction of a resumed request succeeds exactly when the user exists and is allowed, a different user than the
   bound one can be switched to, the request can be granted, prompt=none finds nothing owed, and a session that is used
   up is still there. It is granted exactly when nothing remains, which uses up the session; otherwise the interaction
   goes on under its own ID.
   */
  lemma ResumedRequestExactly(clients: Clients, env: Env, t: Tables, req: Request, i: string, s: Session, now: Time)
    ensures
      var c := req.caller;
      var r := AuthorizeAuthenticated(clients, env, t, req, Some(Resumed(i, s)), now);
      var needs := ResumedNeeds(clients, t.consents, s, c, now);
      var remains := Any(Spent(needs, t.tokens, c, now));
      && (r.Ok? <==>
            && IsAllowed(env, c.userID, ClientOf(clients, req.ClientID()))
            && (IsOther(s, c.userID) ==> c.userID != "" && IsGrantable(env, AskedBy(s)) && MaxAgeParses(s.params))
            && IsGrantable(env, req.Query()) && MaxAgeParses(req.params)
            && (PromptHas(req.params, "none") ==> !needs.consent && !needs.reauthentication)
            && (remains || i in t.sessions))
      && (r.Ok? ==>
            if remains then r.value.answer == Interact(i) && r.value.tables.sessions.Keys == t.sessions.Keys
            else r.value.answer.Granted? && r.value.tables.sessions.Keys == t.sessions.Keys - {i})
  {
    var c := req.caller;
    AllowedIsAllowed(env, c.userID, ClientOf(clients, req.ClientID()));
    ResumedSwitch(clients, env, t, i, s, c, now);
    var switched := SwitchResumed(clients, env, t, Some(Resumed(i, s)), c, now);
    if switched.Ok? {
      var (t1, current) := switched.value;
      ResumedOwes(clients, env, t1, req, current.value.session, now);
      var owed := ResolveRequirements(clients, env, t1, req, Some(current.value.session), now);
      if owed.Ok? {
        ResumedGrantSucceeds(env, Spend(t1, req, owed.value.consumed), req, i, current.value.session, owed.value, now);
      }
    }
    hide ResolveRequirements, SwitchResumed, ResumedNeeds, Spent, IsGrantable, MaxAgeParses, UserAllowed, IsAllowed,
      GrantRequest, Fields, IsUsable;
  }

  // ---------------------------------------------------------------- where consents come from

  // A key that a step adds to the consents of a pair
  ghost predicate Added(w: World, w': World, client: string, user: string, key: string) {
    && (client, user) in w'.t.consents && key in w'.t.consents[(client, user)]
    && !((client, user) in w.t.consents && key in w.t.consents[(client, user)])
  }

  lemma GrantAdds(clients: Clients, env: Env, t: Tables, req: Request, resumed: Option<Resumed>, now: Time)
    requires AuthorizeAuthenticated(clients, env, t, req, resumed, now).Ok?
    ensures
      var o := AuthorizeAuthenticated(clients, env, t, req, resumed, now).value;
      o.tables.consents ==
        if o.answer.Granted? then Record(t.consents, req.ClientID(), req.caller.userID, req.Query().Keys()) else t.consents
  {
    TransactionPieces(clients, env, t, req, resumed, now);
    SwitchedTables(clients, env, t, resumed, req.caller, now);
    var (t1, current) := SwitchResumed(clients, env, t, resumed, req.caller, now).value;
    var owed := ResolveRequirements(clients, env, t1, req, SessionIn(current), now).value;
    hide AuthorizeAuthenticated, SwitchResumed, SwitchUser, UpdateSession, ResolveRequirements, ResolveGrant, Record, RequestKeys;
    if !Any(owed.needs) {
      GrantPieces(env, Spend(t1, req, owed.consumed), req, current, owed, now);
    }
    hide GrantRequest;
  }

  // The step is a consent step of this user that left the key in
  ghost predicate GivenByStep(w': World, a: Action, client: string, user: string, key: string) {
    && a.Complete? && a.input.step == GiveConsent && a.input.userID == user && a.interaction in w'.t.sessions
    && var s := w'.t.sessions[a.interaction];
       s.clientID == client && key in AskedBy(s).Keys()
       && (a.input.approved.Some? ==>
             forall scope :: scope in s.scopes ==> scope in a.input.approved.value || scope == "openid")
  }

  // The step is a grant to this user and client that has the key
  ghost predicate GivenByGrant(w: World, w': World, client: string, user: string, key: string) {
    && |w'.grants| == |w.grants| + 1
    && var g := Last(w'.grants);
       g.userID == user && g.req.ClientID() == client && key in g.req.Query().Keys()
  }

  lemma AppliedConsents(clients: Clients, env: Env, t: Tables, s: Session, x: StepInput, now: Time)
    requires ApplyStep(clients, env, t, s, x, now).Ok?
    ensures
      var a := ApplyStep(clients, env, t, s, x, now).value;
      if x.step != GiveConsent then a.consents == t.consents
      else
        && a.session.clientID == s.clientID
        && a.consents == Record(t.consents, s.clientID, x.userID, AskedBy(a.session).Keys())
        && (x.approved.Some? ==>
              forall scope :: scope in a.session.scopes ==> scope in x.approved.value || scope == "openid")
  {
    hide AuthenticateUser, SwitchUser, Record, JoinScopes;
  }

  lemma StepAdds(clients: Clients, w: World, i: string, env: Env, x: StepInput, client: string, user: string, key: string)
    requires Accepts(clients, w, i, env, x) && i in w.bindings
    requires Added(w, CompleteInteraction(clients, w, i, env, x), client, user, key)
    ensures GivenByStep(CompleteInteraction(clients, w, i, env, x), Complete(i, env, x), client, user, key)
  {
    CompletedRow(clients, w, i, env, x);
    var stored := w.t.sessions[i];
    var s := SessionFor(clients, env, w.t, stored, x, w.now).value;
    assert s.clientID == stored.clientID by {
      hide RequirementsFor, CompleteInteraction, ApplyStep;
    }
    AppliedConsents(clients, env, w.t, s, x, w.now);
    var w' := CompleteInteraction(clients, w, i, env, x);
    hide Accepts, CompleteInteraction, SessionFor, ApplyStep, RequiredSteps, RequestKeys;
    if x.step == GiveConsent {
      RecordExactly(w.t.consents, s.clientID, x.userID, AskedBy(w'.t.sessions[i]).Keys());
    }
    hide Record;
  }

  lemma CommitAdds(clients: Clients, w: World, id: string, env: Env, client: string, user: string, key: string)
    requires Added(w, CommitStep(clients, w, id, env), client, user, key)
    ensures GivenByGrant(w, CommitStep(clients, w, id, env), client, user, key)
  {
    var call := w.calls[id];
    var r := AuthorizeAuthenticated(clients, env, w.t, call.req, ResumedBy(call), w.now);
    if r.Ok? {
      GrantAdds(clients, env, w.t, call.req, ResumedBy(call), w.now);
      hide AuthorizeAuthenticated, RequestKeys;
      FinishedAdds(w, id, call, r.value, client, user, key);
    }
    hide AuthorizeAuthenticated, Finished, Added, GivenByGrant;
  }

  lemma FinishedAdds(w: World, id: string, call: Call, o: Outcome, client: string, user: string, key: string)
    requires call.Bound? && Added(w, Finished(w, id, call, o), client, user, key)
    requires o.tables.consents ==
      if o.answer.Granted? then Record(w.t.consents, call.req.ClientID(), call.req.caller.userID, call.req.Query().Keys())
      else w.t.consents
    ensures GivenByGrant(w, Finished(w, id, call, o), client, user, key)
  {
    RecordExactly(w.t.consents, call.req.ClientID(), call.req.caller.userID, call.req.Query().Keys());
    hide Record, RequestKeys;
  }

  /**
   No consent comes from nowhere: whenever a step of a run records a key for a client and a user, it is a consent step
   of this user that left the key in, or a grant to this user and client of a request with the key.
   */
  lemma EveryConsentHasACause(clients: Clients, w: World, a: Action, client: string, user: string, key: string)
    requires Inv(clients, w)
    requires Added(w, InteractionRuns.Step(clients, w, a), client, user, key)
    ensures
      var w' := InteractionRuns.Step(clients, w, a);
      GivenByStep(w', a, client, user, key) || (a.Commit? && GivenByGrant(w, w', client, user, key))
  {
    InvHasBindings(clients, w);
    hide Inv, Accepts, GivenByStep, GivenByGrant;
    match a
    case Complete(i, env, x) =>
      hide CompleteInteraction;
      if Accepts(clients, w, i, env, x) {
        AcceptedIsStored(clients, w, i, env, x);
        StepAdds(clients, w, i, env, x, client, user, key);
      } else {
        RefusalChangesNothing(clients, w, i, env, x);
      }
    case Commit(id, env) =>
      hide CommitStep;
      CommitAdds(clients, w, id, env, client, user, key);
    case _ =>
      OthersConsentToNothing(clients, w, a);
      hide InteractionRuns.Step;
  }

  lemma OthersConsentToNothing(clients: Clients, w: World, a: Action)
    requires !a.Complete? && !a.Commit?
    ensures InteractionRuns.Step(clients, w, a).t.consents == w.t.consents
  {
    hide OpenAuthorize, Rebuilt, CommitStep, CompleteInteraction;
  }

  lemma AcceptedIsStored(clients: Clients, w: World, i: string, env: Env, x: StepInput)
    requires Accepts(clients, w, i, env, x)
    ensures i in w.t.sessions
  {
    hide SessionFor, ApplyStep, RequiredSteps;
  }
}
