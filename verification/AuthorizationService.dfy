/**
 The authorization service itself: a step loads the session into a record, changes the record field by
 field and writes it back, and every failure rolls the transaction back. Each method is proved against
 the function of module Interaction that says what it leaves behind.
 */
module AuthorizationService {
  import opened Common
  import opened Lists
  import opened Text
  import opened Consent
  import opened Resource
  import ApiTables
  import I = Interaction

  // ---------------------------------------------------------------- loops over scopes

  method NarrowApprovedScopes(requested: seq<string>, approved: Option<seq<string>>)
    returns (r: Result<seq<string>, I.Error>)
    ensures r == I.Narrow(requested, approved)
  {
    if approved.None? {
      return Ok(requested);
    }
    var wanted := approved.value;
    for i := 0 to |wanted|
      invariant I.FirstUnrequested(requested, wanted) == I.FirstUnrequested(requested, wanted[i..])
    {
      assert wanted[i..][1..] == wanted[i + 1..];
      if wanted[i] !in requested {
        return Err(I.ScopeNotRequested(wanted[i]));
      }
    }
    var narrowed: seq<string> := [];
    for i := 0 to |requested|
      invariant narrowed == I.KeepApproved(requested[..i], wanted)
    {
      assert Init(requested[..i + 1]) == requested[..i];
      if requested[i] in wanted || requested[i] in I.REQUIRED_SCOPES {
        narrowed := narrowed + [requested[i]];
      }
    }
    assert requested[..|requested|] == requested;
    r := Ok(narrowed);
  }

  // ---------------------------------------------------------------- the record

  class SessionRecord {
    var clientID: string
    var userID: Option<string>
    var scopes: seq<string>
    var params: I.Params
    var consentRequired: bool
    var reauthenticationRequired: bool
    var authenticationRequired: bool
    var accountSelectionRequired: bool
    var createdAt: I.Time
    var reauthenticatedAt: Option<I.Time>

    function Needs(): I.Requirements
      reads this
    {
      I.Requirements(consentRequired, reauthenticationRequired, authenticationRequired, accountSelectionRequired)
    }

    function Value(): I.Session
      reads this
    {
      I.Session(clientID, userID, scopes, params, Needs(), createdAt, reauthenticatedAt)
    }

    constructor (s: I.Session)
      ensures Value() == s
    {
      clientID, userID, scopes, params, createdAt := s.clientID, s.userID, s.scopes, s.params, s.createdAt;
      consentRequired, reauthenticationRequired := s.needs.consent, s.needs.reauthentication;
      authenticationRequired, accountSelectionRequired := s.needs.authentication, s.needs.selection;
      reauthenticatedAt := s.reauthenticatedAt;
    }

    method RequiredInteractionSteps() returns (steps: seq<I.Step>)
      ensures steps == I.RequiredSteps(Needs())
    {
      steps := [];
      if authenticationRequired {
        steps := steps + [I.Authenticate];
      }
      if accountSelectionRequired {
        steps := steps + [I.SelectAccount];
      }
      if reauthenticationRequired {
        steps := steps + [I.Reauthenticate];
      }
      if consentRequired {
        steps := steps + [I.GiveConsent];
      }
    }

    method BindUser(newUserID: string) returns (r: Result<(), I.Error>)
      modifies this
      ensures
        match I.BindUser(old(Value()), newUserID)
        case Err(e) => r == Err(e) && Value() == old(Value())
        case Ok(s) => r == Ok(()) && Value() == s
    {
      if newUserID == "" {
        return Err(I.LoginRequired);
      }
      if userID.Some? && userID.value != newUserID {
        return Err(I.InvalidRequest);
      }
      if userID.None? {
        userID := Some(newUserID);
      }
      r := Ok(());
    }

    // The stored scope parameter is rewritten with the scopes
    method NarrowScopes(approved: Option<seq<string>>) returns (r: Result<(), I.Error>)
      modifies this
      ensures
        match I.NarrowSession(old(Value()), approved)
        case Err(e) => r == Err(e) && Value() == old(Value())
        case Ok(s) => r == Ok(()) && Value() == s
    {
      if approved.None? {
        return Ok(());
      }
      var narrowed := NarrowApprovedScopes(scopes, approved);
      if narrowed.Err? {
        return Err(narrowed.error);
      }
      scopes := narrowed.value;
      params := params["scope" := JoinScopes(scopes)];
      r := Ok(());
    }
  }

  // ---------------------------------------------------------------- the service

  class Service {
    const clients: I.Clients
    var sessions: map<string, I.Session>
    var consents: Rows
    var tokens: map<string, I.Token>

    constructor (clients: I.Clients)
      ensures this.clients == clients && Snapshot() == I.Tables(map[], map[], map[])
    {
      this.clients, sessions, consents, tokens := clients, map[], map[], map[];
    }

    function Snapshot(): I.Tables
      reads this
    {
      I.Tables(sessions, consents, tokens)
    }

    method Restore(t: I.Tables)
      modifies this
      ensures Snapshot() == t
    {
      sessions, consents, tokens := t.sessions, t.consents, t.tokens;
    }

    method ResolveGrant(env: I.Env, clientID: string, resource: string, scopes: seq<string>)
      returns (r: Result<(Resolved, seq<string>), I.Error>)
      ensures
        match I.ResolveGrant(env, clientID, resource, scopes)
        case Err(d) => r == Err(I.Denied(d))
        case Ok(g) => r == Ok((g, KeysForGrant(g.audience, resource, g.scopes)))
    {
      var lookup := env.lookup(clientID, AudienceOf(clientID, resource));
      var resolved := ResolveResource(env.isResourceUri(resource), lookup, clientID, resource, scopes, ApiTables.User);
      if resolved.Err? {
        return Err(I.Denied(resolved.error));
      }
      var keys := ConsentKeysForGrant(resolved.value.audience, resource, resolved.value.scopes);
      r := Ok((resolved.value, keys));
    }

    method HasAuthorizedClient(clientID: string, userID: string, keys: seq<string>) returns (authorized: bool)
      ensures authorized == HasAuthorized(consents, clientID, userID, keys)
    {
      if (clientID, userID) !in consents {
        return false;
      }
      authorized := ConsentScopesInclude(consents[(clientID, userID)], keys);
    }

    // Reports whether the consent had been given before
    method GiveConsent(userID: string, clientID: string, keys: seq<string>) returns (hadAuthorized: bool)
      modifies this`consents
      ensures consents == Record(old(consents), clientID, userID, keys)
      ensures hadAuthorized == HasAuthorized(old(consents), clientID, userID, keys)
    {
      var pair := (clientID, userID);
      if pair in consents {
        hadAuthorized := ConsentScopesInclude(consents[pair], keys);
        if !hadAuthorized {
          var merged := MergeConsentScopes(consents[pair], keys);
          consents := consents[pair := merged];
        }
        return;
      }
      hadAuthorized := false;
      var merged := MergeConsentScopes([], keys);
      consents := consents[pair := merged];
    }

    // One delete that must hit a row of this user that has not expired, and returns when it was created
    method ConsumeReauthenticationToken(token: string, userID: string, now: I.Time) returns (createdAt: Option<I.Time>)
      modifies this`tokens
      ensures createdAt.Some? <==> I.TokenValid(old(tokens), token, userID, now)
      ensures createdAt.Some? ==> createdAt.value == old(tokens)[token].createdAt && tokens == old(tokens) - {token}
      ensures createdAt.None? ==> tokens == old(tokens)
    {
      if token !in tokens || tokens[token].userID != userID || tokens[token].expiresAt <= now {
        return None;
      }
      createdAt := Some(tokens[token].createdAt);
      tokens := tokens - {token};
    }

    method RequirementsFor(env: I.Env, q: I.Asked, userID: string, authenticatedAt: Option<I.Time>, now: I.Time)
      returns (r: Result<I.Requirements, I.Error>)
      ensures r == I.RequirementsFor(clients, env, consents, q, userID, authenticatedAt, now)
    {
      var client := I.ClientOf(clients, q.clientID);
      var resolved := ResolveGrant(env, q.clientID, q.Resource(), q.scopes);
      if resolved.Err? {
        return Err(resolved.error);
      }
      var authorized := HasAuthorizedClient(q.clientID, userID, resolved.value.1);
      var due := I.DueByMaxAge(I.Param(q.params, "max_age"), authenticatedAt, now);
      if due.Err? {
        return Err(due.error);
      }
      r := Ok(I.Requirements(I.ConsentRequired(authorized, client.skipConsent, q.params),
                             I.PromptHas(q.params, "login") || client.requiresReauthentication || due.value,
                             false,
                             I.PromptHas(q.params, "select_account")));
    }

    // On failure the record is thrown away
    method SwitchUser(env: I.Env, s: SessionRecord, userID: string, authenticatedAt: Option<I.Time>, now: I.Time)
      returns (r: Result<(), I.Error>)
      modifies s
      ensures
        match I.SwitchUser(clients, env, consents, old(s.Value()), userID, authenticatedAt, now)
        case Err(e) => r == Err(e)
        case Ok(switched) => r == Ok(()) && s.Value() == switched
    {
      hide I.RequirementsFor;
      if userID == "" {
        return Err(I.LoginRequired);
      }
      s.userID := Some(userID);
      var q := I.Asked(s.clientID, s.params, s.scopes);
      var needs := RequirementsFor(env, q, userID, authenticatedAt, now);
      if needs.Err? {
        return Err(needs.error);
      }
      s.authenticationRequired := false;
      s.consentRequired := needs.value.consent;
      s.reauthenticationRequired := needs.value.reauthentication;
      s.reauthenticatedAt := None;
      r := Ok(());
    }

    method AuthenticateUser(env: I.Env, s: SessionRecord, userID: string, authenticatedAt: Option<I.Time>, now: I.Time)
      returns (r: Result<(), I.Error>)
      modifies s
      ensures
        match I.AuthenticateUser(clients, env, consents, old(s.Value()), userID, authenticatedAt, now)
        case Err(e) => r == Err(e)
        case Ok(authenticated) => r == Ok(()) && s.Value() == authenticated
    {
      var bound := s.BindUser(userID);
      if bound.Err? {
        return bound;
      }
      s.authenticationRequired := false;
      var q := I.Asked(s.clientID, s.params, s.scopes);
      var needs := RequirementsFor(env, q, userID, authenticatedAt, now);
      if needs.Err? {
        return Err(needs.error);
      }
      s.consentRequired := s.consentRequired || needs.value.consent;
      s.accountSelectionRequired := s.accountSelectionRequired || needs.value.selection;
      s.reauthenticationRequired := s.reauthenticationRequired || needs.value.reauthentication;
      r := Ok(());
    }

    method CompleteReauthenticationStep(s: SessionRecord, x: I.StepInput, now: I.Time) returns (r: Result<(), I.Error>)
      modifies s, this`tokens
      ensures
        match I.ApplyReauthentication(old(Snapshot()), old(s.Value()), x, now)
        case Err(e) => r == Err(e)
        case Ok(a) => r == Ok(()) && I.Applied(s.Value(), consents, tokens) == a
    {
      var bound := s.BindUser(x.userID);
      if bound.Err? {
        return bound;
      }
      if x.token == "" {
        return Err(I.MissingToken);
      }
      var createdAt := ConsumeReauthenticationToken(x.token, x.userID, now);
      if createdAt.None? {
        return Err(I.ReauthenticationRequired);
      }
      s.reauthenticationRequired := false;
      s.reauthenticatedAt := createdAt;
      r := Ok(());
    }

    method CompleteConsentStep(env: I.Env, s: SessionRecord, x: I.StepInput) returns (r: Result<(), I.Error>)
      modifies s, this`consents
      ensures
        match I.ApplyConsent(env, old(Snapshot()), old(s.Value()), x)
        case Err(e) => r == Err(e)
        case Ok(a) => r == Ok(()) && I.Applied(s.Value(), consents, tokens) == a
    {
      var bound := s.BindUser(x.userID);
      if bound.Err? {
        return bound;
      }
      var narrowed := s.NarrowScopes(x.approved);
      if narrowed.Err? {
        return narrowed;
      }
      var resource := I.Param(s.params, "resource");
      var resolved := ResolveGrant(env, s.clientID, resource, s.scopes);
      if resolved.Err? {
        return Err(resolved.error);
      }
      var _ := GiveConsent(x.userID, s.clientID, resolved.value.1);
      s.consentRequired := false;
      r := Ok(());
    }

    method ApplyInteractionStep(env: I.Env, s: SessionRecord, x: I.StepInput, now: I.Time)
      returns (r: Result<(), I.Error>)
      modifies s, this`consents, this`tokens
      ensures
        match I.ApplyStep(clients, env, old(Snapshot()), old(s.Value()), x, now)
        case Err(e) => r == Err(e)
        case Ok(a) => r == Ok(()) && I.Applied(s.Value(), consents, tokens) == a
    {
      match x.step
      case Authenticate =>
        r := AuthenticateUser(env, s, x.userID, x.authenticatedAt, now);
      case SelectAccount =>
        r := SwitchUser(env, s, x.userID, x.authenticatedAt, now);
        if r.Ok? {
          s.accountSelectionRequired := false;
        }
      case Reauthenticate =>
        r := CompleteReauthenticationStep(s, x, now);
      case GiveConsent =>
        r := CompleteConsentStep(env, s, x);
    }

    /** The whole step is one transaction: it does what CompleteStep says, or fails and leaves the tables alone. */
    method CompleteInteractionStep(env: I.Env, id: string, x: I.StepInput, now: I.Time) returns (r: Result<(), I.Error>)
      modifies this
      ensures
        match I.CompleteStep(clients, env, old(Snapshot()), id, x, now)
        case Err(e) => r == Err(e) && Snapshot() == old(Snapshot())
        case Ok(NothingLeft) => r == Ok(()) && Snapshot() == old(Snapshot())
        case Ok(Stepped(tables)) => r == Ok(()) && Snapshot() == tables
    {
      var before := Snapshot();
      hide I.SwitchUser, I.ApplyStep, I.RequirementsFor;
      var stored := I.GetSession(sessions, id, now);
      if stored.None? {
        return Err(I.InteractionNotFound);
      }
      var s := new SessionRecord(stored.value);
      if s.userID.Some? && s.userID.value != x.userID {
        var switched := SwitchUser(env, s, x.userID, x.authenticatedAt, now);
        if switched.Err? {
          return switched;
        }
      }
      if x.userID == "" {
        return Err(I.LoginRequired);
      }
      var steps := s.RequiredInteractionSteps();
      if |steps| == 0 {
        return Ok(());
      }
      if steps[0] != x.step {
        return Err(I.UnexpectedStep(steps[0]));
      }
      var applied := ApplyInteractionStep(env, s, x, now);
      if applied.Err? {
        Restore(before);
        return applied;
      }
      sessions := I.UpdateSession(sessions, id, s.Value());
      r := Ok(());
    }

    // ---------------------------------------------------------------- authorizing

    method ScopesWithin(requested: seq<string>, allowed: seq<string>) returns (within: bool)
      ensures within <==> forall scope :: scope in requested ==> scope in allowed
    {
      for i := 0 to |requested|
        invariant forall j :: 0 <= j < i ==> requested[j] in allowed
      {
        if requested[i] !in allowed {
          return false;
        }
      }
      within := true;
    }

    method ValidateInteractionSessionBinding(s: I.Session, req: I.Request) returns (rejected: Option<I.Error>)
      ensures rejected == I.ValidateBinding(s, req)
    {
      if s.clientID != req.ClientID() {
        return Some(I.InvalidRequest);
      }
      if s.userID.Some? && req.caller.userID == "" {
        return Some(I.LoginRequired);
      }
      var within := ScopesWithin(I.ScopesOf(req.params), s.scopes);
      rejected := if within then None else Some(I.InvalidRequest);
    }

    method BoundInteractionSession(interaction: string, req: I.Request, now: I.Time)
      returns (r: Result<Option<I.Session>, I.Error>)
      ensures r == I.BoundSession(sessions, interaction, req, now)
    {
      if interaction == "" {
        return Ok(None);
      }
      var s := I.GetSession(sessions, interaction, now);
      if s.None? {
        return Err(I.InvalidRequest);
      }
      var rejected := ValidateInteractionSessionBinding(s.value, req);
      r := if rejected.Some? then Err(rejected.value) else Ok(Some(s.value));
    }

    /** The part of authorize before its transaction; without a signed-in user it stores a session. */
    method OpenAuthorize(env: I.Env, interaction: string, req: I.Request, now: I.Time)
      returns (r: Result<I.Opening, I.Error>)
      modifies this`sessions
      ensures r == I.OpenAuthorize(clients, env, old(sessions), interaction, req, now)
      ensures sessions == if r.Ok? && r.value.AskLogin? then old(sessions)[req.id := r.value.created] else old(sessions)
    {
      var client := I.ClientOf(clients, req.ClientID());
      if client.requiresPkce && I.Param(req.params, "code_challenge") == "" {
        return Err(I.InvalidRequest);
      }
      var bound := BoundInteractionSession(interaction, req, now);
      if bound.Err? {
        return Err(bound.error);
      }
      if client.requiresPar && !req.caller.pushed && bound.value.None? {
        return Err(I.ParRequired);
      }
      var q := req.Query();
      var resolved := ResolveGrant(env, q.clientID, q.Resource(), q.scopes);
      if resolved.Err? {
        return Err(if q.Resource() != "" then I.InvalidRequest else resolved.error);
      }
      if req.caller.userID != "" {
        return Ok(I.Proceed(bound.value));
      }
      if I.PromptHas(req.params, "none") {
        return Err(I.LoginRequired);
      }
      var needs := I.Requirements(I.PromptHas(req.params, "consent"),
                                  I.PromptHas(req.params, "login") || client.requiresReauthentication,
                                  true,
                                  I.PromptHas(req.params, "select_account"));
      var created := I.CreatedSession(req, None, needs, now);
      sessions := sessions[req.id := created];
      r := Ok(I.AskLogin(created));
    }

    method ResolveRequirements(env: I.Env, req: I.Request, session: Option<I.Session>, now: I.Time)
      returns (r: Result<I.Owed, I.Error>)
      modifies this`tokens
      ensures r == I.ResolveRequirements(clients, env, old(Snapshot()), req, session, now)
      ensures tokens == if r.Ok? && r.value.consumed then old(tokens) - {req.caller.token} else old(tokens)
    {
      hide I.RequirementsFor;
      var own := RequirementsFor(env, req.Query(), req.caller.userID, req.caller.authenticatedAt, now);
      if own.Err? {
        return Err(own.error);
      }
      var needs, authenticatedAt := own.value, req.caller.authenticatedAt;
      if session.Some? {
        needs := session.value.needs;
        if session.value.reauthenticatedAt.Some? {
          authenticatedAt := session.value.reauthenticatedAt;
        }
      }
      if I.PromptHas(req.params, "none") && needs.consent {
        return Err(I.ConsentRequiredError);
      }
      if I.PromptHas(req.params, "none") && needs.reauthentication {
        return Err(I.LoginRequired);
      }
      if needs.reauthentication && req.caller.token != "" {
        var createdAt := ConsumeReauthenticationToken(req.caller.token, req.caller.userID, now);
        if createdAt.Some? {
          return Ok(I.Owed(needs.(reauthentication := false), true, createdAt));
        }
      }
      r := Ok(I.Owed(needs, false, authenticatedAt));
    }

    // A session that is gone has been used before
    method GrantRequest(env: I.Env, req: I.Request, resumed: Option<I.Resumed>, owed: I.Owed, now: I.Time)
      returns (r: Result<I.Answer, I.Error>)
      modifies this`sessions, this`consents
      ensures
        match I.GrantRequest(env, old(Snapshot()), req, resumed, owed, now)
        case Err(e) => r == Err(e)
        case Ok(o) => r == Ok(o.answer) && Snapshot() == o.tables
    {
      if resumed.Some? {
        if resumed.value.id !in sessions {
          return Err(I.InvalidRequest);
        }
        sessions := sessions - {resumed.value.id};
      }
      var q := req.Query();
      var resolved := ResolveGrant(env, q.clientID, q.Resource(), q.scopes);
      if resolved.Err? {
        return Err(resolved.error);
      }
      var pair := (q.clientID, req.caller.userID);
      var found := if pair in consents then Some(consents[pair]) else None;
      var _ := GiveConsent(req.caller.userID, q.clientID, resolved.value.1);
      var authenticatedAt := if owed.authenticatedAt.Some? then owed.authenticatedAt.value else now;
      r := Ok(I.Granted(resolved.value.0, found, authenticatedAt));
    }

    method SwitchResumed(env: I.Env, resumed: Option<I.Resumed>, c: I.Caller, now: I.Time)
      returns (r: Result<Option<I.Resumed>, I.Error>)
      modifies this`sessions
      ensures
        match I.SwitchResumed(clients, env, old(Snapshot()), resumed, c, now)
        case Err(e) => r == Err(e)
        case Ok((t, current)) => r == Ok(current) && Snapshot() == t
    {
      hide I.SwitchUser;
      if resumed.None? || resumed.value.session.userID.None? || resumed.value.session.userID.value == c.userID {
        return Ok(resumed);
      }
      var s := new SessionRecord(resumed.value.session);
      var switched := SwitchUser(env, s, c.userID, c.authenticatedAt, now);
      if switched.Err? {
        return Err(switched.error);
      }
      sessions := I.UpdateSession(sessions, resumed.value.id, s.Value());
      r := Ok(Some(I.Resumed(resumed.value.id, s.Value())));
    }

    /** The transaction of authorize: it does what the function says, or fails and leaves the tables alone. */
    method AuthorizeAuthenticated(env: I.Env, req: I.Request, resumed: Option<I.Resumed>, now: I.Time)
      returns (r: Result<I.Answer, I.Error>)
      modifies this
      ensures
        match I.AuthorizeAuthenticated(clients, env, old(Snapshot()), req, resumed, now)
        case Err(e) => r == Err(e) && Snapshot() == old(Snapshot())
        case Ok(o) => r == Ok(o.answer) && Snapshot() == o.tables
    {
      hide I.SwitchResumed, I.ResolveRequirements, I.GrantRequest;
      var before := Snapshot();
      var client := I.ClientOf(clients, req.ClientID());
      if req.caller.userID !in env.users {
        return Err(I.UserNotFound);
      }
      if !I.UserAllowed(env, req.caller.userID, client) {
        return Err(I.AccessDenied);
      }
      var current := SwitchResumed(env, resumed, req.caller, now);
      if current.Err? {
        Restore(before);
        return Err(current.error);
      }
      var session := if current.value.Some? then Some(current.value.value.session) else None;
      var owed := ResolveRequirements(env, req, session, now);
      if owed.Err? {
        Restore(before);
        return Err(owed.error);
      }
      if I.Any(owed.value.needs) {
        if current.value.Some? {
          return Ok(I.Interact(current.value.value.id));
        }
        sessions := sessions[req.id := I.CreatedSession(req, Some(req.caller.userID), owed.value.needs, now)];
        return Ok(I.Interact(req.id));
      }
      r := GrantRequest(env, req, current.value, owed.value, now);
      if r.Err? {
        Restore(before);
      }
    }
  }
}
