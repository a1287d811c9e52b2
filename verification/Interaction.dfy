/**
 An authorization request that cannot be granted at once becomes a stored interaction session. Its four
 requirements are met one step at a time, and the resumed request deletes the session and is granted.
 One function per operation says what the operation makes of the session and of the tables.
 */
module Interaction {
  import opened Common
  import opened Lists
  import opened Text
  import opened Consent
  import opened Resource
  import ApiTables

  type Time = int  // nanoseconds

  const SECOND: Time := 1_000_000_000
  const SESSION_LIFETIME: Time := 3600 * SECOND

  datatype Client = Client(
    skipConsent: bool,
    requiresReauthentication: bool,
    requiresPar: bool,
    requiresPkce: bool,
    allowedGroups: Option<set<string>>  // None: not restricted
  )

  type Clients = map<string, Client>

  const NO_CLIENT := Client(false, false, false, false, None)

  function ClientOf(clients: Clients, id: string): Client {
    if id in clients then clients[id] else NO_CLIENT
  }

  // Everything else a request reads: users with their groups, and how the API tables answer
  datatype Env = Env(
    users: map<string, set<string>>,
    lookup: (string, string) -> Lookup,
    isResourceUri: string -> bool
  )

  datatype Error =
    | LoginRequired
    | ConsentRequiredError
    | InvalidRequest
    | AccessDenied
    | ParRequired
    | UserNotFound
    | InteractionNotFound
    | Denied(denial: Denial)
    | UnexpectedStep(expected: Step)
    | ScopeNotRequested(scope: string)
    | MissingToken
    | ReauthenticationRequired

  type Params = map<string, string>

  function Param(params: Params, key: string): string {
    if key in params then params[key] else ""
  }

  predicate PromptHas(params: Params, value: string) {
    value in Fields(Param(params, "prompt"))
  }

  function ScopesOf(params: Params): seq<string> {
    SplitScopes(Param(params, "scope"))
  }

  // ---------------------------------------------------------------- sessions

  datatype Step = Authenticate | SelectAccount | Reauthenticate | GiveConsent

  datatype Requirements = Requirements(consent: bool, reauthentication: bool, authentication: bool, selection: bool)

  predicate Any(needs: Requirements) {
    needs.consent || needs.reauthentication || needs.authentication || needs.selection
  }

  datatype Session = Session(
    clientID: string,
    userID: Option<string>,
    scopes: seq<string>,
    params: Params,
    needs: Requirements,
    createdAt: Time,
    reauthenticatedAt: Option<Time>  // when the proof of a completed reauthentication step was created
  )

  // The steps still to do, in order
  function RequiredSteps(needs: Requirements): seq<Step> {
    (if needs.authentication then [Authenticate] else [])
    + (if needs.selection then [SelectAccount] else [])
    + (if needs.reauthentication then [Reauthenticate] else [])
    + (if needs.consent then [GiveConsent] else [])
  }

  // ---------------------------------------------------------------- requirements

  predicate ConsentRequired(authorized: bool, skips: bool, params: Params) {
    PromptHas(params, "consent") || (!authorized && !skips)
  }

  // Whoever logged in and when, the parameter is accepted
  predicate MaxAgeParses(params: Params) {
    DueByMaxAge(Param(params, "max_age"), None, 0).Ok?
  }

  lemma MaxAgeParsesForAll(params: Params, authenticatedAt: Option<Time>, now: Time)
    ensures MaxAgeParses(params) <==> DueByMaxAge(Param(params, "max_age"), authenticatedAt, now).Ok?
  {
  }

  // max_age of section 3.1.2.1 of OpenID Connect Core 1.0; the addition is done with 64-bit durations
  function DueByMaxAge(raw: string, authenticatedAt: Option<Time>, now: Time): Result<bool, Error> {
    if raw == "" then Ok(false)
    else
      match ParseInt(raw)
      case None => Err(InvalidRequest)
      case Some(maxAge) =>
        if maxAge < 0 then Err(InvalidRequest)
        else if authenticatedAt.None? then Ok(true)
        else Ok(now >= authenticatedAt.value + WrapInt64(maxAge * SECOND))
  }

  function ResolveGrant(env: Env, clientID: string, resource: string, scopes: seq<string>): Result<Resolved, Denial> {
    Resolve(env.isResourceUri(resource), env.lookup(clientID, AudienceOf(clientID, resource)),
            clientID, resource, scopes, ApiTables.User)
  }

  // What is asked for: a new request, or the request a session was created from
  datatype Asked = Asked(clientID: string, params: Params, scopes: seq<string>) {
    function Resource(): string {
      Param(params, "resource")
    }

    function Keys(): seq<string> {
      RequestKeys(clientID, Resource(), scopes)
    }
  }

  // A login that only a reauthentication proof satisfies
  predicate LoginDemanded(clients: Clients, q: Asked) {
    PromptHas(q.params, "login") || ClientOf(clients, q.clientID).requiresReauthentication
  }

  function RequirementsFor(clients: Clients, env: Env, consents: Rows, q: Asked, userID: string,
                           authenticatedAt: Option<Time>, now: Time)
    : (r: Result<Requirements, Error>)
    ensures r.Ok? ==>
      && r.value.selection == PromptHas(q.params, "select_account") && !r.value.authentication
      && DueByMaxAge(Param(q.params, "max_age"), authenticatedAt, now).Ok?
      && (r.value.reauthentication <==>
            LoginDemanded(clients, q) || DueByMaxAge(Param(q.params, "max_age"), authenticatedAt, now).value)
      && (r.value.consent <==>
            || PromptHas(q.params, "consent")
            || (!ClientOf(clients, q.clientID).skipConsent && !HasAuthorized(consents, q.clientID, userID, q.Keys())))
  {
    var client := ClientOf(clients, q.clientID);
    match ResolveGrant(env, q.clientID, q.Resource(), q.scopes)
    case Err(d) => Err(Denied(d))
    case Ok(g) =>
      var authorized := HasAuthorized(consents, q.clientID, userID, KeysForGrant(g.audience, q.Resource(), g.scopes));
      match DueByMaxAge(Param(q.params, "max_age"), authenticatedAt, now)
      case Err(e) => Err(e)
      case Ok(due) =>
        Ok(Requirements(ConsentRequired(authorized, client.skipConsent, q.params),
                        PromptHas(q.params, "login") || client.requiresReauthentication || due,
                        false,
                        PromptHas(q.params, "select_account")))
  }

  // ---------------------------------------------------------------- changes to a session

  function AskedBy(s: Session): Asked {
    Asked(s.clientID, s.params, s.scopes)
  }

  function BindUser(s: Session, userID: string): Result<Session, Error> {
    if userID == "" then Err(LoginRequired)
    else if s.userID.Some? && s.userID.value != userID then Err(InvalidRequest)
    else Ok(s.(userID := Some(userID)))
  }

  // A switch recomputes what the new user owes and keeps only the account selection
  function SwitchUser(clients: Clients, env: Env, consents: Rows, s: Session, userID: string,
                      authenticatedAt: Option<Time>, now: Time): Result<Session, Error>
  {
    if userID == "" then Err(LoginRequired)
    else
      match RequirementsFor(clients, env, consents, AskedBy(s), userID, authenticatedAt, now)
      case Err(e) => Err(e)
      case Ok(r) =>
        Ok(s.(userID := Some(userID), reauthenticatedAt := None,
              needs := Requirements(r.consent, r.reauthentication, false, s.needs.selection)))
  }

  predicate IsOther(s: Session, userID: string) {
    s.userID.Some? && s.userID.value != userID
  }

  // After authentication, requirements are only added
  function AuthenticateUser(clients: Clients, env: Env, consents: Rows, s: Session, userID: string,
                            authenticatedAt: Option<Time>, now: Time): Result<Session, Error>
  {
    match BindUser(s, userID)
    case Err(e) => Err(e)
    case Ok(b) =>
      match RequirementsFor(clients, env, consents, AskedBy(b), userID, authenticatedAt, now)
      case Err(e) => Err(e)
      case Ok(r) =>
        Ok(b.(needs := Requirements(b.needs.consent || r.consent, b.needs.reauthentication || r.reauthentication,
                                    false, b.needs.selection || r.selection)))
  }

  const REQUIRED_SCOPES: seq<string> := ["openid"]

  function KeepApproved(requested: seq<string>, approved: seq<string>): (r: seq<string>)
    ensures Subsequence(r, requested)
    ensures forall s :: s in r <==> s in requested && (s in approved || s in REQUIRED_SCOPES)
    decreases |requested|
  {
    if requested == [] then []
    else
      var s, kept := Last(requested), KeepApproved(Init(requested), approved);
      assert requested == Init(requested) + [s];
      if s in approved || s in REQUIRED_SCOPES then
        assert Init(kept + [s]) == kept;
        kept + [s]
      else kept
  }

  // The first approved scope nobody asked for, if any
  function FirstUnrequested(requested: seq<string>, approved: seq<string>): (r: Option<string>)
    ensures r == None <==> forall s :: s in approved ==> s in requested
  {
    if approved == [] then None
    else if approved[0] !in requested then Some(approved[0])
    else FirstUnrequested(requested, approved[1..])
  }

  function Narrow(requested: seq<string>, approved: Option<seq<string>>): Result<seq<string>, Error> {
    if approved.None? then Ok(requested)
    else
      match FirstUnrequested(requested, approved.value)
      case Some(scope) => Err(ScopeNotRequested(scope))
      case None => Ok(KeepApproved(requested, approved.value))
  }

  // The stored scope parameter is rewritten too, because the resumed request is built from it
  function NarrowSession(s: Session, approved: Option<seq<string>>): Result<Session, Error> {
    if approved.None? then Ok(s)
    else
      match Narrow(s.scopes, approved)
      case Err(e) => Err(e)
      case Ok(narrowed) => Ok(s.(scopes := narrowed, params := s.params["scope" := JoinScopes(narrowed)]))
  }

  // ---------------------------------------------------------------- tables

  datatype Token = Token(userID: string, createdAt: Time, expiresAt: Time)

  datatype Tables = Tables(
    sessions: map<string, Session>,
    consents: Rows,
    tokens: map<string, Token>  // reauthentication proofs not used yet
  )

  function GetSession(sessions: map<string, Session>, id: string, now: Time): Option<Session> {
    if id in sessions && now - sessions[id].createdAt <= SESSION_LIFETIME then Some(sessions[id]) else None
  }

  // Rewrites the columns a step may change; a missing row is not an error
  function UpdateSession(sessions: map<string, Session>, id: string, s: Session): map<string, Session> {
    if id in sessions then
      sessions[id := s.(clientID := sessions[id].clientID, createdAt := sessions[id].createdAt)]
    else sessions
  }

  predicate TokenValid(tokens: map<string, Token>, token: string, userID: string, now: Time) {
    token in tokens && tokens[token].userID == userID && tokens[token].expiresAt > now
  }

  // ---------------------------------------------------------------- completing a step

  // The user who completes it, and what they bring along
  datatype StepInput = StepInput(
    userID: string, step: Step, approved: Option<seq<string>>, token: string, authenticatedAt: Option<Time>)

  // The session and the rows a step touches
  datatype Applied = Applied(session: Session, consents: Rows, tokens: map<string, Token>)

  function ApplyReauthentication(t: Tables, s: Session, x: StepInput, now: Time): Result<Applied, Error> {
    match BindUser(s, x.userID)
    case Err(e) => Err(e)
    case Ok(b) =>
      if x.token == "" then Err(MissingToken)
      else if !TokenValid(t.tokens, x.token, x.userID, now) then Err(ReauthenticationRequired)
      else
        Ok(Applied(b.(needs := b.needs.(reauthentication := false), reauthenticatedAt := Some(t.tokens[x.token].createdAt)),
                   t.consents, t.tokens - {x.token}))
  }

  function ApplyConsent(env: Env, t: Tables, s: Session, x: StepInput): Result<Applied, Error> {
    match BindUser(s, x.userID)
    case Err(e) => Err(e)
    case Ok(b) =>
      match NarrowSession(b, x.approved)
      case Err(e) => Err(e)
      case Ok(n) =>
        match ResolveGrant(env, n.clientID, AskedBy(n).Resource(), n.scopes)
        case Err(d) => Err(Denied(d))
        case Ok(g) =>
          var keys := KeysForGrant(g.audience, AskedBy(n).Resource(), g.scopes);
          Ok(Applied(n.(needs := n.needs.(consent := false)), Record(t.consents, n.clientID, x.userID, keys), t.tokens))
  }

  function ApplyStep(clients: Clients, env: Env, t: Tables, s: Session, x: StepInput,
          now: Time): Result<Applied, Error> {
    match x.step
    case Authenticate =>
      (match AuthenticateUser(clients, env, t.consents, s, x.userID, x.authenticatedAt, now)
       case Err(e) => Err(e)
       case Ok(b) => Ok(Applied(b, t.consents, t.tokens)))
    case SelectAccount =>
      (match SwitchUser(clients, env, t.consents, s, x.userID, x.authenticatedAt, now)
       case Err(e) => Err(e)
       case Ok(b) => Ok(Applied(b.(needs := b.needs.(selection := false)), t.consents, t.tokens)))
    case Reauthenticate => ApplyReauthentication(t, s, x, now)
    case GiveConsent => ApplyConsent(env, t, s, x)
  }

  // A session bound to somebody else is switched first, in memory
  function SessionFor(clients: Clients, env: Env, t: Tables, s: Session, x: StepInput,
          now: Time): Result<Session, Error> {
    if IsOther(s, x.userID) then SwitchUser(clients, env, t.consents, s, x.userID, x.authenticatedAt, now) else Ok(s)
  }

  datatype Completion =
    | NothingLeft               // every step was done before: nothing is written, not even the switch
    | Stepped(tables: Tables)

  function CompleteStep(clients: Clients, env: Env, t: Tables, id: string, x: StepInput,
          now: Time): Result<Completion, Error> {
    match GetSession(t.sessions, id, now)
    case None => Err(InteractionNotFound)
    case Some(stored) =>
      match SessionFor(clients, env, t, stored, x, now)
      case Err(e) => Err(e)
      case Ok(s) =>
        var steps := RequiredSteps(s.needs);
        if x.userID == "" then Err(LoginRequired)
        else if steps == [] then Ok(NothingLeft)
        else if steps[0] != x.step then Err(UnexpectedStep(steps[0]))
        else
          match ApplyStep(clients, env, t, s, x, now)
          case Err(e) => Err(e)
          case Ok(a) => Ok(Stepped(Tables(UpdateSession(t.sessions, id, a.session), a.consents, a.tokens)))
  }

  // ---------------------------------------------------------------- authorizing

  // The caller of the authorize endpoint; userID is empty when nobody is signed in
  datatype Caller = Caller(userID: string, authenticatedAt: Option<Time>, token: string, pushed: bool)

  // Request IDs are fresh and become the ID of the session a request creates
  datatype Request = Request(id: string, params: Params, caller: Caller) {
    function ClientID(): string {
      Param(params, "client_id")
    }

    function Query(): Asked {
      Asked(ClientID(), params, ScopesOf(params))
    }
  }

  // A resumed request is rebuilt from the stored parameters
  function Rebuilt(params: Params): Params {
    map k | k in params && params[k] != "" :: params[k]
  }

  function ValidateBinding(s: Session, req: Request): Option<Error> {
    if s.clientID != req.ClientID() then Some(InvalidRequest)
    else if s.userID.Some? && req.caller.userID == "" then Some(LoginRequired)
    else if exists scope :: scope in ScopesOf(req.params) && scope !in s.scopes then Some(InvalidRequest)
    else None
  }

  function BoundSession(sessions: map<string, Session>, interaction: string, req: Request, now: Time)
    : Result<Option<Session>, Error>
  {
    if interaction == "" then Ok(None)
    else
      match GetSession(sessions, interaction, now)
      case None => Err(InvalidRequest)
      case Some(s) =>
        match ValidateBinding(s, req)
        case Some(e) => Err(e)
        case None => Ok(Some(s))
  }

  // Before anybody is signed in, every failure of a request that names a resource looks the same
  function Preflight(env: Env, q: Asked): Option<Error> {
    match ResolveGrant(env, q.clientID, q.Resource(), q.scopes)
    case Ok(_) => None
    case Err(d) => Some(if q.Resource() != "" then InvalidRequest else Denied(d))
  }

  datatype Opening =
    | Proceed(session: Option<Session>)  // the user is known, the transaction follows
    | AskLogin(created: Session)

  function CreatedSession(req: Request, userID: Option<string>, needs: Requirements, now: Time): Session {
    Session(req.ClientID(), userID, ScopesOf(req.params), req.params, needs, now, None)
  }

  // The part of authorize before its transaction
  function OpenAuthorize(clients: Clients, env: Env, sessions: map<string, Session>, interaction: string,
          req: Request, now: Time)
    : Result<Opening, Error>
  {
    var client := ClientOf(clients, req.ClientID());
    if client.requiresPkce && Param(req.params, "code_challenge") == "" then Err(InvalidRequest)
    else
      match BoundSession(sessions, interaction, req, now)
      case Err(e) => Err(e)
      case Ok(session) =>
        if client.requiresPar && !req.caller.pushed && session.None? then Err(ParRequired)
        else
          match Preflight(env, req.Query())
          case Some(e) => Err(e)
          case None =>
            if req.caller.userID != "" then Ok(Proceed(session))
            else if PromptHas(req.params, "none") then Err(LoginRequired)
            else
              Ok(AskLogin(CreatedSession(req, None,
                                         Requirements(PromptHas(req.params, "consent"), LoginDemanded(clients, req.Query()),
                                                      true, PromptHas(req.params, "select_account")), now)))
  }

  predicate UserAllowed(env: Env, userID: string, client: Client) {
    userID in env.users && (client.allowedGroups.Some? ==> client.allowedGroups.value * env.users[userID] != {})
  }

  // What is still required of the user, whether a reauthentication proof was used up on the way, and the
  // time of the login a grant will be for
  datatype Owed = Owed(needs: Requirements, consumed: bool, authenticatedAt: Option<Time>)

  function ResolveRequirements(clients: Clients, env: Env, t: Tables, req: Request, session: Option<Session>, now: Time)
    : Result<Owed, Error>
  {
    match RequirementsFor(clients, env, t.consents, req.Query(), req.caller.userID, req.caller.authenticatedAt, now)
    case Err(e) => Err(e)
    case Ok(own) =>
      var needs := if session.Some? then session.value.needs else own;
      var at := if session.Some? && session.value.reauthenticatedAt.Some? then session.value.reauthenticatedAt
                else req.caller.authenticatedAt;
      if PromptHas(req.params, "none") && needs.consent then Err(ConsentRequiredError)
      else if PromptHas(req.params, "none") && needs.reauthentication then Err(LoginRequired)
      else if needs.reauthentication && req.caller.token != ""
              && TokenValid(t.tokens, req.caller.token, req.caller.userID, now) then
        Ok(Owed(needs.(reauthentication := false), true, Some(t.tokens[req.caller.token].createdAt)))
      else Ok(Owed(needs, false, at))
  }

  datatype Answer =
    | Interact(id: string)
    // With the consent row as it was before, and the authentication time of the session it is granted with
    | Granted(resolved: Resolved, found: Option<seq<string>>, authenticatedAt: Time)

  datatype Outcome = Outcome(tables: Tables, consumed: bool, answer: Answer)

  // The session a request resumes
  datatype Resumed = Resumed(id: string, session: Session)

  predicate Switches(resumed: Option<Resumed>, userID: string) {
    resumed.Some? && IsOther(resumed.value.session, userID)
  }

  function SwitchResumed(clients: Clients, env: Env, t: Tables, resumed: Option<Resumed>, c: Caller, now: Time)
    : Result<(Tables, Option<Resumed>), Error>
  {
    if !Switches(resumed, c.userID) then Ok((t, resumed))
    else
      match SwitchUser(clients, env, t.consents, resumed.value.session, c.userID, c.authenticatedAt, now)
      case Err(e) => Err(e)
      case Ok(s) =>
        Ok((t.(sessions := UpdateSession(t.sessions, resumed.value.id, s)), Some(Resumed(resumed.value.id, s))))
  }

  // Deletes the session, which must still be there, and records the consent; an unknown time is now
  function GrantRequest(env: Env, t: Tables, req: Request, resumed: Option<Resumed>, owed: Owed, now: Time)
    : Result<Outcome, Error>
  {
    var q := req.Query();
    if resumed.Some? && resumed.value.id !in t.sessions then Err(InvalidRequest)
    else
      var sessions := if resumed.Some? then t.sessions - {resumed.value.id} else t.sessions;
      match ResolveGrant(env, q.clientID, q.Resource(), q.scopes)
      case Err(d) => Err(Denied(d))
      case Ok(g) =>
        var pair := (q.clientID, req.caller.userID);
        var keys := KeysForGrant(g.audience, q.Resource(), g.scopes);
        Ok(Outcome(Tables(sessions, Record(t.consents, pair.0, pair.1, keys), t.tokens), owed.consumed,
                   Granted(g, if pair in t.consents then Some(t.consents[pair]) else None,
                           if owed.authenticatedAt.Some? then owed.authenticatedAt.value else now)))
  }

  // The transaction: either the interaction the user still has to complete, or the grant
  function AuthorizeAuthenticated(clients: Clients, env: Env, t: Tables, req: Request, resumed: Option<Resumed>,
          now: Time)
    : Result<Outcome, Error>
  {
    var userID := req.caller.userID;
    if userID !in env.users then Err(UserNotFound)
    else if !UserAllowed(env, userID, ClientOf(clients, req.ClientID())) then Err(AccessDenied)
    else
      match SwitchResumed(clients, env, t, resumed, req.caller, now)
      case Err(e) => Err(e)
      case Ok((t1, current)) =>
        match ResolveRequirements(clients, env, t1, req, if current.Some? then Some(current.value.session) else None, now)
        case Err(e) => Err(e)
        case Ok(owed) =>
          var t2 := if owed.consumed then t1.(tokens := t1.tokens - {req.caller.token}) else t1;
          if !Any(owed.needs) then GrantRequest(env, t2, req, current, owed, now)
          else if current.Some? then Ok(Outcome(t2, owed.consumed, Interact(current.value.id)))
          else
            var created := CreatedSession(req, Some(userID), owed.needs, now);
            Ok(Outcome(t2.(sessions := t2.sessions[req.id := created]), owed.consumed, Interact(req.id)))
  }
}
