/**
 Every interleaving of authorize calls, interaction steps and the clock. An authorize call reads the
 stored parameters, then the session, and only then runs its transaction, so what it holds may be stale.
 The history says what was asked, proved, consented and granted; nothing ever reads it.
 */
module InteractionRuns {
  import opened Common
  import opened Lists
  import opened Text
  import opened Consent
  import opened Resource
  import opened Interaction

  datatype Call =
    | Opened(req: Request, interaction: string)
    | Bound(req: Request, interaction: string, session: Option<Session>, binding: nat)
    | Closed

  // The request a ticket was first opened with, and whether it or the request it resumed was pushed
  datatype Origin = Origin(params: Params, pushed: bool)

  // A reauthentication proof used up by userID for this interaction while this binding was in force
  datatype Proof = Proof(userID: string, interaction: string, binding: nat)

  // The login of the user when a binding was made, or when the user authenticated in it
  datatype Login = Login(userID: string, binding: nat, authenticatedAt: Time, at: Time)

  // The ticket is the interaction a grant used up, or the request itself when it needed none
  datatype Grant = Grant(
    ticket: string,
    binding: nat,
    userID: string,
    req: Request,
    resolved: Resolved,
    found: Option<seq<string>>,
    authenticatedAt: Time,  // what the granted session says
    at: Time                // when it was granted
  )

  datatype World = World(
    now: Time,
    t: Tables,
    calls: map<string, Call>,         // by request ID
    serial: nat,                      // number of bindings so far
    bindings: map<string, nat>,       // per session, the number of its latest binding or switch
    origins: map<string, Origin>,
    issued: map<string, Token>,       // every token there ever was, as it was issued
    proofs: map<string, Proof>,       // by used-up token
    uses: map<string, Time>,          // when it was used up
    times: set<(Proof, Time)>,        // when the token of a proof was created
    logins: set<Login>,
    consentSteps: set<(string, nat)>, // user and binding of every completed consent step
    choices: set<(string, nat, seq<string>)>, // interaction, binding and scopes left by every consent step
    selections: set<string>,          // interactions whose account was selected
    grants: seq<Grant>
  )

  datatype Action =
    | Open(id: string, interaction: string, params: Params, caller: Caller)
    | Bind(id: string, env: Env)
    | Commit(id: string, env: Env)
    | Complete(interaction: string, env: Env, input: StepInput)
    | IssueToken(token: string, userID: string, expiresAt: Time)
    | Drop(interaction: string)  // cleanup, or the user was deleted
    | Advance(elapsed: nat)

  function SetCall(w: World, id: string, call: Call): World {
    w.(calls := w.calls[id := call])
  }

  function Close(w: World, id: string): World {
    SetCall(w, id, Closed)
  }

  function BindingOf(w: World, i: string): nat {
    if i in w.bindings then w.bindings[i] else 0
  }

  function Enter(w: World, req: Request, interaction: string, pushed: bool): World {
    w.(calls := w.calls[req.id := Opened(req, interaction)],
       origins := w.origins[req.id := Origin(req.params, pushed)])
  }

  function OpenStep(clients: Clients, w: World, id: string, interaction: string, params: Params, c: Caller): World {
    var stored := GetSession(w.t.sessions, interaction, w.now);
    var actual := if interaction == "" then params else if stored.Some? then Rebuilt(stored.value.params) else map[];
    var pushed := c.pushed || (interaction in w.origins && w.origins[interaction].pushed);
    if id == "" || id in w.calls || Param(actual, "client_id") !in clients || (interaction != "" && stored.None?) then w
    else Enter(w, Request(id, actual, c), interaction, if interaction == "" then c.pushed else pushed)
  }

  // A request without a signed-in user leaves a session under its own ID
  function Store(w: World, id: string, created: Session): World {
    w.(calls := w.calls[id := Closed], t := w.t.(sessions := w.t.sessions[id := created]),
       bindings := w.bindings[id := w.serial], serial := w.serial + 1)
  }

  function BindStep(clients: Clients, w: World, id: string, env: Env): World {
    if id !in w.calls || !w.calls[id].Opened? then w
    else
      var Opened(req, i) := w.calls[id];
      match OpenAuthorize(clients, env, w.t.sessions, i, req, w.now)
      case Err(_) => Close(w, id)
      case Ok(Proceed(session)) => SetCall(w, id, Bound(req, i, session, BindingOf(w, i)))
      case Ok(AskLogin(created)) => Store(w, id, created)
  }

  function ResumedBy(call: Call): Option<Resumed>
    requires call.Bound?
  {
    if call.session.Some? then Some(Resumed(call.interaction, call.session.value)) else None
  }

  // The interaction a transaction works for
  function TicketOf(call: Call): string
    requires call.Bound?
  {
    if call.session.Some? then call.interaction else call.req.id
  }

  // A transaction that binds its user anew takes the next number
  predicate Anew(call: Call)
    requires call.Bound?
  {
    call.session.None? || Switches(ResumedBy(call), call.req.caller.userID)
  }

  // The history of a token that is used up
  function TimesOf(w: World, token: string, p: Proof): set<(Proof, Time)> {
    if token in w.t.tokens then {(p, w.t.tokens[token].createdAt)} else {}
  }

  function LoginOf(userID: string, binding: nat, authenticatedAt: Option<Time>, now: Time): set<Login> {
    if authenticatedAt.Some? then {Login(userID, binding, authenticatedAt.value, now)} else {}
  }

  function Finished(w: World, id: string, call: Call, o: Outcome): World
    requires call.Bound?
  {
    var c, ticket := call.req.caller, TicketOf(call);
    var binding := if Anew(call) then w.serial else call.binding;
    w.(calls := w.calls[id := Closed], t := o.tables, serial := w.serial + 1,
       bindings := if Anew(call) then w.bindings[ticket := binding] else w.bindings,
       proofs := if o.consumed then w.proofs[c.token := Proof(c.userID, ticket, binding)] else w.proofs,
       uses := if o.consumed then w.uses[c.token := w.now] else w.uses,
       times := if o.consumed then w.times + TimesOf(w, c.token, Proof(c.userID, ticket, binding)) else w.times,
       logins := if Anew(call) then w.logins + LoginOf(c.userID, binding, c.authenticatedAt, w.now) else w.logins,
       grants := match o.answer
         case Interact(_) => w.grants
         case Granted(resolved, found, time) =>
           w.grants + [Grant(ticket, binding, c.userID, call.req, resolved, found, time, w.now)])
  }

  function CommitStep(clients: Clients, w: World, id: string, env: Env): World {
    if id !in w.calls || !w.calls[id].Bound? then w
    else
      var call := w.calls[id];
      match AuthorizeAuthenticated(clients, env, w.t, call.req, ResumedBy(call), w.now)
      case Err(_) => Close(w, id)
      case Ok(o) => Finished(w, id, call, o)
  }

  // A completed step binds anew when it switches the user or selects an account
  predicate Rebinds(s: Session, x: StepInput) {
    IsOther(s, x.userID) || x.step == SelectAccount
  }

  predicate Accepts(clients: Clients, w: World, i: string, env: Env, x: StepInput) {
    var r := CompleteStep(clients, env, w.t, i, x, w.now);
    r.Ok? && r.value.Stepped?
  }

  // It is then, or when the user authenticates, that the user's login is looked at
  predicate LooksAtLogin(s: Session, x: StepInput) {
    Rebinds(s, x) || x.step == Authenticate
  }

  function Completed(w: World, i: string, x: StepInput, tables: Tables, binding: nat): World {
    w.(t := tables, serial := w.serial + 1, bindings := w.bindings[i := binding],
       proofs := if x.step == Reauthenticate then w.proofs[x.token := Proof(x.userID, i, binding)] else w.proofs,
       uses := if x.step == Reauthenticate then w.uses[x.token := w.now] else w.uses,
       times := if x.step == Reauthenticate then w.times + TimesOf(w, x.token, Proof(x.userID, i, binding)) else w.times,
       logins := if i in w.t.sessions && LooksAtLogin(w.t.sessions[i], x)
                 then w.logins + LoginOf(x.userID, binding, x.authenticatedAt, w.now) else w.logins,
       consentSteps := if x.step == GiveConsent then w.consentSteps + {(x.userID, binding)} else w.consentSteps,
       choices := if x.step == GiveConsent && i in tables.sessions
                  then w.choices + {(i, binding, tables.sessions[i].scopes)} else w.choices,
       selections := if x.step == SelectAccount then w.selections + {i} else w.selections)
  }

  function CompleteInteraction(clients: Clients, w: World, i: string, env: Env, x: StepInput): World {
    if !Accepts(clients, w, i, env, x) then w
    else
      Completed(w, i, x, CompleteStep(clients, env, w.t, i, x, w.now).value.tables,
                if Rebinds(w.t.sessions[i], x) then w.serial else BindingOf(w, i))
  }

  function Issue(w: World, token: string, t: Token): World {
    w.(t := w.t.(tokens := w.t.tokens[token := t]), issued := w.issued[token := t])
  }

  function Step(clients: Clients, w: World, a: Action): World {
    match a
    case Open(id, interaction, params, caller) => OpenStep(clients, w, id, interaction, params, caller)
    case Bind(id, env) => BindStep(clients, w, id, env)
    case Commit(id, env) => CommitStep(clients, w, id, env)
    case Complete(i, env, x) => CompleteInteraction(clients, w, i, env, x)
    case IssueToken(token, userID, expiresAt) =>
      // Tokens are fresh random values
      if token in w.proofs || token in w.issued then w else Issue(w, token, Token(userID, w.now, expiresAt))
    case Drop(i) => w.(t := w.t.(sessions := w.t.sessions - {i}))
    case Advance(elapsed) => w.(now := w.now + elapsed)
  }

  function Run(clients: Clients, w: World, actions: seq<Action>): World
    decreases |actions|
  {
    if |actions| == 0 then w else Run(clients, Step(clients, w, actions[0]), actions[1..])
  }

  function Start(now: Time, consents: Rows): World {
    World(now, Tables(map[], consents, map[]), map[], 0, map[], map[], map[], map[], map[], {}, {}, {}, {}, {}, [])
  }

  // ---------------------------------------------------------------- what a ticket inherits

  ghost predicate SameButScope(p: Params, q: Params) {
    forall key :: key != "scope" ==> Param(p, key) == Param(q, key)
  }

  // Scopes may only have been taken away, and never openid
  predicate NarrowedFrom(scopes: seq<string>, original: seq<string>) {
    Subsequence(scopes, original) && ("openid" in original ==> "openid" in scopes)
  }

  ghost predicate Inherits(params: Params, origin: Origin) {
    SameButScope(params, origin.params) && NarrowedFrom(ScopesOf(params), ScopesOf(origin.params))
  }

  // ---------------------------------------------------------------- what the history proves

  predicate Authorized(clients: Clients, w: World, q: Asked, userID: string) {
    ClientOf(clients, q.clientID).skipConsent || HasAuthorized(w.t.consents, q.clientID, userID, q.Keys())
  }

  ghost predicate Proven(w: World, p: Proof) {
    exists token :: token in w.proofs && w.proofs[token] == p
  }

  // The user's login was recent enough for max_age when it was looked at in this binding
  ghost predicate FreshLogin(w: World, userID: string, binding: nat, maxAge: string) {
    exists l :: l in w.logins && l.userID == userID && l.binding == binding
                && DueByMaxAge(maxAge, Some(l.authenticatedAt), l.at) == Ok(false)
  }

  // No reauthentication is open: the proof is there, or none was asked for
  ghost predicate Vouched(clients: Clients, w: World, q: Asked, p: Proof) {
    var maxAge := Param(q.params, "max_age");
    || Proven(w, p)
    || (!LoginDemanded(clients, q) && (maxAge != "" ==> FreshLogin(w, p.userID, p.binding, maxAge)))
  }

  // A bound user owes nothing they have not done in this binding
  ghost predicate DebtsRecorded(clients: Clients, w: World, i: string, s: Session, binding: nat) {
    var q := AskedBy(s);
    s.userID.Some? ==>
      && s.userID.value != "" && MaxAgeParses(s.params)
      && (!s.needs.consent ==>
            && Authorized(clients, w, q, s.userID.value)
            && (PromptHas(s.params, "consent") ==> (s.userID.value, binding) in w.consentSteps))
      && (!s.needs.reauthentication ==> Vouched(clients, w, q, Proof(s.userID.value, i, binding)))
  }

  // A remembered reauthentication is this user's, in this binding
  ghost predicate TimeRecorded(w: World, i: string, s: Session, binding: nat) {
    s.reauthenticatedAt.Some? ==>
      s.userID.Some? && (Proof(s.userID.value, i, binding), s.reauthenticatedAt.value) in w.times
  }

  ghost predicate Lineage(clients: Clients, w: World, i: string, s: Session) {
    && i in w.origins
    && s.clientID == Param(s.params, "client_id")
    && s.scopes == ScopesOf(s.params)
    && Inherits(s.params, w.origins[i])
    && (ClientOf(clients, s.clientID).requiresPar ==> w.origins[i].pushed)
    && (ClientOf(clients, s.clientID).requiresPkce ==> Param(s.params, "code_challenge") != "")
  }

  ghost predicate SessionOk(clients: Clients, w: World, i: string, s: Session, binding: nat) {
    && Lineage(clients, w, i, s)
    && binding < w.serial
    && (s.needs.authentication <==> s.userID.None?)
    && (PromptHas(s.params, "select_account") && !s.needs.selection ==> i in w.selections)
    && DebtsRecorded(clients, w, i, s, binding)
    && TimeRecorded(w, i, s, binding)
  }

  // The authentication time of a grant is that of a proof in its binding, or of the granting call's own login
  ghost predicate TimeIsGenuine(w: World, p: Proof, own: Option<Time>, authenticatedAt: Time, at: Time) {
    (p, authenticatedAt) in w.times || authenticatedAt == if own.Some? then own.value else at
  }

  /**
   What every grant rests on: a consent given before the granting call, a proof and a consent step of the
   same user in the same binding where the request demands them, and a request no wider than the original.
   */
  ghost predicate Justified(clients: Clients, w: World, g: Grant) {
    var q := g.req.Query();
    && (ClientOf(clients, q.clientID).skipConsent || (g.found.Some? && Includes(g.found.value, q.Keys())))
    && (PromptHas(q.params, "consent") ==> (g.userID, g.binding) in w.consentSteps)
    && Vouched(clients, w, q, Proof(g.userID, g.ticket, g.binding))
    && TimeIsGenuine(w, Proof(g.userID, g.ticket, g.binding), g.req.caller.authenticatedAt, g.authenticatedAt, g.at)
    && (PromptHas(q.params, "select_account") ==> g.ticket in w.selections)
    && g.ticket in w.origins
    && (ClientOf(clients, q.clientID).requiresPar ==> w.origins[g.ticket].pushed)
    && (ClientOf(clients, q.clientID).requiresPkce ==> Param(q.params, "code_challenge") != "")
    && Inherits(q.params, w.origins[g.ticket])
    && g.resolved == Resolved(AudienceOf(q.clientID, q.Resource()), Dedup(q.scopes))
    && HasAuthorized(w.t.consents, q.clientID, g.userID, q.Keys())
  }

  ghost predicate RequestOk(w: World, id: string, req: Request, i: string) {
    && req.id == id && id in w.origins && w.origins[id].params == req.params
    && (if i == "" then w.origins[id].pushed == req.caller.pushed
        else i in w.origins && Inherits(req.params, w.origins[i]) && (w.origins[i].pushed ==> w.origins[id].pushed))
  }

  ghost predicate CallOk(clients: Clients, w: World, id: string, call: Call) {
    match call
    case Closed => true
    case Opened(req, i) => RequestOk(w, id, req, i)
    case Bound(req, i, session, binding) =>
      && RequestOk(w, id, req, i)
      && req.caller.userID != ""
      && (session.None? <==> i == "")
      && (session.None? && ClientOf(clients, req.ClientID()).requiresPar ==> req.caller.pushed)
      && (ClientOf(clients, req.ClientID()).requiresPkce ==> Param(req.params, "code_challenge") != "")
      && (session.Some? ==>
            && SessionOk(clients, w, i, session.value, binding)
            && session.value.clientID == req.ClientID()
            && (forall scope :: scope in ScopesOf(req.params) ==> scope in session.value.scopes)
            && i in w.calls && w.calls[i].Closed?)
  }

  // A ticket is used once: by the session its own request created, or by the grant that ended it
  ghost predicate TicketsOk(w: World) {
    && (forall i :: i in w.t.sessions ==> i in w.calls && w.calls[i].Closed?)
    && (forall n :: 0 <= n < |w.grants| ==>
          w.grants[n].ticket in w.calls && w.calls[w.grants[n].ticket].Closed? && w.grants[n].ticket !in w.t.sessions)
    && (forall m, n :: 0 <= m < n < |w.grants| ==> w.grants[m].ticket != w.grants[n].ticket)
  }

  ghost predicate NumbersOk(w: World) {
    && w.proofs.Keys !! w.t.tokens.Keys
    && (forall token :: token in w.proofs ==> w.proofs[token].binding < w.serial)
    && (forall p :: p in w.consentSteps ==> p.1 < w.serial)
    && "" !in w.t.sessions && "" !in w.calls
    && w.origins.Keys <= w.calls.Keys
  }

  ghost predicate SessionsOk(clients: Clients, w: World) {
    forall i :: i in w.t.sessions ==> i in w.bindings && SessionOk(clients, w, i, w.t.sessions[i], w.bindings[i])
  }

  ghost predicate CallsOk(clients: Clients, w: World) {
    forall id :: id in w.calls ==> CallOk(clients, w, id, w.calls[id])
  }

  ghost predicate GrantsOk(clients: Clients, w: World) {
    forall n :: 0 <= n < |w.grants| ==> Justified(clients, w, w.grants[n])
  }

  ghost predicate Inv(clients: Clients, w: World) {
    SessionsOk(clients, w) && CallsOk(clients, w) && GrantsOk(clients, w) && TicketsOk(w) && NumbersOk(w)
  }

  // ---------------------------------------------------------------- facts that stay true

  ghost predicate Remembers(w: World, w': World) {
    && w.serial <= w'.serial
    && (forall i :: i in w.origins ==> i in w'.origins && w'.origins[i] == w.origins[i])
    && (forall token :: token in w.proofs ==> token in w'.proofs && w'.proofs[token] == w.proofs[token])
    && w.consentSteps <= w'.consentSteps
    && w.selections <= w'.selections
    && w.times <= w'.times && w.logins <= w'.logins
    && Grows(w.t.consents, w'.t.consents)
    && (forall id :: id in w.calls && w.calls[id].Closed? ==> id in w'.calls && w'.calls[id].Closed?)
  }

  lemma ProvenStays(w: World, w': World, p: Proof)
    requires Remembers(w, w') && Proven(w, p)
    ensures Proven(w', p)
  {
  }

  lemma VouchedStays(clients: Clients, w: World, w': World, q: Asked, p: Proof)
    requires Remembers(w, w') && Vouched(clients, w, q, p)
    ensures Vouched(clients, w', q, p)
  {
    if Proven(w, p) {
      ProvenStays(w, w', p);
    }
  }

  lemma AuthorizedStays(clients: Clients, w: World, w': World, q: Asked, userID: string)
    requires Remembers(w, w') && Authorized(clients, w, q, userID)
    ensures Authorized(clients, w', q, userID)
  {
  }

  lemma SessionOkStays(clients: Clients, w: World, w': World, i: string, s: Session, binding: nat)
    requires Remembers(w, w') && SessionOk(clients, w, i, s, binding)
    ensures SessionOk(clients, w', i, s, binding)
  {
  }

  lemma CallOkStays(clients: Clients, w: World, w': World, id: string, call: Call)
    requires Remembers(w, w') && CallOk(clients, w, id, call)
    ensures CallOk(clients, w', id, call)
  {
  }

}
