/** The authorize transaction keeps the invariant, and so every run is safe. */
module InteractionSafety {
  import opened Common
  import opened Lists
  import opened Text
  import opened Consent
  import opened Resource
  import opened Interaction
  import opened InteractionRuns
  import opened InteractionFrames
  import opened InteractionSteps
  import opened InteractionTokens

  // ---------------------------------------------------------------- when a request may be granted

  // Everything a grant rests on, before the granting call records a consent itself
  ghost predicate Cleared(clients: Clients, w: World, req: Request, ticket: string, binding: nat) {
    var q, userID := req.Query(), req.caller.userID;
    && Authorized(clients, w, q, userID)
    && (PromptHas(q.params, "consent") ==> (userID, binding) in w.consentSteps)
    && Vouched(clients, w, q, Proof(userID, ticket, binding))
    && (PromptHas(q.params, "select_account") ==> ticket in w.selections)
    && ticket in w.origins
    && (ClientOf(clients, q.clientID).requiresPar ==> w.origins[ticket].pushed)
    && (ClientOf(clients, q.clientID).requiresPkce ==> Param(q.params, "code_challenge") != "")
    && Inherits(q.params, w.origins[ticket])
  }

  lemma ResumedGrantIsCleared(clients: Clients, w: World, i: string, s: Session, binding: nat, req: Request)
    requires SessionOk(clients, w, i, s, binding) && RequestOk(w, req.id, req, i) && i != ""
    requires s.clientID == req.ClientID() && forall scope :: scope in ScopesOf(req.params) ==> scope in s.scopes
    requires s.userID == Some(req.caller.userID) && !s.needs.consent && !s.needs.selection
    requires s.needs.reauthentication ==> Proven(w, Proof(req.caller.userID, i, binding))
    requires ClientOf(clients, req.ClientID()).requiresPkce ==> Param(req.params, "code_challenge") != ""
    ensures Cleared(clients, w, req, i, binding)
  {
    var q, larger, userID := req.Query(), AskedBy(s), req.caller.userID;
    RequestResumes(clients, w, i, s, binding, req);
    hide RequestOk, Inherits, SameButScope, RequestKeys, ScopesOf, Fields, Param, Vouched, LoginDemanded, HasAuthorized;
    VouchedWithoutScopes(clients, w, larger, q, Proof(userID, i, binding));
    OtherParamsStay(req.params, s.params);
    if HasAuthorized(w.t.consents, q.clientID, userID, larger.Keys()) {
      FewerScopesStayAuthorized(w.t.consents, larger, q, userID);
    }
  }

  lemma FewerScopesStayAuthorized(rows: Rows, q: Asked, fewer: Asked, userID: string)
    requires HasAuthorized(rows, q.clientID, userID, q.Keys())
    requires fewer.clientID == q.clientID && fewer.Resource() == q.Resource()
    requires forall scope :: scope in fewer.scopes ==> scope in q.scopes
    ensures HasAuthorized(rows, fewer.clientID, userID, fewer.Keys())
  {
    FewerScopesFewerKeys(q.clientID, q.Resource(), fewer.scopes, q.scopes, rows[(q.clientID, userID)]);
  }

  // A resumed request differs from its session in its scopes only
  lemma RequestResumes(clients: Clients, w: World, i: string, s: Session, binding: nat, req: Request)
    requires Lineage(clients, w, i, s) && RequestOk(w, req.id, req, i) && i != ""
    ensures SameButScope(s.params, req.params) && SameButScope(req.params, s.params)
    ensures Inherits(req.params, w.origins[i]) && Param(req.params, "resource") == Param(s.params, "resource")
  {
  }

  lemma FreshGrantIsCleared(clients: Clients, w: World, req: Request, needs: Requirements, binding: nat)
    requires RequestOk(w, req.id, req, "")
    requires ClientOf(clients, req.ClientID()).requiresPar ==> req.caller.pushed
    requires PromptHas(req.params, "select_account") ==> needs.selection
    requires !needs.consent ==> Authorized(clients, w, req.Query(), req.caller.userID) && !PromptHas(req.params, "consent")
    requires !needs.reauthentication ==> Vouched(clients, w, req.Query(), Proof(req.caller.userID, req.id, binding))
    requires !Any(needs)
    requires ClientOf(clients, req.ClientID()).requiresPkce ==> Param(req.params, "code_challenge") != ""
    ensures Cleared(clients, w, req, req.id, binding)
  {
    SubsequenceOfItself(ScopesOf(req.params));
  }

  lemma ClearedIsJustified(clients: Clients, env: Env, w: World, w': World, req: Request, ticket: string,
          binding: nat, resolved: Resolved, time: Time, at: Time)
    requires Cleared(clients, w, req, ticket, binding) && Remembers(w, w')
    requires TimeIsGenuine(w, Proof(req.caller.userID, ticket, binding), req.caller.authenticatedAt, time, at)
    requires ResolveGrant(env, req.ClientID(), req.Query().Resource(), req.Query().scopes) == Ok(resolved)
    requires w'.t.consents == Record(w.t.consents, req.ClientID(), req.caller.userID, req.Query().Keys())
    ensures
      var pair := (req.ClientID(), req.caller.userID);
      var found := if pair in w.t.consents then Some(w.t.consents[pair]) else None;
      Justified(clients, w', Grant(ticket, binding, req.caller.userID, req, resolved, found, time, at))
  {
    VouchedStays(clients, w, w', req.Query(), Proof(req.caller.userID, ticket, binding));
    hide Vouched, Inherits, LoginDemanded, PromptHas;
  }

  // ---------------------------------------------------------------- what a transaction does to the rows

  // The shape of every outcome, whichever way it ends
  ghost predicate Shaped(w: World, id: string, call: Call, o: Outcome) {
    && call.Bound? && id in w.calls && w.calls[id] == call && call.req.id == id
    && (call.session.Some? ==>
          call.interaction in w.calls && w.calls[call.interaction].Closed? && call.binding < w.serial)
    && Grows(w.t.consents, o.tables.consents)
    && (o.consumed ==> call.req.caller.token in w.t.tokens)
    && o.tables.tokens == (if o.consumed then w.t.tokens - {call.req.caller.token} else w.t.tokens)
    && (forall j :: j in o.tables.sessions && j != TicketOf(call) ==>
          j in w.t.sessions && o.tables.sessions[j] == w.t.sessions[j])
    && (call.session.Some? ==> o.tables.sessions.Keys <= w.t.sessions.Keys)
    && (o.answer.Granted? ==>
          TicketOf(call) !in o.tables.sessions && (call.session.Some? ==> TicketOf(call) in w.t.sessions))
  }

  lemma FinishedRemembers(w: World, id: string, call: Call, o: Outcome)
    requires NumbersOk(w) && TicketsOk(w) && Shaped(w, id, call, o)
    ensures
      var w' := Finished(w, id, call, o);
      Remembers(w, w') && Untouched(w, w', {TicketOf(call)}, {id}) && NumbersOk(w')
  {
  }

  lemma FinishedKeepsTickets(w: World, id: string, call: Call, o: Outcome)
    requires NumbersOk(w) && TicketsOk(w) && Shaped(w, id, call, o)
    ensures TicketsOk(Finished(w, id, call, o))
  {
  }

  lemma FinishedKeepsInv(clients: Clients, w: World, id: string, call: Call, o: Outcome)
    requires Inv(clients, w) && Shaped(w, id, call, o)
    requires
      var w', ticket := Finished(w, id, call, o), TicketOf(call);
      && (ticket in o.tables.sessions ==>
            ticket in w'.bindings && SessionOk(clients, w', ticket, o.tables.sessions[ticket], w'.bindings[ticket]))
      && (o.answer.Granted? ==> Justified(clients, w', Last(w'.grants)))
    ensures
      var w' := Finished(w, id, call, o);
      Inv(clients, w') && Remembers(w, w')
  {
    FinishedRemembers(w, id, call, o);
    FinishedKeepsTickets(w, id, call, o);
    hide SessionsOk, CallsOk, GrantsOk, SessionOk, Justified, Remembers, Untouched, TicketsOk, NumbersOk, Shaped;
    RestStays(clients, w, Finished(w, id, call, o), {TicketOf(call)}, {id});
  }

  // The session and the tables after a switch, if there is one
  lemma SwitchedTables(clients: Clients, env: Env, t: Tables, resumed: Option<Resumed>, c: Caller, now: Time)
    requires SwitchResumed(clients, env, t, resumed, c, now).Ok?
    ensures
      var (t1, current) := SwitchResumed(clients, env, t, resumed, c, now).value;
      && t1.consents == t.consents && t1.tokens == t.tokens
      && (current.None? <==> resumed.None?)
      && (current.Some? ==> current.value.id == resumed.value.id)
      && t1.sessions.Keys == t.sessions.Keys
      && (forall j :: j in t.sessions && (resumed.None? || j != resumed.value.id) ==> t1.sessions[j] == t.sessions[j])
      && (!Switches(resumed, c.userID) ==> t1 == t && current == resumed)
      && (Switches(resumed, c.userID) ==>
            && SwitchUser(clients, env, t.consents, resumed.value.session, c.userID, c.authenticatedAt, now)
               == Ok(current.value.session)
            && t1.sessions == UpdateSession(t.sessions, resumed.value.id, current.value.session))
  {
  }

  function SessionIn(resumed: Option<Resumed>): Option<Session> {
    if resumed.Some? then Some(resumed.value.session) else None
  }

  // The pieces of a successful transaction
  lemma TransactionPieces(clients: Clients, env: Env, t: Tables, req: Request, resumed: Option<Resumed>, now: Time)
    requires AuthorizeAuthenticated(clients, env, t, req, resumed, now).Ok?
    ensures UserAllowed(env, req.caller.userID, ClientOf(clients, req.ClientID()))
    ensures SwitchResumed(clients, env, t, resumed, req.caller, now).Ok?
    ensures
      var o := AuthorizeAuthenticated(clients, env, t, req, resumed, now).value;
      var (t1, current) := SwitchResumed(clients, env, t, resumed, req.caller, now).value;
      var r := ResolveRequirements(clients, env, t1, req, SessionIn(current), now);
      && r.Ok?
      && var t2 := if r.value.consumed then t1.(tokens := t1.tokens - {req.caller.token}) else t1;
         if !Any(r.value.needs) then GrantRequest(env, t2, req, current, r.value, now) == Ok(o)
         else if current.Some? then o == Outcome(t2, r.value.consumed, Interact(current.value.id))
         else o == Outcome(t2.(sessions := t2.sessions[req.id := CreatedSession(req, Some(req.caller.userID), r.value.needs, now)]),
                           r.value.consumed, Interact(req.id))
  {
  }

  // The time a grant is given: when the user logged in, or now where nobody knows
  function GrantTime(owed: Owed, now: Time): Time {
    if owed.authenticatedAt.Some? then owed.authenticatedAt.value else now
  }

  lemma GrantPieces(env: Env, t: Tables, req: Request, resumed: Option<Resumed>, owed: Owed, now: Time)
    requires GrantRequest(env, t, req, resumed, owed, now).Ok?
    ensures resumed.Some? ==> resumed.value.id in t.sessions
    ensures
      var q := req.Query();
      var g := ResolveGrant(env, q.clientID, q.Resource(), q.scopes);
      var pair := (q.clientID, req.caller.userID);
      && g.Ok?
      && GrantRequest(env, t, req, resumed, owed, now).value ==
           Outcome(Tables(if resumed.Some? then t.sessions - {resumed.value.id} else t.sessions,
                          Record(t.consents, pair.0, pair.1, q.Keys()), t.tokens),
                   owed.consumed,
                   Granted(g.value, if pair in t.consents then Some(t.consents[pair]) else None, GrantTime(owed, now)))
  {
  }

  lemma OwedForFresh(clients: Clients, env: Env, w: World, req: Request)
    requires ResolveRequirements(clients, env, w.t, req, None, w.now).Ok?
    ensures
      var owed := ResolveRequirements(clients, env, w.t, req, None, w.now).value;
      var q := req.Query();
      && owed.needs.selection == PromptHas(q.params, "select_account") && !owed.needs.authentication
      && (!owed.needs.consent ==> !PromptHas(q.params, "consent") && Authorized(clients, w, q, req.caller.userID))
      && (!owed.needs.reauthentication && !owed.consumed ==>
            var r := RequirementsFor(clients, env, w.t.consents, q, req.caller.userID, req.caller.authenticatedAt, w.now);
            r.Ok? && !r.value.reauthentication)
      && (owed.consumed ==> req.caller.token in w.t.tokens) && MaxAgeParses(req.params)
      && owed.authenticatedAt ==
           if owed.consumed then Some(w.t.tokens[req.caller.token].createdAt) else req.caller.authenticatedAt
  {
    MaxAgeParsesForAll(req.params, req.caller.authenticatedAt, w.now);
    hide MaxAgeParses, DueByMaxAge;
  }

  lemma OwedForResumed(clients: Clients, env: Env, t: Tables, req: Request, s: Session, now: Time)
    requires ResolveRequirements(clients, env, t, req, Some(s), now).Ok?
    ensures
      var owed := ResolveRequirements(clients, env, t, req, Some(s), now).value;
      && owed.needs == (if owed.consumed then s.needs.(reauthentication := false) else s.needs)
      && (owed.consumed ==> req.caller.token in t.tokens)
      && owed.authenticatedAt ==
           if owed.consumed then Some(t.tokens[req.caller.token].createdAt)
           else if s.reauthenticatedAt.Some? then s.reauthenticatedAt
           else req.caller.authenticatedAt
  {
    hide RequirementsFor;
  }

  lemma NoChangeGrows(rows: Rows)
    ensures Grows(rows, rows)
  {
  }

  // Deleting the proof that was used up, if one was
  function Spend(t: Tables, req: Request, consumed: bool): Tables {
    if consumed then t.(tokens := t.tokens - {req.caller.token}) else t
  }

  lemma FreshOutcomeIsShaped(clients: Clients, env: Env, w: World, call: Call)
    requires call.Bound? && call.session.None?
    requires call.req.id in w.calls && w.calls[call.req.id] == call && call.req.id !in w.t.sessions
    requires AuthorizeAuthenticated(clients, env, w.t, call.req, None, w.now).Ok?
    ensures Shaped(w, call.req.id, call, AuthorizeAuthenticated(clients, env, w.t, call.req, None, w.now).value)
  {
    var req := call.req;
    RecordGrows(w.t.consents, req.ClientID(), req.caller.userID, req.Query().Keys());
    NoChangeGrows(w.t.consents);
    TransactionPieces(clients, env, w.t, req, None, w.now);
    SwitchedTables(clients, env, w.t, None, req.caller, w.now);
    OwedForFresh(clients, env, w, req);
    hide AuthorizeAuthenticated, SwitchResumed, ResolveRequirements, ResolveGrant, Grows, Record, RequestKeys,
      LoginDemanded, Authorized, PromptHas, CreatedSession;
    var owed := ResolveRequirements(clients, env, w.t, req, None, w.now).value;
    if !Any(owed.needs) {
      GrantPieces(env, Spend(w.t, req, owed.consumed), req, None, owed, w.now);
    }
    hide GrantRequest;
  }

  lemma ResumedShape(w: World, id: string, call: Call, t1: Tables, o: Outcome)
    requires call.Bound? && call.session.Some? && id in w.calls && w.calls[id] == call && call.req.id == id
    requires call.interaction in w.calls && w.calls[call.interaction].Closed? && call.binding < w.serial
    requires t1.sessions.Keys == w.t.sessions.Keys
    requires forall j :: j in w.t.sessions && j != call.interaction ==> t1.sessions[j] == w.t.sessions[j]
    requires Grows(w.t.consents, o.tables.consents) && (o.consumed ==> call.req.caller.token in w.t.tokens)
    requires o.tables.tokens == if o.consumed then w.t.tokens - {call.req.caller.token} else w.t.tokens
    requires if o.answer.Granted? then call.interaction in t1.sessions && o.tables.sessions == t1.sessions - {call.interaction}
             else o.tables.sessions == t1.sessions
    ensures Shaped(w, id, call, o)
  {
    hide Grows;
  }

  lemma ResumedOutcomeIsShaped(clients: Clients, env: Env, w: World, call: Call)
    requires call.Bound? && call.session.Some?
    requires call.req.id in w.calls && w.calls[call.req.id] == call
    requires call.interaction in w.calls && w.calls[call.interaction].Closed? && call.binding < w.serial
    requires AuthorizeAuthenticated(clients, env, w.t, call.req, ResumedBy(call), w.now).Ok?
    ensures Shaped(w, call.req.id, call, AuthorizeAuthenticated(clients, env, w.t, call.req, ResumedBy(call), w.now).value)
  {
    var req, resumed := call.req, ResumedBy(call);
    RecordGrows(w.t.consents, req.ClientID(), req.caller.userID, req.Query().Keys());
    NoChangeGrows(w.t.consents);
    TransactionPieces(clients, env, w.t, req, resumed, w.now);
    SwitchedTables(clients, env, w.t, resumed, req.caller, w.now);
    var (t1, current) := SwitchResumed(clients, env, w.t, resumed, req.caller, w.now).value;
    OwedForResumed(clients, env, t1, req, current.value.session, w.now);
    hide AuthorizeAuthenticated, SwitchResumed, SwitchUser, UpdateSession, ResolveRequirements, ResolveGrant, Grows,
      Record, RequestKeys, CreatedSession, UserAllowed, ClientOf, Any;
    var owed := ResolveRequirements(clients, env, t1, req, SessionIn(current), w.now).value;
    if !Any(owed.needs) {
      GrantPieces(env, Spend(t1, req, owed.consumed), req, current, owed, w.now);
    }
    hide GrantRequest, Shaped;
    var o := AuthorizeAuthenticated(clients, env, w.t, req, resumed, w.now).value;
    ResumedShape(w, req.id, call, t1, o);
  }

  lemma OutcomeIsShaped(clients: Clients, env: Env, w: World, id: string)
    requires CallsOk(clients, w) && TicketsOk(w) && id in w.calls && w.calls[id].Bound?
    requires AuthorizeAuthenticated(clients, env, w.t, w.calls[id].req, ResumedBy(w.calls[id]), w.now).Ok?
    ensures
      var call := w.calls[id];
      Shaped(w, id, call, AuthorizeAuthenticated(clients, env, w.t, call.req, ResumedBy(call), w.now).value)
  {
    var call := w.calls[id];
    assert CallOk(clients, w, id, call);
    assert id !in w.t.sessions;
    hide CallsOk, TicketsOk, AuthorizeAuthenticated, Shaped, Inherits, DebtsRecorded;
    if call.session.None? {
      FreshOutcomeIsShaped(clients, env, w, call);
    } else {
      ResumedOutcomeIsShaped(clients, env, w, call);
    }
  }

  // ---------------------------------------------------------------- the history after a transaction

  // The binding in force in a transaction
  function BindingIn(w: World, call: Call): nat
    requires call.Bound?
  {
    if Anew(call) then w.serial else call.binding
  }

  // The world in which the transaction decides: its number is taken, a new binding has looked at the login,
  // and its proof, if any, is used up
  function Deciding(w: World, call: Call, consumed: bool): World
    requires call.Bound?
  {
    var c := call.req.caller;
    var p := Proof(c.userID, TicketOf(call), BindingIn(w, call));
    w.(serial := w.serial + 1,
       proofs := if consumed then w.proofs[c.token := p] else w.proofs,
       times := if consumed then w.times + TimesOf(w, c.token, p) else w.times,
       logins := if Anew(call) then w.logins + LoginOf(c.userID, w.serial, c.authenticatedAt, w.now) else w.logins)
  }

  lemma DecidingRemembers(w: World, call: Call, consumed: bool)
    requires call.Bound? && NumbersOk(w) && (consumed ==> call.req.caller.token in w.t.tokens)
    ensures Remembers(w, Deciding(w, call, consumed))
    ensures
      var d, c := Deciding(w, call, consumed), call.req.caller;
      var p := Proof(c.userID, TicketOf(call), BindingIn(w, call));
      && (consumed ==> Proven(d, p) && (p, w.t.tokens[c.token].createdAt) in d.times)
      && (Anew(call) ==> LoginRecorded(d, c.userID, w.serial, c.authenticatedAt))
  {
    NoChangeGrows(w.t.consents);
    assert consumed ==> call.req.caller.token in Deciding(w, call, consumed).proofs;
    hide Grows;
  }

  lemma FinishedRemembersDeciding(w: World, id: string, call: Call, o: Outcome)
    requires NumbersOk(w) && Shaped(w, id, call, o)
    ensures Remembers(Deciding(w, call, o.consumed), Finished(w, id, call, o))
  {
  }

  // A request without a session owes no login: it used up a proof, or its caller's login was looked at
  lemma FreshVouches(clients: Clients, env: Env, w: World, call: Call, owed: Owed)
    requires call.Bound? && call.session.None? && NumbersOk(w)
    requires ResolveRequirements(clients, env, w.t, call.req, None, w.now) == Ok(owed)
    ensures
      var d, req := Deciding(w, call, owed.consumed), call.req;
      var p := Proof(req.caller.userID, req.id, w.serial);
      && (!owed.needs.reauthentication ==> Vouched(clients, d, req.Query(), p))
      && TimeIsGenuine(d, p, req.caller.authenticatedAt, GrantTime(owed, w.now), w.now)
  {
    var req, d := call.req, Deciding(w, call, owed.consumed);
    OwedForFresh(clients, env, w, req);
    DecidingRemembers(w, call, owed.consumed);
    hide ResolveRequirements, NumbersOk, RequirementsFor, TimesOf, LoginRecorded, Proven, Remembers;
    if !owed.needs.reauthentication && !owed.consumed {
      LoginVouches(clients, env, d, req.Query(), req.caller.userID, req.caller.authenticatedAt, req.id, w.serial);
    }
    hide LoginDemanded, FreshLogin;
  }

  lemma FreshSessionIsOk(clients: Clients, env: Env, w: World, w': World, call: Call, owed: Owed)
    requires call.Bound? && call.session.None? && CallOk(clients, w, call.req.id, call) && NumbersOk(w)
    requires ResolveRequirements(clients, env, w.t, call.req, None, w.now) == Ok(owed)
    requires Remembers(Deciding(w, call, owed.consumed), w') && w.serial < w'.serial && w'.now == w.now
    ensures
      var created := CreatedSession(call.req, Some(call.req.caller.userID), owed.needs, w.now);
      SessionOk(clients, w', call.req.id, created, w.serial)
  {
    var req, d := call.req, Deciding(w, call, owed.consumed);
    OwedForFresh(clients, env, w, req);
    DecidingRemembers(w, call, owed.consumed);
    RequestOkStays(w, d, req, "");
    RequestOkStays(d, w', req, "");
    hide ResolveRequirements, NumbersOk, Inherits, Proven, Fields, ClientOf;
    if Authorized(clients, w, req.Query(), req.caller.userID) {
      AuthorizedStays(clients, w, d, req.Query(), req.caller.userID);
      AuthorizedStays(clients, d, w', req.Query(), req.caller.userID);
    }
    FreshVouches(clients, env, w, call, owed);
    if !owed.needs.reauthentication {
      VouchedStays(clients, d, w', req.Query(), Proof(req.caller.userID, req.id, w.serial));
    }
    hide Remembers, Authorized, Vouched;
    CreatedSessionIsOk(clients, w', req, "", Some(req.caller.userID), owed.needs, w.serial);
  }

  lemma FreshCallIsCleared(clients: Clients, env: Env, w: World, call: Call, owed: Owed)
    requires call.Bound? && call.session.None? && CallOk(clients, w, call.req.id, call) && NumbersOk(w)
    requires ResolveRequirements(clients, env, w.t, call.req, None, w.now) == Ok(owed) && !Any(owed.needs)
    ensures Cleared(clients, Deciding(w, call, owed.consumed), call.req, call.req.id, w.serial)
  {
    var req, d := call.req, Deciding(w, call, owed.consumed);
    OwedForFresh(clients, env, w, req);
    DecidingRemembers(w, call, owed.consumed);
    RequestOkStays(w, d, req, "");
    hide ResolveRequirements, NumbersOk, Inherits, Proven, Fields, ClientOf;
    if Authorized(clients, w, req.Query(), req.caller.userID) {
      AuthorizedStays(clients, w, d, req.Query(), req.caller.userID);
    }
    FreshVouches(clients, env, w, call, owed);
    hide Remembers, Authorized, Vouched;
    FreshGrantIsCleared(clients, d, req, owed.needs, w.serial);
  }

  lemma FreshCommitKeepsInv(clients: Clients, env: Env, w: World, call: Call)
    requires Inv(clients, w) && call.Bound? && call.session.None? && call.req.id in w.calls && w.calls[call.req.id] == call
    requires AuthorizeAuthenticated(clients, env, w.t, call.req, None, w.now).Ok?
    requires Shaped(w, call.req.id, call, AuthorizeAuthenticated(clients, env, w.t, call.req, None, w.now).value)
    ensures
      var w' := Finished(w, call.req.id, call, AuthorizeAuthenticated(clients, env, w.t, call.req, None, w.now).value);
      Inv(clients, w') && Remembers(w, w')
  {
    var req := call.req;
    var o := AuthorizeAuthenticated(clients, env, w.t, req, None, w.now).value;
    var w' := Finished(w, req.id, call, o);
    assert CallOk(clients, w, req.id, call);
    assert req.id !in w.t.sessions;
    TransactionPieces(clients, env, w.t, req, None, w.now);
    SwitchedTables(clients, env, w.t, None, req.caller, w.now);
    var owed := ResolveRequirements(clients, env, w.t, req, None, w.now).value;
    hide AuthorizeAuthenticated, SwitchResumed, ResolveRequirements, ResolveGrant, SessionsOk, CallsOk, GrantsOk,
      TicketsOk, NumbersOk, Remembers, Shaped, CallOk, SessionOk, Justified, Cleared, Record, RequestKeys;
    FinishedRemembersDeciding(w, req.id, call, o);
    if Any(owed.needs) {
      FreshSessionIsOk(clients, env, w, w', call, owed);
    } else {
      GrantPieces(env, Spend(w.t, req, owed.consumed), req, None, owed, w.now);
      FreshCallIsCleared(clients, env, w, call, owed);
      FreshVouches(clients, env, w, call, owed);
      hide TimeIsGenuine, GrantRequest;
      ClearedIsJustified(clients, env, Deciding(w, call, owed.consumed), w', req, req.id, w.serial, o.answer.resolved,
                         o.answer.authenticatedAt, w.now);
    }
    FinishedKeepsInv(clients, w, req.id, call, o);
  }

  lemma RequestOkStays(w: World, w': World, req: Request, i: string)
    requires RequestOk(w, req.id, req, i) && Remembers(w, w')
    ensures RequestOk(w', req.id, req, i)
  {
  }

  // The session a transaction works with, in the world in which it decides
  lemma CurrentSessionIsOk(clients: Clients, env: Env, w: World, call: Call, consumed: bool)
    requires NumbersOk(w) && call.Bound? && CallOk(clients, w, call.req.id, call) && call.session.Some?
    requires consumed ==> call.req.caller.token in w.t.tokens
    requires SwitchResumed(clients, env, w.t, ResumedBy(call), call.req.caller, w.now).Ok?
    ensures
      var s := SwitchResumed(clients, env, w.t, ResumedBy(call), call.req.caller, w.now).value.1.value.session;
      && SessionOk(clients, Deciding(w, call, consumed), call.interaction, s, BindingIn(w, call))
      && s.clientID == call.req.ClientID() && s.scopes == call.session.value.scopes
      && (s.userID.Some? ==> s.userID.value == call.req.caller.userID)
  {
    var d, i, s := Deciding(w, call, consumed), call.interaction, call.session.value;
    var c := call.req.caller;
    DecidingRemembers(w, call, consumed);
    SessionOkStays(clients, w, d, i, s, call.binding);
    if Switches(ResumedBy(call), c.userID) {
      SwitchedSessionIsOk(clients, env, d, i, s, call.binding, c.userID, c.authenticatedAt, w.serial);
    }
    hide SessionOk, NumbersOk, Remembers, Inherits;
  }

  lemma SameClient(clients: Clients, w: World, i: string, r: Session, b: nat, s: Session, c: nat)
    requires SessionOk(clients, w, i, r, b) && SessionOk(clients, w, i, s, c)
    ensures SessionOk(clients, w, i, s.(clientID := r.clientID, createdAt := r.createdAt), c)
  {
  }

  // The row a transaction that grants nothing leaves for the session it resumed
  lemma LeftRow(clients: Clients, env: Env, t: Tables, req: Request, resumed: Resumed, now: Time, o: Outcome)
    requires AuthorizeAuthenticated(clients, env, t, req, Some(resumed), now) == Ok(o) && !o.answer.Granted?
    requires resumed.id in o.tables.sessions
    ensures resumed.id in t.sessions && SwitchResumed(clients, env, t, Some(resumed), req.caller, now).Ok?
    ensures
      var row, left := t.sessions[resumed.id], o.tables.sessions[resumed.id];
      var s := SwitchResumed(clients, env, t, Some(resumed), req.caller, now).value.1.value.session;
      left == if Switches(Some(resumed), req.caller.userID) then s.(clientID := row.clientID, createdAt := row.createdAt) else row
  {
  }

  // It is in order, under the binding recorded for it
  lemma LeftSessionIsOk(clients: Clients, env: Env, w: World, call: Call, o: Outcome)
    requires Inv(clients, w) && call.Bound? && call.session.Some? && call.req.id in w.calls && w.calls[call.req.id] == call
    requires AuthorizeAuthenticated(clients, env, w.t, call.req, ResumedBy(call), w.now) == Ok(o)
    requires Shaped(w, call.req.id, call, o) && call.interaction in o.tables.sessions
    ensures
      var w' := Finished(w, call.req.id, call, o);
      && call.interaction in w'.bindings
      && SessionOk(clients, w', call.interaction, o.tables.sessions[call.interaction], w'.bindings[call.interaction])
  {
    var i, req := call.interaction, call.req;
    var w', d := Finished(w, req.id, call, o), Deciding(w, call, o.consumed);
    LeftRow(clients, env, w.t, req, Resumed(i, call.session.value), w.now, o);
    FinishedRemembers(w, req.id, call, o);
    FinishedRemembersDeciding(w, req.id, call, o);
    var row := w.t.sessions[i];
    assert CallOk(clients, w, req.id, call) && SessionOk(clients, w, i, row, w.bindings[i]);
    hide AuthorizeAuthenticated, SwitchResumed, SessionOk, CallOk, SessionsOk, CallsOk, GrantsOk, TicketsOk,
      NumbersOk, Remembers, Shaped, Untouched;
    SessionOkStays(clients, w, w', i, row, w.bindings[i]);
    hide Finished, Deciding, BindingIn;
    FinishedBinding(w, req.id, call, o);
    if Switches(ResumedBy(call), req.caller.userID) {
      SwitchedRowIsOk(clients, env, w, w', call, o.consumed, row, w.bindings[i]);
    }
  }

  lemma FinishedBinding(w: World, id: string, call: Call, o: Outcome)
    requires call.Bound? && call.session.Some? && call.interaction in w.bindings
    ensures
      var w' := Finished(w, id, call, o);
      && call.interaction in w'.bindings
      && w'.bindings[call.interaction] ==
           if Switches(ResumedBy(call), call.req.caller.userID) then w.serial else w.bindings[call.interaction]
  {
  }

  lemma SwitchedRowIsOk(clients: Clients, env: Env, w: World, w': World, call: Call, consumed: bool, row: Session, b: nat)
    requires NumbersOk(w) && call.Bound? && CallOk(clients, w, call.req.id, call) && call.session.Some?
    requires consumed ==> call.req.caller.token in w.t.tokens
    requires Switches(ResumedBy(call), call.req.caller.userID) && Remembers(Deciding(w, call, consumed), w')
    requires SwitchResumed(clients, env, w.t, ResumedBy(call), call.req.caller, w.now).Ok?
    requires SessionOk(clients, w', call.interaction, row, b)
    ensures
      var s := SwitchResumed(clients, env, w.t, ResumedBy(call), call.req.caller, w.now).value.1.value.session;
      SessionOk(clients, w', call.interaction, s.(clientID := row.clientID, createdAt := row.createdAt), w.serial)
  {
    CurrentSessionIsOk(clients, env, w, call, consumed);
    var s := SwitchResumed(clients, env, w.t, ResumedBy(call), call.req.caller, w.now).value.1.value.session;
    hide SwitchResumed, SessionOk, CallOk, NumbersOk, Remembers, Deciding;
    SessionOkStays(clients, Deciding(w, call, consumed), w', call.interaction, s, w.serial);
    SameClient(clients, w', call.interaction, row, b, s, w.serial);
  }

  // What a grant of a resumed request says about the session it used up
  lemma ResumedGrantPieces(clients: Clients, env: Env, t: Tables, req: Request, resumed: Resumed, now: Time, o: Outcome)
    requires AuthorizeAuthenticated(clients, env, t, req, Some(resumed), now) == Ok(o) && o.answer.Granted?
    ensures SwitchResumed(clients, env, t, Some(resumed), req.caller, now).Ok?
    ensures
      var s := SwitchResumed(clients, env, t, Some(resumed), req.caller, now).value.1.value.session;
      && !s.needs.consent && !s.needs.authentication && !s.needs.selection
      && (s.needs.reauthentication ==> o.consumed)
      && (o.consumed ==> req.caller.token in t.tokens && o.answer.authenticatedAt == t.tokens[req.caller.token].createdAt)
      && (!o.consumed ==>
            var own := req.caller.authenticatedAt;
            o.answer.authenticatedAt == if s.reauthenticatedAt.Some? then s.reauthenticatedAt.value
                                        else if own.Some? then own.value else now)
      && ResolveGrant(env, req.ClientID(), req.Query().Resource(), req.Query().scopes) == Ok(o.answer.resolved)
      && var pair := (req.ClientID(), req.caller.userID);
         && o.tables.consents == Record(t.consents, pair.0, pair.1, req.Query().Keys())
         && o.answer.found == if pair in t.consents then Some(t.consents[pair]) else None
  {
    TransactionPieces(clients, env, t, req, Some(resumed), now);
    SwitchedTables(clients, env, t, Some(resumed), req.caller, now);
    var (t1, current) := SwitchResumed(clients, env, t, Some(resumed), req.caller, now).value;
    OwedForResumed(clients, env, t1, req, current.value.session, now);
    var owed := ResolveRequirements(clients, env, t1, req, SessionIn(current), now).value;
    hide AuthorizeAuthenticated, SwitchResumed, SwitchUser, UpdateSession, ResolveRequirements, ResolveGrant,
      RequestKeys, Record;
    if !Any(owed.needs) {
      GrantPieces(env, Spend(t1, req, owed.consumed), req, current, owed, now);
    }
  }

  lemma ResumedCallIsCleared(clients: Clients, env: Env, w: World, call: Call, o: Outcome)
    requires NumbersOk(w) && call.Bound? && call.session.Some? && CallOk(clients, w, call.req.id, call)
    requires AuthorizeAuthenticated(clients, env, w.t, call.req, ResumedBy(call), w.now) == Ok(o)
    requires o.answer.Granted? && (o.consumed ==> call.req.caller.token in w.t.tokens)
    ensures Cleared(clients, Deciding(w, call, o.consumed), call.req, call.interaction, BindingIn(w, call))
    ensures
      var p := Proof(call.req.caller.userID, call.interaction, BindingIn(w, call));
      TimeIsGenuine(Deciding(w, call, o.consumed), p, call.req.caller.authenticatedAt, o.answer.authenticatedAt, w.now)
  {
    var i, req, d := call.interaction, call.req, Deciding(w, call, o.consumed);
    DecidingRemembers(w, call, o.consumed);
    ResumedGrantPieces(clients, env, w.t, req, Resumed(i, call.session.value), w.now, o);
    CurrentSessionIsOk(clients, env, w, call, o.consumed);
    var s := SwitchResumed(clients, env, w.t, ResumedBy(call), req.caller, w.now).value.1.value.session;
    NeedsAuthenticationIffUnbound(clients, d, i, s, BindingIn(w, call));
    RememberedTime(clients, d, i, s, BindingIn(w, call));
    RequestOkStays(w, d, req, i);
    hide NumbersOk, AuthorizeAuthenticated, SwitchResumed, ResolveGrant, Remembers, Inherits, Record, RequestKeys,
      SessionOk, RequestOk, Proven, Cleared, CallOk, Deciding;
    ResumedGrantIsCleared(clients, d, i, s, BindingIn(w, call), req);
  }

  lemma FinishedGrant(w: World, id: string, call: Call, o: Outcome)
    requires call.Bound? && o.answer.Granted?
    ensures
      var w' := Finished(w, id, call, o);
      && w'.grants != [] && w'.t == o.tables
      && Last(w'.grants) == Grant(TicketOf(call), BindingIn(w, call), call.req.caller.userID, call.req, o.answer.resolved,
                                  o.answer.found, o.answer.authenticatedAt, w.now)
  {
  }

  lemma DecidingRows(w: World, call: Call, consumed: bool)
    requires call.Bound?
    ensures Deciding(w, call, consumed).t == w.t
  {
  }

  lemma ResumedGrantIsJustified(clients: Clients, env: Env, w: World, call: Call, o: Outcome)
    requires NumbersOk(w) && call.Bound? && call.session.Some? && CallOk(clients, w, call.req.id, call)
    requires AuthorizeAuthenticated(clients, env, w.t, call.req, ResumedBy(call), w.now) == Ok(o)
    requires Shaped(w, call.req.id, call, o) && o.answer.Granted?
    ensures Justified(clients, Finished(w, call.req.id, call, o), Last(Finished(w, call.req.id, call, o).grants))
  {
    var i, req := call.interaction, call.req;
    FinishedRemembersDeciding(w, req.id, call, o);
    ResumedGrantPieces(clients, env, w.t, req, Resumed(i, call.session.value), w.now, o);
    hide NumbersOk, AuthorizeAuthenticated, SwitchResumed, ResolveGrant, Remembers, Record, RequestKeys, Cleared,
      CallOk, Justified, TimeIsGenuine, Shaped;
    ResumedCallIsCleared(clients, env, w, call, o);
    FinishedGrant(w, req.id, call, o);
    DecidingRows(w, call, o.consumed);
    hide Finished, Deciding, BindingIn;
    var d, w' := Deciding(w, call, o.consumed), Finished(w, req.id, call, o);
    ClearedIsJustified(clients, env, d, w', req, i, BindingIn(w, call), o.answer.resolved,
                       o.answer.authenticatedAt, w.now);
  }

  lemma RememberedTime(clients: Clients, w: World, i: string, s: Session, binding: nat)
    requires SessionOk(clients, w, i, s, binding)
    ensures TimeRecorded(w, i, s, binding)
  {
  }

  lemma NeedsAuthenticationIffUnbound(clients: Clients, w: World, i: string, s: Session, binding: nat)
    requires SessionOk(clients, w, i, s, binding)
    ensures s.needs.authentication <==> s.userID.None?
  {
  }

  lemma CommitKeepsInv(clients: Clients, w: World, id: string, env: Env)
    requires Inv(clients, w) && id in w.calls && w.calls[id].Bound?
    ensures Inv(clients, CommitStep(clients, w, id, env)) && Remembers(w, CommitStep(clients, w, id, env))
  {
    var call := w.calls[id];
    var r := AuthorizeAuthenticated(clients, env, w.t, call.req, ResumedBy(call), w.now);
    assert CallOk(clients, w, id, call);
    hide SessionsOk, CallsOk, GrantsOk, TicketsOk, NumbersOk, Shaped, AuthorizeAuthenticated, Remembers, SessionOk,
      Justified, Inherits, Finished;
    if r.Err? {
      CloseKeepsInv(clients, w, id);
    } else {
      OutcomeIsShaped(clients, env, w, id);
      if call.session.None? {
        FreshCommitKeepsInv(clients, env, w, call);
      } else {
        ResumedCommitKeepsInv(clients, env, w, call, r.value);
      }
    }
  }

  lemma ResumedCommitKeepsInv(clients: Clients, env: Env, w: World, call: Call, o: Outcome)
    requires Inv(clients, w) && call.Bound? && call.session.Some? && call.req.id in w.calls && w.calls[call.req.id] == call
    requires AuthorizeAuthenticated(clients, env, w.t, call.req, ResumedBy(call), w.now) == Ok(o)
    requires Shaped(w, call.req.id, call, o)
    ensures
      var w' := Finished(w, call.req.id, call, o);
      Inv(clients, w') && Remembers(w, w')
  {
    if call.interaction in o.tables.sessions {
      LeftSessionIsOk(clients, env, w, call, o);
    }
    if o.answer.Granted? {
      assert NumbersOk(w) && CallOk(clients, w, call.req.id, call);
      ResumedGrantIsJustified(clients, env, w, call, o);
    }
    hide SessionsOk, CallsOk, GrantsOk, TicketsOk, NumbersOk, Shaped, AuthorizeAuthenticated, Remembers, SessionOk,
      Justified, Finished;
    FinishedKeepsInv(clients, w, call.req.id, call, o);
  }

  /** Every transaction that ends well, and so every grant, is for an existing user whom the client's groups allow. */
  lemma OnlyAllowedUsersPass(clients: Clients, env: Env, t: Tables, req: Request, resumed: Option<Resumed>, now: Time)
    requires AuthorizeAuthenticated(clients, env, t, req, resumed, now).Ok?
    ensures req.caller.userID in env.users
    ensures
      var allowed := ClientOf(clients, req.ClientID()).allowedGroups;
      allowed.None? || exists g :: g in allowed.value && g in env.users[req.caller.userID]
  {
    TransactionPieces(clients, env, t, req, resumed, now);
    hide AuthorizeAuthenticated;
  }

  /** prompt=none alone never puts anything in front of the user: the answer is a grant or an error. */
  lemma SilentRequestsNeverInteract(clients: Clients, env: Env, t: Tables, req: Request, now: Time)
    requires PromptHas(req.params, "none") && !PromptHas(req.params, "select_account")
    ensures
      var opening := OpenAuthorize(clients, env, t.sessions, "", req, now);
      opening.Ok? ==> opening.value.Proceed?
    ensures
      var r := AuthorizeAuthenticated(clients, env, t, req, None, now);
      r.Ok? ==> r.value.answer.Granted?
  {
    if AuthorizeAuthenticated(clients, env, t, req, None, now).Ok? {
      TransactionPieces(clients, env, t, req, None, now);
      SwitchedTables(clients, env, t, None, req.caller, now);
      OwedForSilent(clients, env, t, req, now);
      var owed := ResolveRequirements(clients, env, t, req, None, now).value;
      hide AuthorizeAuthenticated, SwitchResumed, ResolveRequirements, ResolveGrant, Fields;
      GrantPieces(env, Spend(t, req, owed.consumed), req, None, owed, now);
    }
  }

  lemma OwedForSilent(clients: Clients, env: Env, t: Tables, req: Request, now: Time)
    requires PromptHas(req.params, "none") && !PromptHas(req.params, "select_account")
    requires ResolveRequirements(clients, env, t, req, None, now).Ok?
    ensures !Any(ResolveRequirements(clients, env, t, req, None, now).value.needs)
  {
    hide RequirementsFor, Fields;
  }

  /**
   Whatever is wrong with a named resource, the answer before sign-in is the same: an unknown API, one the
   client may not reach and a scope it was not granted cannot be told apart.
   */
  lemma FailedResourcesLookAlike(clients: Clients, one: Env, other: Env, sessions: map<string, Session>,
          interaction: string,
                                 req: Request, now: Time)
    requires req.Query().Resource() != ""
    requires Preflight(one, req.Query()).Some? && Preflight(other, req.Query()).Some?
    ensures
      var r := OpenAuthorize(clients, one, sessions, interaction, req, now);
      r.Err? && r == OpenAuthorize(clients, other, sessions, interaction, req, now)
  {
    hide BoundSession, ResolveGrant;
  }

  // ---------------------------------------------------------------- runs

  lemma RemembersItself(w: World)
    ensures Remembers(w, w)
  {
  }

  lemma StepKeepsInv(clients: Clients, w: World, a: Action)
    requires Inv(clients, w)
    ensures Inv(clients, InteractionRuns.Step(clients, w, a)) && Remembers(w, InteractionRuns.Step(clients, w, a))
  {
    hide Inv, Remembers, OpenStep, Accepts;
    RemembersItself(w);
    match a
    case Open(id, i, params, caller) => OpenKeepsInv(clients, w, id, i, params, caller);
    case Bind(id, env) =>
      if id in w.calls && w.calls[id].Opened? {
        BindKeepsInv(clients, w, id, env);
      }
    case Commit(id, env) =>
      if id in w.calls && w.calls[id].Bound? {
        CommitKeepsInv(clients, w, id, env);
      }
    case Complete(i, env, x) =>
      if Accepts(clients, w, i, env, x) {
        CompleteKeepsInv(clients, w, i, env, x);
      }
    case _ => QuietStepKeepsInv(clients, w, a);
  }

  lemma RemembersIsTransitive(u: World, v: World, w: World)
    requires Remembers(u, v) && Remembers(v, w)
    ensures Remembers(u, w)
  {
  }

  lemma {:induction false} RunKeepsInv(clients: Clients, w: World, actions: seq<Action>)
    requires Inv(clients, w)
    ensures Inv(clients, Run(clients, w, actions)) && Remembers(w, Run(clients, w, actions))
    decreases |actions|
  {
    if |actions| == 0 {
      RemembersItself(w);
    } else {
      hide Inv, Remembers, InteractionRuns.Step;
      var next := InteractionRuns.Step(clients, w, actions[0]);
      StepKeepsInv(clients, w, actions[0]);
      RunKeepsInv(clients, next, actions[1..]);
      RemembersIsTransitive(w, next, Run(clients, next, actions[1..]));
    }
  }

  lemma InvHasBindings(clients: Clients, w: World)
    requires Inv(clients, w)
    ensures forall i :: i in w.t.sessions ==> i in w.bindings
  {
    hide CallsOk, GrantsOk, TicketsOk, NumbersOk, SessionOk;
  }

  lemma {:induction false} RunKeepsGenuine(clients: Clients, w: World, actions: seq<Action>)
    requires Inv(clients, w) && TokensGenuine(w)
    ensures TokensGenuine(Run(clients, w, actions))
    decreases |actions|
  {
    if |actions| == 0 {
    } else {
      hide Inv, TokensGenuine, InteractionRuns.Step;
      InvHasBindings(clients, w);
      StepKeepsInv(clients, w, actions[0]);
      StepKeepsGenuine(clients, w, actions[0]);
      RunKeepsGenuine(clients, InteractionRuns.Step(clients, w, actions[0]), actions[1..]);
    }
  }

  /**
   In every run, every grant was justified before its own call recorded a consent, whatever interleaves:
   a consent already covered all of it or the client skips consent; prompt=consent, prompt=login and a
   client that requires reauthentication were each answered by the granted user in the binding that was
   granted, and prompt=select_account for the interaction; max_age was met by a proof in that binding, or by
   a login that was recent enough when the binding looked at it; the authentication time is that of a proof
   in the binding or of the granting call's own login; PAR and PKCE were used where the client demands them;
   and what was granted is the resumed request, each scope once. And every proof of the run is a token that was
   issued to the user it counts for and used before it expired.
   */
  lemma EveryGrantIsJustified(clients: Clients, now: Time, consents: Rows, actions: seq<Action>)
    ensures
      var w := Run(clients, Start(now, consents), actions);
      (forall n :: 0 <= n < |w.grants| ==> Justified(clients, w, w.grants[n])) && TokensGenuine(w)
  {
    assert Inv(clients, Start(now, consents)) && TokensGenuine(Start(now, consents));
    RunKeepsInv(clients, Start(now, consents), actions);
    RunKeepsGenuine(clients, Start(now, consents), actions);
  }

  /** In every run an interaction is granted once at most, and so is a request that needed none. */
  lemma EveryTicketIsGrantedOnce(clients: Clients, now: Time, consents: Rows, actions: seq<Action>)
    ensures
      var w := Run(clients, Start(now, consents), actions);
      && (forall m, n :: 0 <= m < n < |w.grants| ==> w.grants[m].ticket != w.grants[n].ticket)
      && (forall n :: 0 <= n < |w.grants| ==> w.grants[n].ticket !in w.t.sessions)
  {
    assert Inv(clients, Start(now, consents));
    RunKeepsInv(clients, Start(now, consents), actions);
  }

  /**
   In every run, a stored session needs authentication exactly when nobody is bound to it, its scopes are
   its stored scope parameter and a narrowing of what its request first asked for, no other parameter ever
   changes, and the client's demand for PAR or PKCE was met.
   */
  lemma EverySessionIsInOrder(clients: Clients, now: Time, consents: Rows, actions: seq<Action>, i: string)
    requires i in Run(clients, Start(now, consents), actions).t.sessions
    ensures
      var w := Run(clients, Start(now, consents), actions);
      var s := w.t.sessions[i];
      && (s.needs.authentication <==> s.userID.None?)
      && s.scopes == ScopesOf(s.params)
      && i in w.origins && Inherits(s.params, w.origins[i])
      && (ClientOf(clients, s.clientID).requiresPar ==> w.origins[i].pushed)
      && (ClientOf(clients, s.clientID).requiresPkce ==> Param(s.params, "code_challenge") != "")
  {
    assert Inv(clients, Start(now, consents));
    RunKeepsInv(clients, Start(now, consents), actions);
    var w := Run(clients, Start(now, consents), actions);
    assert SessionOk(clients, w, i, w.t.sessions[i], w.bindings[i]);
  }
}
