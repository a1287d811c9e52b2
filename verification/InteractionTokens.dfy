/**
 Reauthentication proofs: a token that a run used up was issued to the user it counts for, and had not expired,
 and it is used up exactly when that is so.
 */
module InteractionTokens {
  import opened Common
  import opened Interaction
  import opened InteractionRuns
  import opened InteractionSteps

  // A used-up token was issued to the user it counts for, and was used before it expired
  ghost predicate GenuineUse(w: World, token: string) {
    && token in w.proofs && token in w.issued && token in w.uses
    && w.issued[token].userID == w.proofs[token].userID
    && w.uses[token] < w.issued[token].expiresAt
  }

  // The time remembered for a proof is when its token was issued
  ghost predicate GenuineTime(w: World, p: Proof, time: Time) {
    exists token :: token in w.proofs && token in w.issued && w.proofs[token] == p && w.issued[token].createdAt == time
  }

  ghost predicate TokensGenuine(w: World) {
    && w.proofs.Keys !! w.t.tokens.Keys
    && (forall token :: token in w.t.tokens ==> token in w.issued && w.issued[token] == w.t.tokens[token])
    && (forall token :: token in w.proofs ==> GenuineUse(w, token))
    && (forall p :: p in w.times ==> GenuineTime(w, p.0, p.1))
  }

  // An unexpired token of the user that nobody used up yet
  predicate IsUsable(tokens: map<string, Token>, token: string, userID: string, now: Time) {
    token != "" && token in tokens && tokens[token].userID == userID && now < tokens[token].expiresAt
  }

  // ---------------------------------------------------------------- the two places that use up a token

  /**
   A reauthentication step of the user whose turn it is succeeds exactly with an unexpired token of that user. It uses
   up this token and no other, clears the one flag and remembers when the token was issued.
   */
  lemma ReauthenticationSucceedsExactlyWhen(t: Tables, s: Session, x: StepInput, now: Time)
    requires x.userID != "" && !IsOther(s, x.userID)
    ensures
      var r := ApplyReauthentication(t, s, x, now);
      && (r.Ok? <==> IsUsable(t.tokens, x.token, x.userID, now))
      && (r == Err(MissingToken) <==> x.token == "")
      && (r.Ok? ==>
            && r.value.tokens == t.tokens - {x.token} && r.value.consents == t.consents
            && r.value.session == s.(userID := Some(x.userID), needs := s.needs.(reauthentication := false),
                                     reauthenticatedAt := Some(t.tokens[x.token].createdAt)))
  {
  }

  /**
   An authorize call uses up a token exactly when a reauthentication is required, nothing is refused for
   prompt=none, and the token is an unexpired one of the caller. Then no reauthentication is required any more.
   */
  lemma TokenIsUsedExactlyWhen(clients: Clients, env: Env, t: Tables, req: Request, session: Option<Session>, now: Time)
    requires ResolveRequirements(clients, env, t, req, session, now).Ok?
    ensures
      var c := req.caller;
      var own := RequirementsFor(clients, env, t.consents, req.Query(), c.userID, c.authenticatedAt, now);
      var owed := ResolveRequirements(clients, env, t, req, session, now).value;
      && own.Ok?
      && var needs := if session.Some? then session.value.needs else own.value;
         && (owed.consumed <==> needs.reauthentication && IsUsable(t.tokens, c.token, c.userID, now))
         && owed.needs == (if owed.consumed then needs.(reauthentication := false) else needs)
         && (owed.consumed ==> owed.authenticatedAt == Some(t.tokens[c.token].createdAt))
  {
    hide RequirementsFor;
  }

  // What a successful transaction does to the tokens
  lemma TransactionUsesOwnToken(clients: Clients, env: Env, t: Tables, req: Request, resumed: Option<Resumed>, now: Time)
    requires AuthorizeAuthenticated(clients, env, t, req, resumed, now).Ok?
    ensures
      var o, c := AuthorizeAuthenticated(clients, env, t, req, resumed, now).value, req.caller;
      && (o.consumed ==> IsUsable(t.tokens, c.token, c.userID, now))
      && o.tables.tokens == if o.consumed then t.tokens - {c.token} else t.tokens
  {
    var c := req.caller;
    if SwitchResumed(clients, env, t, resumed, c, now).Ok? {
      var (t1, current) := SwitchResumed(clients, env, t, resumed, c, now).value;
      var session := if current.Some? then Some(current.value.session) else None;
      assert t1.tokens == t.tokens && t1.consents == t.consents;
      if ResolveRequirements(clients, env, t1, req, session, now).Ok? {
        TokenIsUsedExactlyWhen(clients, env, t1, req, session, now);
      }
    }
    hide RequirementsFor, SwitchUser, ResolveGrant, ResolveRequirements, SwitchResumed, CreatedSession, UserAllowed,
      IsUsable;
  }

  lemma StepUsesOwnToken(clients: Clients, w: World, i: string, env: Env, x: StepInput)
    requires Accepts(clients, w, i, env, x) && i in w.bindings
    ensures
      var w' := CompleteInteraction(clients, w, i, env, x);
      && (x.step == Reauthenticate ==> IsUsable(w.t.tokens, x.token, x.userID, w.now))
      && w'.t.tokens == (if x.step == Reauthenticate then w.t.tokens - {x.token} else w.t.tokens)
      && w'.issued == w.issued && i in w'.bindings && w' == Completed(w, i, x, w'.t, w'.bindings[i])
  {
    AcceptedStep(clients, w, i, env, x);
    var s := SessionFor(clients, env, w.t, w.t.sessions[i], x, w.now).value;
    ReauthenticatingUses(clients, env, w.t, s, x, w.now);
    hide Accepts, CompleteStep, SessionFor, ApplyStep, RequiredSteps, IsUsable;
  }

  lemma ReauthenticatingUses(clients: Clients, env: Env, t: Tables, s: Session, x: StepInput, now: Time)
    requires ApplyStep(clients, env, t, s, x, now).Ok?
    ensures x.step == Reauthenticate ==> IsUsable(t.tokens, x.token, x.userID, now)
    ensures ApplyStep(clients, env, t, s, x, now).value.tokens ==
      if x.step == Reauthenticate then t.tokens - {x.token} else t.tokens
  {
    hide AuthenticateUser, SwitchUser, NarrowSession, ResolveGrant;
  }

  // ---------------------------------------------------------------- runs

  // From w to w' one token was used up for p, or none
  ghost predicate Used(w: World, w': World, token: Option<string>, p: Proof) {
    && w'.issued == w.issued
    && (if token.Some? then
          && IsUsable(w.t.tokens, token.value, p.userID, w.now)
          && w'.t.tokens == w.t.tokens - {token.value}
          && w'.proofs == w.proofs[token.value := p] && w'.uses == w.uses[token.value := w.now]
          && w'.times == w.times + {(p, w.t.tokens[token.value].createdAt)}
        else
          w'.t.tokens == w.t.tokens && w'.proofs == w.proofs && w'.uses == w.uses && w'.times == w.times)
  }

  lemma UsingKeepsGenuine(w: World, w': World, token: Option<string>, p: Proof)
    requires TokensGenuine(w) && Used(w, w', token, p)
    ensures TokensGenuine(w')
  {
    forall q | q in w'.times ensures GenuineTime(w', q.0, q.1) {
      if q in w.times {
        assert GenuineTime(w, q.0, q.1);
        var k :| k in w.proofs && k in w.issued && w.proofs[k] == q.0 && w.issued[k].createdAt == q.1;
        assert k in w'.proofs && w'.proofs[k] == q.0;
      } else {
        assert token.value in w'.proofs && token.value in w'.issued;
      }
    }
  }

  lemma IssuingKeepsGenuine(w: World, token: string, t: Token)
    requires TokensGenuine(w) && token !in w.issued && token !in w.proofs
    ensures TokensGenuine(Issue(w, token, t))
  {
    var w' := Issue(w, token, t);
    forall q | q in w'.times ensures GenuineTime(w', q.0, q.1) {
      assert GenuineTime(w, q.0, q.1);
    }
  }

  lemma StepKeepsGenuine(clients: Clients, w: World, a: Action)
    requires TokensGenuine(w) && forall i :: i in w.t.sessions ==> i in w.bindings
    ensures TokensGenuine(InteractionRuns.Step(clients, w, a))
  {
    var w', nobody := InteractionRuns.Step(clients, w, a), Proof("", "", 0);
    hide TokensGenuine, IsUsable, OpenStep, BindStep, CommitStep, CompleteInteraction, Accepts;
    match a
    case Open(id, interaction, params, caller) =>
      OpenUsesNothing(clients, w, id, interaction, params, caller);
      UsingKeepsGenuine(w, w', None, nobody);
    case Bind(id, env) =>
      BindUsesNothing(clients, w, id, env);
      UsingKeepsGenuine(w, w', None, nobody);
    case Commit(id, env) =>
      CommitUses(clients, w, id, env);
      UsingKeepsGenuine(w, w', CommitToken(clients, w, id, env), CommitProof(w, id));
    case Complete(i, env, x) =>
      if Accepts(clients, w, i, env, x) {
        CompleteUses(clients, w, i, env, x);
        UsingKeepsGenuine(w, w', if x.step == Reauthenticate then Some(x.token) else None, Proof(x.userID, i, w'.bindings[i]));
      } else {
        RefusalChangesNothing(clients, w, i, env, x);
      }
    case IssueToken(token, userID, expiresAt) =>
      if token !in w.proofs && token !in w.issued {
        IssuingKeepsGenuine(w, token, Token(userID, w.now, expiresAt));
      }
    case Drop(i) => UsingKeepsGenuine(w, w', None, nobody);
    case Advance(elapsed) => UsingKeepsGenuine(w, w', None, nobody);
  }

  lemma OpenUsesNothing(clients: Clients, w: World, id: string, interaction: string, params: Params, c: Caller)
    ensures Used(w, OpenStep(clients, w, id, interaction, params, c), None, Proof("", "", 0))
  {
    hide Rebuilt;
  }

  lemma BindUsesNothing(clients: Clients, w: World, id: string, env: Env)
    ensures Used(w, BindStep(clients, w, id, env), None, Proof("", "", 0))
  {
    if id in w.calls && w.calls[id].Opened? {
      var Opened(req, i) := w.calls[id];
      var r := OpenAuthorize(clients, env, w.t.sessions, i, req, w.now);
      if r.Err? {
        SetCallUsesNothing(w, id, Closed);
      } else if r.value.Proceed? {
        SetCallUsesNothing(w, id, Bound(req, i, r.value.session, BindingOf(w, i)));
      } else {
        StoreUsesNothing(w, id, r.value.created);
      }
    }
    hide OpenAuthorize, SetCall, Store;
  }

  lemma SetCallUsesNothing(w: World, id: string, call: Call)
    ensures Used(w, SetCall(w, id, call), None, Proof("", "", 0))
  {
  }

  lemma StoreUsesNothing(w: World, id: string, created: Session)
    ensures Used(w, Store(w, id, created), None, Proof("", "", 0))
  {
  }

  lemma RefusalChangesNothing(clients: Clients, w: World, i: string, env: Env, x: StepInput)
    requires !Accepts(clients, w, i, env, x)
    ensures CompleteInteraction(clients, w, i, env, x) == w
  {
    hide Accepts;
  }

  lemma CompleteUses(clients: Clients, w: World, i: string, env: Env, x: StepInput)
    requires Accepts(clients, w, i, env, x) && forall j :: j in w.t.sessions ==> j in w.bindings
    ensures
      var w' := CompleteInteraction(clients, w, i, env, x);
      && i in w'.bindings
      && Used(w, w', if x.step == Reauthenticate then Some(x.token) else None, Proof(x.userID, i, w'.bindings[i]))
  {
    AcceptedStep(clients, w, i, env, x);
    StepUsesOwnToken(clients, w, i, env, x);
    hide Accepts, CompleteInteraction, CompleteStep, SessionFor, ApplyStep, RequiredSteps;
  }

  // The token a transaction uses up, if any, and what it counts for
  function CommitToken(clients: Clients, w: World, id: string, env: Env): Option<string> {
    if id !in w.calls || !w.calls[id].Bound? then None
    else
      var call := w.calls[id];
      match AuthorizeAuthenticated(clients, env, w.t, call.req, ResumedBy(call), w.now)
      case Err(_) => None
      case Ok(o) => if o.consumed then Some(call.req.caller.token) else None
  }

  function CommitProof(w: World, id: string): Proof {
    if id !in w.calls || !w.calls[id].Bound? then Proof("", "", 0)
    else
      var call := w.calls[id];
      Proof(call.req.caller.userID, TicketOf(call), if Anew(call) then w.serial else call.binding)
  }

  lemma CommitUses(clients: Clients, w: World, id: string, env: Env)
    ensures Used(w, CommitStep(clients, w, id, env), CommitToken(clients, w, id, env), CommitProof(w, id))
  {
    if id in w.calls && w.calls[id].Bound? {
      var call := w.calls[id];
      var r := AuthorizeAuthenticated(clients, env, w.t, call.req, ResumedBy(call), w.now);
      if r.Ok? {
        TransactionUsesOwnToken(clients, env, w.t, call.req, ResumedBy(call), w.now);
        hide AuthorizeAuthenticated;
        FinishedUses(w, id, call, r.value);
      } else {
        SetCallUsesNothing(w, id, Closed);
        hide AuthorizeAuthenticated;
      }
      hide Finished, SetCall, IsUsable;
    }
  }

  lemma FinishedUses(w: World, id: string, call: Call, o: Outcome)
    requires call.Bound? && (o.consumed ==> IsUsable(w.t.tokens, call.req.caller.token, call.req.caller.userID, w.now))
    requires o.tables.tokens == if o.consumed then w.t.tokens - {call.req.caller.token} else w.t.tokens
    ensures
      var p := Proof(call.req.caller.userID, TicketOf(call), if Anew(call) then w.serial else call.binding);
      Used(w, Finished(w, id, call, o), if o.consumed then Some(call.req.caller.token) else None, p)
  {
  }
}
