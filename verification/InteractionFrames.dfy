/** What a step leaves alone, and that opening and binding a call keep the invariant. */
module InteractionFrames {
  import opened Common
  import opened Lists
  import opened Text
  import opened Consent
  import opened Resource
  import opened Interaction
  import opened InteractionRuns

  // ---------------------------------------------------------------- what a step leaves alone

  // Outside the sessions and calls a step touches, everything is as it was
  ghost predicate Untouched(w: World, w': World, touchedSessions: set<string>, touchedCalls: set<string>) {
    && (forall j | j in w'.t.sessions && j !in touchedSessions ::
          && j in w.t.sessions && w'.t.sessions[j] == w.t.sessions[j]
          && (j in w.bindings ==> j in w'.bindings && w'.bindings[j] == w.bindings[j]))
    && (forall c | c in w'.calls && c !in touchedCalls :: c in w.calls && w'.calls[c] == w.calls[c])
    && w.grants <= w'.grants
  }

  lemma SessionsStayOk(clients: Clients, w: World, w': World, touched: set<string>)
    requires SessionsOk(clients, w) && Remembers(w, w') && Untouched(w, w', touched, w'.calls.Keys)
    requires forall j :: j in touched && j in w'.t.sessions ==>
      j in w'.bindings && SessionOk(clients, w', j, w'.t.sessions[j], w'.bindings[j])
    ensures SessionsOk(clients, w')
  {
    forall j | j in w'.t.sessions
      ensures j in w'.bindings && SessionOk(clients, w', j, w'.t.sessions[j], w'.bindings[j])
    {
      if j !in touched {
        SessionOkStays(clients, w, w', j, w.t.sessions[j], w.bindings[j]);
      }
      hide SessionOk;
    }
  }

  lemma CallsStayOk(clients: Clients, w: World, w': World, touched: set<string>)
    requires CallsOk(clients, w) && Remembers(w, w') && Untouched(w, w', w'.t.sessions.Keys, touched)
    requires forall c :: c in touched && c in w'.calls ==> CallOk(clients, w', c, w'.calls[c])
    ensures CallsOk(clients, w')
  {
    forall c | c in w'.calls ensures CallOk(clients, w', c, w'.calls[c]) {
      if c !in touched {
        CallOkStays(clients, w, w', c, w.calls[c]);
      }
      hide CallOk;
    }
  }

  lemma GrantsStayOk(clients: Clients, w: World, w': World)
    requires GrantsOk(clients, w) && Remembers(w, w') && w.grants <= w'.grants
    requires forall n :: |w.grants| <= n < |w'.grants| ==> Justified(clients, w', w'.grants[n])
    ensures GrantsOk(clients, w')
  {
  }

  lemma RestStays(clients: Clients, w: World, w': World, touchedSessions: set<string>, touchedCalls: set<string>)
    requires SessionsOk(clients, w) && CallsOk(clients, w) && GrantsOk(clients, w) && Remembers(w, w')
    requires Untouched(w, w', touchedSessions, touchedCalls)
    requires forall j :: j in touchedSessions && j in w'.t.sessions ==>
      j in w'.bindings && SessionOk(clients, w', j, w'.t.sessions[j], w'.bindings[j])
    requires forall c :: c in touchedCalls && c in w'.calls ==> CallOk(clients, w', c, w'.calls[c])
    requires forall n :: |w.grants| <= n < |w'.grants| ==> Justified(clients, w', w'.grants[n])
    ensures SessionsOk(clients, w') && CallsOk(clients, w') && GrantsOk(clients, w')
  {
    hide SessionsOk, CallsOk, GrantsOk, SessionOk, CallOk, Justified, Remembers;
    SessionsStayOk(clients, w, w', touchedSessions);
    CallsStayOk(clients, w, w', touchedCalls);
    GrantsStayOk(clients, w, w');
  }

  lemma IssueRemembers(w: World, token: string, t: Token)
    ensures Remembers(w, Issue(w, token, t)) && Untouched(w, Issue(w, token, t), {}, {})
  {
  }

  lemma DropRemembers(w: World, sessions: map<string, Session>)
    requires forall i :: i in sessions ==> i in w.t.sessions && sessions[i] == w.t.sessions[i]
    ensures
      var w' := w.(t := w.t.(sessions := sessions));
      Remembers(w, w') && Untouched(w, w', {}, {})
  {
  }

  lemma ClockRemembers(w: World, now: Time)
    ensures Remembers(w, w.(now := now)) && Untouched(w, w.(now := now), {}, {})
    ensures Remembers(w, w) && Untouched(w, w, {}, {})
  {
  }

  lemma QuietStepRemembers(clients: Clients, w: World, a: Action)
    requires a.IssueToken? || a.Drop? || a.Advance?
    ensures
      var w' := InteractionRuns.Step(clients, w, a);
      Remembers(w, w') && Untouched(w, w', {}, {})
  {
    hide Remembers, Untouched, Issue, OpenStep, BindStep, CommitStep, CompleteInteraction;
    ClockRemembers(w, w.now);
    match a
    case IssueToken(token, userID, expiresAt) => IssueRemembers(w, token, Token(userID, w.now, expiresAt));
    case Drop(i) => DropRemembers(w, w.t.sessions - {i});
    case Advance(elapsed) => ClockRemembers(w, w.now + elapsed);
  }

  lemma QuietStepKeepsInv(clients: Clients, w: World, a: Action)
    requires Inv(clients, w) && (a.IssueToken? || a.Drop? || a.Advance?)
    ensures Inv(clients, InteractionRuns.Step(clients, w, a)) && Remembers(w, InteractionRuns.Step(clients, w, a))
  {
    hide SessionsOk, CallsOk, GrantsOk, SessionOk, CallOk, Justified, OpenStep, BindStep, CommitStep,
      CompleteInteraction, Remembers, Untouched;
    QuietStepRemembers(clients, w, a);
    RestStays(clients, w, InteractionRuns.Step(clients, w, a), {}, {});
  }

  // ---------------------------------------------------------------- opening

  lemma RebuiltInherits(p: Params, origin: Origin)
    requires Inherits(p, origin)
    ensures Inherits(Rebuilt(p), origin)
  {
  }

  lemma EnterRemembers(w: World, req: Request, i: string, pushed: bool)
    requires NumbersOk(w) && TicketsOk(w) && req.id !in w.calls && req.id != ""
    ensures
      var w' := Enter(w, req, i, pushed);
      Remembers(w, w') && Untouched(w, w', {}, {req.id}) && NumbersOk(w') && TicketsOk(w')
  {
  }

  lemma EnterKeepsInv(clients: Clients, w: World, req: Request, i: string, pushed: bool)
    requires Inv(clients, w) && req.id !in w.calls && req.id != ""
    requires RequestOk(Enter(w, req, i, pushed), req.id, req, i)
    ensures Inv(clients, Enter(w, req, i, pushed)) && Remembers(w, Enter(w, req, i, pushed))
  {
    hide SessionsOk, CallsOk, GrantsOk, SessionOk, Justified, Remembers, Untouched, TicketsOk, NumbersOk, RequestOk;
    EnterRemembers(w, req, i, pushed);
    RestStays(clients, w, Enter(w, req, i, pushed), {}, {req.id});
  }

  lemma StoredLineage(clients: Clients, w: World, i: string)
    requires SessionsOk(clients, w) && i in w.t.sessions
    ensures Lineage(clients, w, i, w.t.sessions[i])
  {
    assert SessionOk(clients, w, i, w.t.sessions[i], w.bindings[i]);
  }

  lemma ResumedRequestIsOk(clients: Clients, w: World, req: Request, i: string, pushed: bool)
    requires Inv(clients, w) && req.id !in w.calls && i in w.t.sessions
    requires req.params == Rebuilt(w.t.sessions[i].params)
    requires i in w.origins && w.origins[i].pushed ==> pushed
    ensures RequestOk(Enter(w, req, i, pushed), req.id, req, i)
  {
    hide SessionsOk, CallsOk, GrantsOk, TicketsOk, Inherits;
    StoredLineage(clients, w, i);
    RebuiltInherits(w.t.sessions[i].params, w.origins[i]);
    hide Rebuilt;
  }

  lemma OpenKeepsInv(clients: Clients, w: World, id: string, interaction: string, params: Params, c: Caller)
    requires Inv(clients, w)
    ensures
      var w' := OpenStep(clients, w, id, interaction, params, c);
      Inv(clients, w') && (w' == w || Remembers(w, w'))
  {
    var w' := OpenStep(clients, w, id, interaction, params, c);
    if w' != w {
      var req, pushed := w'.calls[id].req, w'.origins[id].pushed;
      assert w' == Enter(w, req, interaction, pushed);
      if interaction != "" {
        hide RequestOk, SessionsOk, CallsOk, GrantsOk, TicketsOk, NumbersOk;
        ResumedRequestIsOk(clients, w, req, interaction, pushed);
        EnterKeepsInv(clients, w, req, interaction, pushed);
      } else {
        hide SessionsOk, CallsOk, GrantsOk, TicketsOk, NumbersOk;
        EnterKeepsInv(clients, w, req, interaction, pushed);
      }
    }
  }

  // ---------------------------------------------------------------- binding

  lemma SetCallRemembers(w: World, id: string, call: Call)
    requires NumbersOk(w) && TicketsOk(w) && id in w.calls && (w.calls[id].Opened? || call.Closed?)
    ensures
      var w' := SetCall(w, id, call);
      Remembers(w, w') && Untouched(w, w', {}, {id}) && NumbersOk(w') && TicketsOk(w')
  {
  }

  lemma SetCallKeepsInv(clients: Clients, w: World, id: string, call: Call)
    requires Inv(clients, w) && id in w.calls && (w.calls[id].Opened? || call.Closed?)
    requires CallOk(clients, w, id, call)
    ensures Inv(clients, SetCall(w, id, call)) && Remembers(w, SetCall(w, id, call))
  {
    SetCallRemembers(w, id, call);
    var w' := SetCall(w, id, call);
    assert w'.calls[id] == call;
    hide SessionsOk, CallsOk, GrantsOk, SessionOk, Justified, Remembers, Untouched, TicketsOk, NumbersOk, RequestOk,
      CallOk, SetCall;
    CallOkStays(clients, w, w', id, call);
    RestStays(clients, w, w', {}, {id});
  }

  lemma CloseKeepsInv(clients: Clients, w: World, id: string)
    requires Inv(clients, w) && id in w.calls
    ensures Inv(clients, Close(w, id)) && Remembers(w, Close(w, id))
  {
    SetCallKeepsInv(clients, w, id, Closed);
    hide Inv, Remembers, SetCall;
  }

  /** A session just created from a request is in order when its requirements cover what its user owes. */
  lemma CreatedSessionIsOk(clients: Clients, w: World, req: Request, i: string, userID: Option<string>,
                           needs: Requirements, binding: nat)
    requires RequestOk(w, req.id, req, i) && binding < w.serial
    requires ClientOf(clients, req.ClientID()).requiresPar ==> w.origins[req.id].pushed
    requires needs.authentication <==> userID.None?
    requires PromptHas(req.params, "select_account") ==> needs.selection
    requires userID.Some? ==>
      && userID.value != "" && MaxAgeParses(req.params)
      && (!needs.consent ==> Authorized(clients, w, req.Query(), userID.value) && !PromptHas(req.params, "consent"))
      && (!needs.reauthentication ==> Vouched(clients, w, req.Query(), Proof(userID.value, req.id, binding)))
    requires ClientOf(clients, req.ClientID()).requiresPkce ==> Param(req.params, "code_challenge") != ""
    ensures SessionOk(clients, w, req.id, CreatedSession(req, userID, needs, w.now), binding)
  {
    SubsequenceOfItself(ScopesOf(req.params));
    assert AskedBy(CreatedSession(req, userID, needs, w.now)) == req.Query();
  }

  lemma StoreRemembers(w: World, id: string, created: Session)
    requires NumbersOk(w) && TicketsOk(w) && id in w.calls && !w.calls[id].Closed?
    ensures
      var w' := Store(w, id, created);
      Remembers(w, w') && Untouched(w, w', {id}, {id}) && NumbersOk(w') && TicketsOk(w')
  {
  }

  lemma StoreKeepsInv(clients: Clients, w: World, id: string, created: Session)
    requires Inv(clients, w) && id in w.calls && !w.calls[id].Closed?
    requires SessionOk(clients, Store(w, id, created), id, created, w.serial)
    ensures Inv(clients, Store(w, id, created)) && Remembers(w, Store(w, id, created))
  {
    StoreRemembers(w, id, created);
    hide SessionsOk, CallsOk, GrantsOk, SessionOk, Justified, Remembers, Untouched, TicketsOk, NumbersOk, RequestOk;
    RestStays(clients, w, Store(w, id, created), {id}, {id});
  }

  // The session a request is bound to is the stored one, of the same client, and covers its scopes
  lemma BoundSessionIsStored(sessions: map<string, Session>, i: string, req: Request, now: Time)
    requires BoundSession(sessions, i, req, now).Ok?
    ensures
      var r := BoundSession(sessions, i, req, now).value;
      && (r.None? <==> i == "")
      && (r.Some? ==>
            && i in sessions && r.value == sessions[i] && sessions[i].clientID == req.ClientID()
            && forall scope :: scope in ScopesOf(req.params) ==> scope in sessions[i].scopes)
  {
  }

  lemma PushedOrInherited(clients: Clients, w: World, req: Request, i: string)
    requires Inv(clients, w) && RequestOk(w, req.id, req, i)
    requires BoundSession(w.t.sessions, i, req, w.now).Ok?
    requires ClientOf(clients, req.ClientID()).requiresPar ==>
      req.caller.pushed || BoundSession(w.t.sessions, i, req, w.now).value.Some?
    ensures ClientOf(clients, req.ClientID()).requiresPar ==> w.origins[req.id].pushed
  {
    BoundSessionIsStored(w.t.sessions, i, req, w.now);
    hide BoundSession;
    if i != "" {
      assert SessionOk(clients, w, i, w.t.sessions[i], w.bindings[i]);
      hide Inherits, DebtsRecorded;
    }
  }

  lemma BoundCallIsOk(clients: Clients, w: World, req: Request, i: string, session: Option<Session>)
    requires SessionsOk(clients, w) && TicketsOk(w) && RequestOk(w, req.id, req, i)
    requires BoundSession(w.t.sessions, i, req, w.now) == Ok(session) && req.caller.userID != ""
    requires session.None? && ClientOf(clients, req.ClientID()).requiresPar ==> req.caller.pushed
    requires ClientOf(clients, req.ClientID()).requiresPkce ==> Param(req.params, "code_challenge") != ""
    ensures CallOk(clients, w, req.id, Bound(req, i, session, BindingOf(w, i)))
  {
    BoundSessionIsStored(w.t.sessions, i, req, w.now);
    hide BoundSession, SessionOk, RequestOk;
    if i != "" {
      assert SessionOk(clients, w, i, w.t.sessions[i], w.bindings[i]);
    }
  }

  lemma StoreUnbound(clients: Clients, w: World, req: Request, i: string, created: Session)
    requires RequestOk(w, req.id, req, i)
    requires ClientOf(clients, req.ClientID()).requiresPar ==> w.origins[req.id].pushed
    requires ClientOf(clients, req.ClientID()).requiresPkce ==> Param(req.params, "code_challenge") != ""
    requires created == CreatedSession(req, None, created.needs, w.now) && created.needs.authentication
    requires PromptHas(req.params, "select_account") ==> created.needs.selection
    ensures SessionOk(clients, Store(w, req.id, created), req.id, created, w.serial)
  {
    hide Inherits, ClientOf, Fields;
    CreatedSessionIsOk(clients, Store(w, req.id, created), req, i, None, created.needs, w.serial);
  }

  lemma BindKeepsInv(clients: Clients, w: World, id: string, env: Env)
    requires Inv(clients, w) && id in w.calls && w.calls[id].Opened?
    ensures Inv(clients, BindStep(clients, w, id, env)) && Remembers(w, BindStep(clients, w, id, env))
  {
    var Opened(req, i) := w.calls[id];
    assert RequestOk(w, id, req, i) by {
      assert CallOk(clients, w, id, w.calls[id]);
    }
    hide SessionsOk, CallsOk, GrantsOk, TicketsOk, NumbersOk, BoundSession, Remembers, SetCall, Store, CallOk,
      SessionOk, Inherits;
    var r := OpenAuthorize(clients, env, w.t.sessions, i, req, w.now);
    if r.Err? {
      CloseKeepsInv(clients, w, id);
    } else if r.value.Proceed? {
      BoundCallIsOk(clients, w, req, i, r.value.session);
      SetCallKeepsInv(clients, w, id, Bound(req, i, r.value.session, BindingOf(w, i)));
    } else {
      var created := r.value.created;
      PushedOrInherited(clients, w, req, i);
      StoreUnbound(clients, w, req, i, created);
      StoreKeepsInv(clients, w, id, created);
    }
  }
}
