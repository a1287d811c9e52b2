/** Completing a step keeps the invariant: whatever it clears has been done by the bound user, in this binding. */
module InteractionSteps {
  import opened Common
  import opened Lists
  import opened Text
  import opened Consent
  import opened Resource
  import opened Interaction
  import opened InteractionRuns
  import opened InteractionFrames

  // ---------------------------------------------------------------- one session

  // The history has the login that was looked at
  ghost predicate LoginRecorded(w: World, userID: string, binding: nat, authenticatedAt: Option<Time>) {
    LoginOf(userID, binding, authenticatedAt, w.now) <= w.logins
  }

  // A requirement that was computed and not raised is vouched for by the login it was computed from
  lemma LoginVouches(clients: Clients, env: Env, w: World, q: Asked, userID: string, authenticatedAt: Option<Time>,
          i: string, binding: nat)
    requires LoginRecorded(w, userID, binding, authenticatedAt)
    requires RequirementsFor(clients, env, w.t.consents, q, userID, authenticatedAt, w.now).Ok?
    requires !RequirementsFor(clients, env, w.t.consents, q, userID, authenticatedAt, w.now).value.reauthentication
    ensures Vouched(clients, w, q, Proof(userID, i, binding))
  {
    if Param(q.params, "max_age") != "" {
      assert authenticatedAt.Some?;
      assert Login(userID, binding, authenticatedAt.value, w.now) in w.logins;
    }
  }

  /** A switch, to whomever, leaves a session in which the new user owes everything the request demands. */
  lemma SwitchedSessionIsOk(clients: Clients, env: Env, w: World, i: string, s: Session, before: nat,
                            userID: string, authenticatedAt: Option<Time>, after: nat)
    requires SessionOk(clients, w, i, s, before) && after < w.serial
    requires LoginRecorded(w, userID, after, authenticatedAt)
    requires SwitchUser(clients, env, w.t.consents, s, userID, authenticatedAt, w.now).Ok?
    ensures
      var s' := SwitchUser(clients, env, w.t.consents, s, userID, authenticatedAt, w.now).value;
      && SessionOk(clients, w, i, s', after)
      && s'.clientID == s.clientID && s'.createdAt == s.createdAt
      && s'.userID == Some(userID) && userID != "" && s'.needs.selection == s.needs.selection
  {
    var r := RequirementsFor(clients, env, w.t.consents, AskedBy(s), userID, authenticatedAt, w.now).value;
    var s' := SwitchUser(clients, env, w.t.consents, s, userID, authenticatedAt, w.now).value;
    assert AskedBy(s') == AskedBy(s);
    MaxAgeParsesForAll(s.params, authenticatedAt, w.now);
    hide MaxAgeParses, Vouched, LoginDemanded, DueByMaxAge, Inherits, HasAuthorized, Fields, RequestKeys, LoginRecorded;
    if !r.reauthentication {
      LoginVouches(clients, env, w, AskedBy(s), userID, authenticatedAt, i, after);
    }
    assert DebtsRecorded(clients, w, i, s', after);
    hide RequirementsFor, DebtsRecorded;
  }

  ghost predicate Current(s: Session, x: StepInput) {
    && x.userID != "" && !IsOther(s, x.userID)
    && RequiredSteps(s.needs) != [] && RequiredSteps(s.needs)[0] == x.step
  }

  // The history w' has the record of the step x and nothing the step read has changed before it
  ghost predicate Recorded(w: World, w': World, i: string, x: StepInput, a: Applied, binding: nat) {
    && Remembers(w, w') && binding < w'.serial && w'.t.consents == a.consents
    && (x.step == Reauthenticate ==>
          && Proven(w', Proof(x.userID, i, binding))
          && TimesOf(w, x.token, Proof(x.userID, i, binding)) <= w'.times)
    && (x.step == GiveConsent ==> (x.userID, binding) in w'.consentSteps)
    && (x.step == SelectAccount ==> i in w'.selections)
  }

  lemma AuthenticatedSessionIsOk(clients: Clients, env: Env, w: World, i: string, s: Session, x: StepInput,
          binding: nat)
    requires SessionOk(clients, w, i, s, binding) && Current(s, x) && x.step == Authenticate
    requires LoginRecorded(w, x.userID, binding, x.authenticatedAt)
    requires AuthenticateUser(clients, env, w.t.consents, s, x.userID, x.authenticatedAt, w.now).Ok?
    ensures
      var s' := AuthenticateUser(clients, env, w.t.consents, s, x.userID, x.authenticatedAt, w.now).value;
      SessionOk(clients, w, i, s', binding) && s'.clientID == s.clientID && s'.createdAt == s.createdAt
  {
    var q := AskedBy(s);
    var r := RequirementsFor(clients, env, w.t.consents, q, x.userID, x.authenticatedAt, w.now).value;
    if !r.reauthentication {
      LoginVouches(clients, env, w, q, x.userID, x.authenticatedAt, i, binding);
    }
    MaxAgeParsesForAll(s.params, x.authenticatedAt, w.now);
    hide MaxAgeParses, Vouched, LoginDemanded, DueByMaxAge, Inherits, HasAuthorized;
  }

  lemma ReauthenticatedSessionIsOk(clients: Clients, w: World, w': World, i: string, s: Session, x: StepInput,
          binding: nat)
    requires SessionOk(clients, w, i, s, binding) && Current(s, x) && x.step == Reauthenticate
    requires ApplyReauthentication(w.t, s, x, w.now).Ok?
    requires Recorded(w, w', i, x, ApplyReauthentication(w.t, s, x, w.now).value, binding)
    ensures
      var s' := ApplyReauthentication(w.t, s, x, w.now).value.session;
      SessionOk(clients, w', i, s', binding) && s'.clientID == s.clientID && s'.createdAt == s.createdAt
  {
    SessionOkStays(clients, w, w', i, s, binding);
    hide Inherits, Remembers, LoginDemanded, HasAuthorized, FreshLogin;
  }

  /** Narrowing keeps the order, keeps openid, and the stored parameter reads back as the narrowed list. */
  lemma NarrowedSessionInherits(s: Session, approved: Option<seq<string>>, origin: Origin)
    requires s.scopes == ScopesOf(s.params) && Inherits(s.params, origin) && NarrowSession(s, approved).Ok?
    ensures
      var n := NarrowSession(s, approved).value;
      && n.scopes == ScopesOf(n.params)
      && Inherits(n.params, origin)
      && n == s.(scopes := n.scopes, params := n.params)
      && SameButScope(n.params, s.params)
      && (approved.Some? ==>
            forall scope :: scope in n.scopes <==> scope in s.scopes && (scope in approved.value || scope == "openid"))
  {
    if approved.Some? {
      var kept := KeepApproved(s.scopes, approved.value);
      var n := NarrowSession(s, approved).value;
      assert forall scope | scope in kept :: scope in s.scopes;
      ScopesRoundTrip(kept);
      assert Param(n.params, "scope") == JoinScopes(kept);
      SubsequenceIsTransitive(kept, s.scopes, ScopesOf(origin.params));
    }
  }

  /** What a consent step records covers what the narrowed session will ask for. */
  lemma ConsentStepCovers(env: Env, t: Tables, s: Session, x: StepInput)
    requires ApplyConsent(env, t, s, x).Ok?
    ensures
      var a := ApplyConsent(env, t, s, x).value;
      && NarrowSession(s.(userID := Some(x.userID)), x.approved).Ok?
      && a.session == NarrowSession(s.(userID := Some(x.userID)), x.approved).value.(
                        needs := s.needs.(consent := false))
      && a.session.clientID == s.clientID && a.session.createdAt == s.createdAt
      && a.session.userID == Some(x.userID) && x.userID != ""
      && HasAuthorized(a.consents, s.clientID, x.userID, AskedBy(a.session).Keys())
  {
  }

  // Nothing about a login depends on the scopes
  lemma VouchedWithoutScopes(clients: Clients, w: World, q: Asked, r: Asked, p: Proof)
    requires q.clientID == r.clientID && SameButScope(q.params, r.params)
    ensures Vouched(clients, w, q, p) == Vouched(clients, w, r, p)
    ensures LoginDemanded(clients, q) == LoginDemanded(clients, r)
  {
  }

  lemma ConsentedSessionIsOk(clients: Clients, env: Env, w: World, w': World, i: string, s: Session, x: StepInput,
          binding: nat)
    requires SessionOk(clients, w, i, s, binding) && Current(s, x) && x.step == GiveConsent
    requires ApplyConsent(env, w.t, s, x).Ok?
    requires Recorded(w, w', i, x, ApplyConsent(env, w.t, s, x).value, binding)
    ensures
      var s' := ApplyConsent(env, w.t, s, x).value.session;
      SessionOk(clients, w', i, s', binding) && s'.clientID == s.clientID && s'.createdAt == s.createdAt
  {
    var s' := ApplyConsent(env, w.t, s, x).value.session;
    SessionOkStays(clients, w, w', i, s, binding);
    ConsentStepCovers(env, w.t, s, x);
    assert s.userID == Some(x.userID) && s.(userID := Some(x.userID)) == s;
    NarrowedSessionInherits(s, x.approved, w.origins[i]);
    hide ApplyConsent, Inherits, Remembers, NarrowSession, HasAuthorized, RequestKeys, ScopesOf, SameButScope, SessionOk;
    RescopedSessionIsOk(clients, w', i, s, s', x.userID, binding);
  }

  // A settled consent, for a session that differs in its scopes only
  lemma RescopedSessionIsOk(clients: Clients, w: World, i: string, s: Session, s': Session, userID: string, binding: nat)
    requires SessionOk(clients, w, i, s, binding) && s.userID == Some(userID)
    requires s' == s.(scopes := s'.scopes, params := s'.params, needs := s.needs.(consent := false))
    requires s'.scopes == ScopesOf(s'.params) && Inherits(s'.params, w.origins[i]) && SameButScope(s'.params, s.params)
    requires HasAuthorized(w.t.consents, s.clientID, userID, AskedBy(s').Keys()) && (userID, binding) in w.consentSteps
    ensures SessionOk(clients, w, i, s', binding)
  {
    hide Inherits, HasAuthorized, RequestKeys, ScopesOf, Vouched, ClientOf, Fields;
    assert Lineage(clients, w, i, s') by {
      OtherParamsStay(s'.params, s.params);
      hide SameButScope, DebtsRecorded, TimeRecorded;
    }
    assert DebtsRecorded(clients, w, i, s', binding) by {
      OtherParamsStay(s'.params, s.params);
      VouchedWithoutScopes(clients, w, AskedBy(s), AskedBy(s'), Proof(userID, i, binding));
      hide SameButScope, Lineage, TimeRecorded, MaxAgeParses;
    }
    assert PromptHas(s'.params, "select_account") == PromptHas(s.params, "select_account") by {
      OtherParamsStay(s'.params, s.params);
      hide SameButScope;
    }
    hide SameButScope, Lineage, DebtsRecorded, PromptHas;
  }

  lemma OtherParamsStay(p: Params, q: Params)
    requires SameButScope(p, q)
    ensures Param(p, "client_id") == Param(q, "client_id") && Param(p, "prompt") == Param(q, "prompt")
    ensures Param(p, "code_challenge") == Param(q, "code_challenge") && Param(p, "resource") == Param(q, "resource")
    ensures MaxAgeParses(p) == MaxAgeParses(q)
  {
  }

  /** One applied step keeps the session in order, under the binding that is in force after it. */
  lemma AppliedSessionIsOk(clients: Clients, env: Env, w: World, w': World, i: string, s: Session, x: StepInput,
                           before: nat, after: nat)
    requires SessionOk(clients, w, i, s, before) && Current(s, x)
    requires x.step != SelectAccount ==> after == before
    requires after < w.serial
    requires ApplyStep(clients, env, w.t, s, x, w.now).Ok?
    requires Recorded(w, w', i, x, ApplyStep(clients, env, w.t, s, x, w.now).value, after)
    requires x.step == SelectAccount || x.step == Authenticate ==> LoginRecorded(w, x.userID, after, x.authenticatedAt)
    ensures
      var s' := ApplyStep(clients, env, w.t, s, x, w.now).value.session;
      SessionOk(clients, w', i, s', after) && s'.clientID == s.clientID && s'.createdAt == s.createdAt
  {
    hide SessionOk, Remembers, SwitchUser, AuthenticateUser, ApplyReauthentication, ApplyConsent;
    match x.step
    case Authenticate =>
      AuthenticatedSessionIsOk(clients, env, w, i, s, x, before);
      SessionOkStays(clients, w, w', i, ApplyStep(clients, env, w.t, s, x, w.now).value.session, after);
    case SelectAccount =>
      SwitchedSessionIsOk(clients, env, w, i, s, before, x.userID, x.authenticatedAt, after);
      var b := SwitchUser(clients, env, w.t.consents, s, x.userID, x.authenticatedAt, w.now).value;
      SessionOkStays(clients, w, w', i, b, after);
      SelectedSessionIsOk(clients, w', i, b, after);
    case Reauthenticate => ReauthenticatedSessionIsOk(clients, w, w', i, s, x, after);
    case GiveConsent => ConsentedSessionIsOk(clients, env, w, w', i, s, x, after);
  }

  lemma SelectedSessionIsOk(clients: Clients, w: World, i: string, s: Session, binding: nat)
    requires SessionOk(clients, w, i, s, binding) && i in w.selections
    ensures SessionOk(clients, w, i, s.(needs := s.needs.(selection := false)), binding)
  {
  }

  // What a step does to the rows besides the session
  lemma AppliedRows(clients: Clients, env: Env, t: Tables, s: Session, x: StepInput, now: Time)
    requires ApplyStep(clients, env, t, s, x, now).Ok?
    ensures
      var a := ApplyStep(clients, env, t, s, x, now).value;
      && Grows(t.consents, a.consents)
      && (x.step == Reauthenticate ==> x.token in t.tokens)
      && a.tokens == if x.step == Reauthenticate then t.tokens - {x.token} else t.tokens
  {
  }

  // ---------------------------------------------------------------- the whole world

  lemma CompletedRemembers(w: World, i: string, x: StepInput, tables: Tables, binding: nat)
    requires NumbersOk(w) && TicketsOk(w) && i in w.t.sessions && binding <= w.serial
    requires tables.sessions.Keys == w.t.sessions.Keys
    requires forall j :: j in w.t.sessions && j != i ==> tables.sessions[j] == w.t.sessions[j]
    requires Grows(w.t.consents, tables.consents)
    requires x.step == Reauthenticate ==> x.token in w.t.tokens
    requires tables.tokens == if x.step == Reauthenticate then w.t.tokens - {x.token} else w.t.tokens
    ensures
      var w' := Completed(w, i, x, tables, binding);
      Remembers(w, w') && Untouched(w, w', {i}, {}) && NumbersOk(w') && TicketsOk(w')
  {
  }

  // The world in which a step is applied: its number is taken and its login looked at
  function Looking(w: World, logins: set<Login>): World {
    w.(serial := w.serial + 1, logins := logins)
  }

  lemma LookingRemembers(w: World, logins: set<Login>)
    requires w.logins <= logins
    ensures Grows(w.t.consents, w.t.consents) && Remembers(w, Looking(w, logins))
  {
  }

  // What the history has of a completed step
  lemma CompletedHistory(w: World, i: string, x: StepInput, tables: Tables, binding: nat)
    requires i in w.t.sessions
    ensures
      var w' := Completed(w, i, x, tables, binding);
      && (LooksAtLogin(w.t.sessions[i], x) ==> LoginRecorded(Looking(w, w'.logins), x.userID, binding, x.authenticatedAt))
      && (x.step == Reauthenticate ==>
            Proven(w', Proof(x.userID, i, binding)) && TimesOf(w, x.token, Proof(x.userID, i, binding)) <= w'.times)
      && (x.step == GiveConsent ==> (x.userID, binding) in w'.consentSteps)
      && (x.step == SelectAccount ==> i in w'.selections)
  {
    assert x.step == Reauthenticate ==> x.token in Completed(w, i, x, tables, binding).proofs;
  }

  lemma SessionForIsOk(clients: Clients, env: Env, w: World, i: string, x: StepInput, before: nat)
    requires i in w.t.sessions && SessionOk(clients, w, i, w.t.sessions[i], before) && w.serial > 0
    requires IsOther(w.t.sessions[i], x.userID) ==> LoginRecorded(w, x.userID, w.serial - 1, x.authenticatedAt)
    requires SessionFor(clients, env, w.t, w.t.sessions[i], x, w.now).Ok?
    ensures
      var stored := w.t.sessions[i];
      var s := SessionFor(clients, env, w.t, stored, x, w.now).value;
      && SessionOk(clients, w, i, s, if IsOther(stored, x.userID) then w.serial - 1 else before)
      && s.clientID == stored.clientID && s.createdAt == stored.createdAt && !IsOther(s, x.userID)
  {
  }

  // The pieces of an accepted step
  lemma AcceptedStep(clients: Clients, w: World, i: string, env: Env, x: StepInput)
    requires Accepts(clients, w, i, env, x)
    ensures i in w.t.sessions && GetSession(w.t.sessions, i, w.now) == Some(w.t.sessions[i])
    ensures
      var s := SessionFor(clients, env, w.t, w.t.sessions[i], x, w.now);
      && s.Ok? && x.userID != "" && RequiredSteps(s.value.needs) != [] && RequiredSteps(s.value.needs)[0] == x.step
      && var a := ApplyStep(clients, env, w.t, s.value, x, w.now);
         && a.Ok?
         && CompleteStep(clients, env, w.t, i, x, w.now) ==
              Ok(Stepped(Tables(UpdateSession(w.t.sessions, i, a.value.session), a.value.consents, a.value.tokens)))
  {
  }

  lemma LookingIsRemembered(w: World, w': World)
    requires Remembers(w, w') && w.serial < w'.serial
    ensures Remembers(Looking(w, w'.logins), w')
  {
  }

  lemma CompleteRemembers(clients: Clients, w: World, i: string, env: Env, x: StepInput)
    requires NumbersOk(w) && TicketsOk(w) && Accepts(clients, w, i, env, x) && BindingOf(w, i) <= w.serial
    ensures
      var w' := CompleteInteraction(clients, w, i, env, x);
      Remembers(w, w') && Untouched(w, w', {i}, {}) && NumbersOk(w') && TicketsOk(w')
  {
    AcceptedStep(clients, w, i, env, x);
    var s := SessionFor(clients, env, w.t, w.t.sessions[i], x, w.now).value;
    var a := ApplyStep(clients, env, w.t, s, x, w.now).value;
    AppliedRows(clients, env, w.t, s, x, w.now);
    var tables := Tables(UpdateSession(w.t.sessions, i, a.session), a.consents, a.tokens);
    hide Accepts, CompleteStep, SessionFor, ApplyStep, RequiredSteps, NumbersOk, TicketsOk, Remembers, Untouched,
      Grows, Completed;
    CompletedRemembers(w, i, x, tables, if Rebinds(w.t.sessions[i], x) then w.serial else BindingOf(w, i));
  }

  // The row after an accepted step is the applied session, under the number in force
  lemma CompletedRow(clients: Clients, w: World, i: string, env: Env, x: StepInput)
    requires Accepts(clients, w, i, env, x) && i in w.bindings
    ensures i in w.t.sessions && SessionFor(clients, env, w.t, w.t.sessions[i], x, w.now).Ok?
    ensures
      var s := SessionFor(clients, env, w.t, w.t.sessions[i], x, w.now).value;
      var a := ApplyStep(clients, env, w.t, s, x, w.now);
      var w' := CompleteInteraction(clients, w, i, env, x);
      && a.Ok? && x.userID != "" && RequiredSteps(s.needs) != [] && RequiredSteps(s.needs)[0] == x.step
      && i in w'.t.sessions && i in w'.bindings
      && w'.bindings[i] == (if Rebinds(w.t.sessions[i], x) then w.serial else w.bindings[i])
      && w'.t.sessions[i] == a.value.session.(clientID := w.t.sessions[i].clientID, createdAt := w.t.sessions[i].createdAt)
      && w'.t.consents == a.value.consents
      && w'.choices == if x.step == GiveConsent then w.choices + {(i, w'.bindings[i], w'.t.sessions[i].scopes)} else w.choices
  {
    AcceptedStep(clients, w, i, env, x);
    hide Accepts, CompleteStep, ApplyStep, SessionFor, RequiredSteps, GetSession;
  }

  lemma CompletedRecords(clients: Clients, w: World, i: string, env: Env, x: StepInput)
    requires Accepts(clients, w, i, env, x) && i in w.t.sessions && i in w.bindings && w.bindings[i] < w.serial
    ensures
      var w' := CompleteInteraction(clients, w, i, env, x);
      && w'.serial == w.serial + 1 && w'.now == w.now && i in w'.bindings
      && w' == Completed(w, i, x, w'.t, w'.bindings[i])
  {
    hide Accepts, CompleteStep;
  }

  // The step, with what the history says about it, in the world in which it is applied
  lemma LookingSessionIsOk(clients: Clients, w: World, w': World, i: string, env: Env, x: StepInput, before: nat, after: nat)
    requires i in w.t.sessions && w.serial > 0 && SessionOk(clients, w, i, w.t.sessions[i], before)
    requires after < w.serial && after == if Rebinds(w.t.sessions[i], x) then w.serial - 1 else before
    requires SessionFor(clients, env, w.t, w.t.sessions[i], x, w.now).Ok?
    requires LooksAtLogin(w.t.sessions[i], x) ==> LoginRecorded(w, x.userID, after, x.authenticatedAt)
    requires
      var s := SessionFor(clients, env, w.t, w.t.sessions[i], x, w.now).value;
      var a := ApplyStep(clients, env, w.t, s, x, w.now);
      && x.userID != "" && RequiredSteps(s.needs) != [] && RequiredSteps(s.needs)[0] == x.step
      && a.Ok? && Recorded(w, w', i, x, a.value, after)
    ensures
      var stored := w.t.sessions[i];
      var s := SessionFor(clients, env, w.t, stored, x, w.now).value;
      var s' := ApplyStep(clients, env, w.t, s, x, w.now).value.session;
      SessionOk(clients, w', i, s', after) && s'.clientID == stored.clientID && s'.createdAt == stored.createdAt
  {
    var stored := w.t.sessions[i];
    var s := SessionFor(clients, env, w.t, stored, x, w.now).value;
    hide ApplyStep, RequiredSteps, SessionOk, SwitchUser, LoginRecorded, Recorded, SessionFor;
    SessionForIsOk(clients, env, w, i, x, before);
    AppliedSessionIsOk(clients, env, w, w', i, s, x, if IsOther(stored, x.userID) then w.serial - 1 else before, after);
  }

  lemma CompletedSessionIsOk(clients: Clients, w: World, i: string, env: Env, x: StepInput)
    requires Accepts(clients, w, i, env, x) && i in w.bindings && SessionOk(clients, w, i, w.t.sessions[i], w.bindings[i])
    requires Remembers(w, CompleteInteraction(clients, w, i, env, x))
    ensures
      var w' := CompleteInteraction(clients, w, i, env, x);
      i in w'.t.sessions && i in w'.bindings && SessionOk(clients, w', i, w'.t.sessions[i], w'.bindings[i])
  {
    var w', before := CompleteInteraction(clients, w, i, env, x), w.bindings[i];
    assert before < w.serial;
    CompletedRow(clients, w, i, env, x);
    CompletedRecords(clients, w, i, env, x);
    CompletedHistory(w, i, x, w'.t, w'.bindings[i]);
    LookingRemembers(w, w'.logins);
    LookingIsRemembered(w, w');
    SessionOkStays(clients, w, Looking(w, w'.logins), i, w.t.sessions[i], before);
    hide Accepts, SessionFor, ApplyStep, RequiredSteps, Remembers, SessionOk, CompleteInteraction, LoginRecorded, Proven,
      Completed, TimesOf, LooksAtLogin;
    LookingSessionIsOk(clients, Looking(w, w'.logins), w', i, env, x, before, w'.bindings[i]);
  }

  lemma CompleteKeepsInv(clients: Clients, w: World, i: string, env: Env, x: StepInput)
    requires Inv(clients, w) && Accepts(clients, w, i, env, x)
    ensures
      var w' := CompleteInteraction(clients, w, i, env, x);
      Inv(clients, w') && Remembers(w, w')
  {
    assert i in w.t.sessions && i in w.bindings && SessionOk(clients, w, i, w.t.sessions[i], w.bindings[i]) by {
      AcceptedStep(clients, w, i, env, x);
    }
    assert w.bindings[i] < w.serial;
    hide Accepts, SessionsOk, CallsOk, GrantsOk, TicketsOk, NumbersOk, Remembers, Untouched, SessionOk,
      CompleteInteraction;
    CompleteRemembers(clients, w, i, env, x);
    CompletedSessionIsOk(clients, w, i, env, x);
    RestStays(clients, w, CompleteInteraction(clients, w, i, env, x), {i}, {});
  }
}
