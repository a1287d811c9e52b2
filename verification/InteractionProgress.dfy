/** How far one user still has to go, and what a resumed request gets at the end. */
module InteractionProgress {
  import opened Common
  import opened Lists
  import opened Text
  import opened Consent
  import opened Resource
  import opened Interaction
  import opened InteractionRuns
  import opened InteractionFrames
  import opened InteractionSteps
  import opened InteractionSafety

  // ---------------------------------------------------------------- one step

  // The position of the first step still required
  function Rank(needs: Requirements): nat {
    if needs.authentication then 0
    else if needs.selection then 1
    else if needs.reauthentication then 2
    else if needs.consent then 3
    else 4
  }

  const ORDER: seq<Interaction.Step> := [Authenticate, SelectAccount, Reauthenticate, GiveConsent]

  /**
   The steps offered are exactly those still required, each once, in the fixed order; the first one is the one
   accepted.
   */
  lemma RequiredStepsAreInOrder(needs: Requirements)
    ensures
      var steps := RequiredSteps(needs);
      && Subsequence(steps, ORDER) && NoDuplicates(steps)
      && (Authenticate in steps <==> needs.authentication) && (SelectAccount in steps <==> needs.selection)
      && (Reauthenticate in steps <==> needs.reauthentication) && (GiveConsent in steps <==> needs.consent)
      && (if Any(needs) then steps != [] && Rank(needs) < 4 && steps[0] == ORDER[Rank(needs)]
          else steps == [] && Rank(needs) == 4)
  {
    KeptStepsAreASubsequence(needs, 4);
    assert ORDER[..4] == ORDER && StepsUpTo(needs, 4) == RequiredSteps(needs);
  }

  // The steps among the first n of the order
  function StepsUpTo(needs: Requirements, n: nat): seq<Interaction.Step>
    requires n <= 4
  {
    (if n > 0 && needs.authentication then [Authenticate] else [])
    + (if n > 1 && needs.selection then [SelectAccount] else [])
    + (if n > 2 && needs.reauthentication then [Reauthenticate] else [])
    + (if n > 3 && needs.consent then [GiveConsent] else [])
  }

  lemma {:induction false} KeptStepsAreASubsequence(needs: Requirements, n: nat)
    requires n <= 4
    ensures Subsequence(StepsUpTo(needs, n), ORDER[..n])
  {
    if n > 0 {
      KeptStepsAreASubsequence(needs, n - 1);
      var shorter, longer := StepsUpTo(needs, n - 1), StepsUpTo(needs, n);
      assert Init(ORDER[..n]) == ORDER[..n - 1];
      if longer != shorter {
        assert longer == shorter + [ORDER[n - 1]];
        assert Init(longer) == shorter;
      }
    }
  }

  // Lexicographically less: authentication, account selection, reauthentication, consent
  predicate Less(a: Requirements, b: Requirements) {
    if a.authentication != b.authentication then b.authentication
    else if a.selection != b.selection then b.selection
    else if a.reauthentication != b.reauthentication then b.reauthentication
    else b.consent && !a.consent
  }

  /**
   A step of the bound user moves the first required step forward and lowers the four requirements in
   lexicographic order, although authenticating and selecting an account may raise later ones.
   */
  lemma AppliedStepMovesOn(clients: Clients, env: Env, t: Tables, s: Session, x: StepInput, now: Time)
    requires Current(s, x) && ApplyStep(clients, env, t, s, x, now).Ok?
    ensures
      var s' := ApplyStep(clients, env, t, s, x, now).value.session;
      && Rank(s'.needs) > Rank(s.needs) && Less(s'.needs, s.needs)
      && s'.userID == Some(x.userID)
  {
    hide RequirementsFor, FirstUnrequested, KeepApproved, ResolveGrant, Record, KeysForGrant;
  }

  lemma AcceptedStepMovesOn(clients: Clients, w: World, i: string, env: Env, x: StepInput)
    requires Accepts(clients, w, i, env, x) && !IsOther(w.t.sessions[i], x.userID)
    ensures
      var w' := CompleteInteraction(clients, w, i, env, x);
      && i in w'.t.sessions
      && Rank(w'.t.sessions[i].needs) > Rank(w.t.sessions[i].needs)
      && Less(w'.t.sessions[i].needs, w.t.sessions[i].needs)
      && w'.t.sessions[i].userID == Some(x.userID)
  {
    AcceptedStep(clients, w, i, env, x);
    var s := w.t.sessions[i];
    assert SessionFor(clients, env, w.t, s, x, w.now) == Ok(s);
    AppliedStepMovesOn(clients, env, w.t, s, x, w.now);
    hide ApplyStep, Rank, Less, Accepts, CompleteStep, SessionFor;
  }

  // ---------------------------------------------------------------- whole runs of one user

  // Nobody but u is involved in interaction i
  ghost predicate OnlyBy(w: World, i: string, u: string) {
    && (i in w.t.sessions ==> !IsOther(w.t.sessions[i], u))
    && (forall id :: id in w.calls ==> CallOnlyBy(w.calls[id], id, i, u))
  }

  ghost predicate CallOnlyBy(call: Call, id: string, i: string, u: string) {
    match call
    case Closed => true
    case Opened(req, interaction) => interaction == i || id == i ==> req.caller.userID == "" || req.caller.userID == u
    case Bound(req, interaction, session, _) =>
      && (interaction == i || id == i ==> req.caller.userID == u)
      && (interaction == i && session.Some? ==> !IsOther(session.value, u))
  }

  predicate ActsAs(a: Action, i: string, u: string) {
    match a
    case Open(id, interaction, _, caller) => interaction == i || id == i ==> caller.userID == "" || caller.userID == u
    case Complete(interaction, _, x) => interaction == i ==> x.userID == u
    case _ => true
  }

  // How many steps interaction i can still take
  function Budget(w: World, i: string): nat {
    if i in w.t.sessions then 4 - Rank(w.t.sessions[i].needs)
    else if i in w.calls && w.calls[i].Closed? then 0
    else 4
  }

  predicate IsAcceptedStep(clients: Clients, w: World, a: Action, i: string) {
    a.Complete? && a.interaction == i && Accepts(clients, w, i, a.env, a.input)
  }

  function AcceptedSteps(clients: Clients, w: World, actions: seq<Action>, i: string): nat
    decreases |actions|
  {
    if |actions| == 0 then 0
    else
      (if IsAcceptedStep(clients, w, actions[0], i) then 1 else 0)
      + AcceptedSteps(clients, InteractionRuns.Step(clients, w, actions[0]), actions[1..], i)
  }

  // What a step has to leave for the bound to hold
  ghost predicate Spends(w: World, w': World, i: string, u: string, steps: nat) {
    OnlyBy(w', i, u) && steps + Budget(w', i) <= Budget(w, i)
  }

  // A step changes one session and no call
  lemma CompleteTouchesOne(clients: Clients, w: World, j: string, env: Env, x: StepInput)
    requires Accepts(clients, w, j, env, x)
    ensures
      var w' := CompleteInteraction(clients, w, j, env, x);
      && w'.calls == w.calls && w'.t.sessions.Keys == w.t.sessions.Keys
      && (forall i :: i in w.t.sessions && i != j ==> w'.t.sessions[i] == w.t.sessions[i])
  {
  }

  lemma CompleteSpends(clients: Clients, w: World, i: string, u: string, j: string, env: Env, x: StepInput)
    requires OnlyBy(w, i, u) && (j == i ==> x.userID == u)
    ensures Spends(w, CompleteInteraction(clients, w, j, env, x), i, u, if j == i && Accepts(clients, w, i, env, x) then 1 else 0)
  {
    if Accepts(clients, w, j, env, x) {
      CompleteTouchesOne(clients, w, j, env, x);
      AcceptedStep(clients, w, j, env, x);
      if j == i {
        AcceptedStepMovesOn(clients, w, i, env, x);
      }
      hide Accepts, CompleteInteraction, SessionFor, ApplyStep, CompleteStep, Rank, Less, CallOnlyBy, RequiredSteps,
        UpdateSession;
    }
  }

  lemma OpenSpends(clients: Clients, w: World, i: string, u: string, id: string, interaction: string, params: Params,
          c: Caller)
    requires Inv(clients, w) && OnlyBy(w, i, u) && ActsAs(Open(id, interaction, params, c), i, u)
    ensures Spends(w, OpenStep(clients, w, id, interaction, params, c), i, u, 0)
  {
  }

  lemma ReplacedCallSpends(w: World, i: string, u: string, id: string, call: Call)
    requires OnlyBy(w, i, u) && CallOnlyBy(call, id, i, u) && id in w.calls && !w.calls[id].Closed?
    ensures Spends(w, w.(calls := w.calls[id := call]), i, u, 0)
  {
  }

  lemma StoreSpends(w: World, i: string, u: string, id: string, created: Session)
    requires OnlyBy(w, i, u) && id in w.calls && !w.calls[id].Closed? && id !in w.t.sessions
    requires id == i ==> !IsOther(created, u)
    ensures Spends(w, Store(w, id, created), i, u, 0)
  {
  }

  lemma BindSpends(clients: Clients, w: World, i: string, u: string, id: string, env: Env)
    requires Inv(clients, w) && OnlyBy(w, i, u) && id in w.calls && w.calls[id].Opened?
    ensures Spends(w, BindStep(clients, w, id, env), i, u, 0)
  {
    var Opened(req, j) := w.calls[id];
    assert CallOnlyBy(w.calls[id], id, i, u);
    assert id !in w.t.sessions;
    var r := OpenAuthorize(clients, env, w.t.sessions, j, req, w.now);
    hide Inv, BoundSession, Preflight, Rank, Spends;
    if r.Err? {
      ReplacedCallSpends(w, i, u, id, Closed);
    } else if r.value.Proceed? {
      BoundSessionIsStored(w.t.sessions, j, req, w.now);
      ReplacedCallSpends(w, i, u, id, Bound(req, j, r.value.session, BindingOf(w, j)));
    } else {
      StoreSpends(w, i, u, id, r.value.created);
    }
  }

  // Closing the call, a transaction may delete the session of interaction i or create it for u
  lemma FinishedSpends(w: World, w': World, i: string, u: string, id: string)
    requires OnlyBy(w, i, u) && id in w.calls && w.calls[id].Bound? && id !in w.t.sessions
    requires w'.calls == w.calls[id := Closed]
    requires i in w.t.sessions ==> i in w.calls && w.calls[i].Closed?
    requires i in w'.t.sessions ==>
      if i == id then w'.t.sessions[i].userID == Some(u) else i in w.t.sessions && w'.t.sessions[i] == w.t.sessions[i]
    ensures Spends(w, w', i, u, 0)
  {
  }

  lemma FinishedSessions(clients: Clients, w: World, i: string, u: string, call: Call, env: Env)
    requires call.Bound? && CallOnlyBy(call, call.req.id, i, u)
    requires call.session.Some? ==> call.interaction != call.req.id
    requires AuthorizeAuthenticated(clients, env, w.t, call.req, ResumedBy(call), w.now).Ok?
    requires Shaped(w, call.req.id, call, AuthorizeAuthenticated(clients, env, w.t, call.req, ResumedBy(call), w.now).value)
    requires call.req.id !in w.t.sessions
    ensures
      var after := AuthorizeAuthenticated(clients, env, w.t, call.req, ResumedBy(call), w.now).value.tables.sessions;
      i in after ==>
        if i == call.req.id then after[i].userID == Some(u) else i in w.t.sessions && after[i] == w.t.sessions[i]
  {
  }

  lemma CommitSpends(clients: Clients, w: World, i: string, u: string, id: string, env: Env)
    requires Inv(clients, w) && OnlyBy(w, i, u) && id in w.calls && w.calls[id].Bound?
    ensures Spends(w, CommitStep(clients, w, id, env), i, u, 0)
  {
    var call := w.calls[id];
    var r := AuthorizeAuthenticated(clients, env, w.t, call.req, ResumedBy(call), w.now);
    assert CallOk(clients, w, id, call) && CallOnlyBy(call, id, i, u);
    assert id !in w.t.sessions && (i in w.t.sessions ==> i in w.calls && w.calls[i].Closed?);
    if r.Ok? {
      OutcomeIsShaped(clients, env, w, id);
      hide Inv, SessionOk, AuthorizeAuthenticated, Rank, Inherits, Grows, Spends, OnlyBy, Shaped;
      FinishedSessions(clients, w, i, u, call, env);
      FinishedSpends(w, CommitStep(clients, w, id, env), i, u, id);
    } else {
      hide Inv, SessionOk, AuthorizeAuthenticated, Rank, Inherits, Spends, OnlyBy;
      ReplacedCallSpends(w, i, u, id, Closed);
    }
  }

  lemma DropSpends(w: World, i: string, u: string, j: string)
    requires OnlyBy(w, i, u) && (i in w.t.sessions ==> i in w.calls && w.calls[i].Closed?)
    ensures Spends(w, w.(t := w.t.(sessions := w.t.sessions - {j})), i, u, 0)
  {
    hide Rank, CallOnlyBy;
  }

  lemma QuietStepSpends(w: World, w': World, i: string, u: string)
    requires OnlyBy(w, i, u) && w'.calls == w.calls && w'.t.sessions == w.t.sessions
    ensures Spends(w, w', i, u, 0)
  {
    hide Rank, CallOnlyBy;
  }

  lemma StepSpends(clients: Clients, w: World, a: Action, i: string, u: string)
    requires Inv(clients, w) && OnlyBy(w, i, u) && ActsAs(a, i, u)
    ensures Spends(w, InteractionRuns.Step(clients, w, a), i, u, if IsAcceptedStep(clients, w, a, i) then 1 else 0)
  {
    assert i in w.t.sessions ==> i in w.calls && w.calls[i].Closed?;
    hide Inv, OnlyBy, Spends, OpenStep, BindStep, CommitStep, CompleteInteraction, Accepts;
    match a
    case Open(id, j, params, caller) => OpenSpends(clients, w, i, u, id, j, params, caller);
    case Bind(id, env) =>
      if id in w.calls && w.calls[id].Opened? {
        BindSpends(clients, w, i, u, id, env);
      } else {
        UnboundCallIsIdle(clients, w, id, env);
        QuietStepSpends(w, w, i, u);
      }
    case Commit(id, env) =>
      if id in w.calls && w.calls[id].Bound? {
        CommitSpends(clients, w, i, u, id, env);
      } else {
        UnboundCallIsIdle(clients, w, id, env);
        QuietStepSpends(w, w, i, u);
      }
    case Complete(j, env, x) => CompleteSpends(clients, w, i, u, j, env, x);
    case Drop(j) => DropSpends(w, i, u, j);
    case _ => QuietStepSpends(w, InteractionRuns.Step(clients, w, a), i, u);
  }

  lemma UnboundCallIsIdle(clients: Clients, w: World, id: string, env: Env)
    ensures !(id in w.calls && w.calls[id].Opened?) ==> BindStep(clients, w, id, env) == w
    ensures !(id in w.calls && w.calls[id].Bound?) ==> CommitStep(clients, w, id, env) == w
  {
  }

  /**
   From any reachable state, one user completes at most four more steps of an interaction, however the
   steps raise each other's requirements and whatever else runs, as long as nobody else takes part in it.
   */
  lemma {:induction false} AtMostFourSteps(clients: Clients, w: World, actions: seq<Action>, i: string, u: string)
    requires Inv(clients, w) && OnlyBy(w, i, u)
    requires forall n :: 0 <= n < |actions| ==> ActsAs(actions[n], i, u)
    ensures AcceptedSteps(clients, w, actions, i) <= Budget(w, i) <= 4
    decreases |actions|
  {
    if |actions| == 0 {
    } else {
      StepKeepsInv(clients, w, actions[0]);
      StepSpends(clients, w, actions[0], i, u);
      hide Inv, OnlyBy, Budget, InteractionRuns.Step, IsAcceptedStep;
      AtMostFourSteps(clients, InteractionRuns.Step(clients, w, actions[0]), actions[1..], i, u);
      BudgetBound(w, i);
    }
  }

  lemma BudgetBound(w: World, i: string)
    ensures Budget(w, i) <= 4
  {
  }

  // ---------------------------------------------------------------- switching

  // Every proof a grant in the binding rests on is newer than w
  ghost predicate DemandsNewProofs(clients: Clients, w: World, w': World, i: string, binding: nat) {
    forall g :: g in w'.grants && g.ticket == i && g.binding == binding && LoginDemanded(clients, g.req.Query()) ==>
      exists token :: token !in w.proofs && token in w'.proofs && w'.proofs[token] == Proof(g.userID, i, binding)
  }

  lemma NewBindingDemandsNewProofs(clients: Clients, w: World, w': World, i: string)
    requires NumbersOk(w) && GrantsOk(clients, w')
    requires forall token :: token in w.proofs ==> token in w'.proofs && w'.proofs[token] == w.proofs[token]
    ensures DemandsNewProofs(clients, w, w', i, w.serial)
  {
    hide Inherits, LoginDemanded, RequestKeys, HasAuthorized, PromptHas, Param, FreshLogin, TimeIsGenuine;
    forall g | g in w'.grants && g.ticket == i && g.binding == w.serial && LoginDemanded(clients, g.req.Query())
      ensures exists token :: token !in w.proofs && token in w'.proofs && w'.proofs[token] == Proof(g.userID, i, g.binding)
    {
      assert Justified(clients, w', g);
      var token :| token in w'.proofs && w'.proofs[token] == Proof(g.userID, g.ticket, g.binding);
      assert token !in w.proofs;
    }
  }

  /**
   A step that switches the user, or selects an account, starts a binding that no earlier proof counts
   for: whatever proof a later grant in it rests on was used up after the switch.
   */
  lemma SwitchingDemandsANewProof(clients: Clients, w: World, i: string, env: Env, x: StepInput, actions: seq<Action>)
    requires Inv(clients, w) && Accepts(clients, w, i, env, x) && Rebinds(w.t.sessions[i], x)
    ensures
      var w1 := CompleteInteraction(clients, w, i, env, x);
      var w2 := Run(clients, w1, actions);
      w1.bindings[i] == w.serial && DemandsNewProofs(clients, w, w2, i, w1.bindings[i])
  {
    var w1 := CompleteInteraction(clients, w, i, env, x);
    var w2 := Run(clients, w1, actions);
    CompleteKeepsInv(clients, w, i, env, x);
    RunKeepsInv(clients, w1, actions);
    RemembersIsTransitive(w, w1, w2);
    hide SessionsOk, CallsOk, GrantsOk, TicketsOk, NumbersOk, Run, DemandsNewProofs, Grows;
    NewBindingDemandsNewProofs(clients, w, w2, i);
  }

  /**
   So does a different signed-in user who resumes an interaction: the switch in the authorize transaction
   starts a new binding, and neither the grant it may end in nor a later one rests on an earlier proof.
   */
  lemma ResumingAsAnotherDemandsANewProof(clients: Clients, w: World, id: string, env: Env, actions: seq<Action>)
    requires Inv(clients, w) && id in w.calls && w.calls[id].Bound?
    requires Switches(ResumedBy(w.calls[id]), w.calls[id].req.caller.userID)
    ensures
      var call, w1 := w.calls[id], CommitStep(clients, w, id, env);
      var w2 := Run(clients, w1, actions);
      && (AuthorizeAuthenticated(clients, env, w.t, call.req, ResumedBy(call), w.now).Ok? ==>
            call.interaction in w1.bindings && w1.bindings[call.interaction] == w.serial)
      && DemandsNewProofs(clients, w, w2, call.interaction, w.serial)
  {
    var w1 := CommitStep(clients, w, id, env);
    var w2 := Run(clients, w1, actions);
    CommitKeepsInv(clients, w, id, env);
    RunKeepsInv(clients, w1, actions);
    RemembersIsTransitive(w, w1, w2);
    hide SessionsOk, CallsOk, GrantsOk, TicketsOk, NumbersOk, Run, DemandsNewProofs, Grows, AuthorizeAuthenticated;
    NewBindingDemandsNewProofs(clients, w, w2, w.calls[id].interaction);
  }

  // ---------------------------------------------------------------- the end of an interaction

  // The rebuilt request asks for what the session stores
  lemma RebuiltRequest(s: Session, id: string, c: Caller)
    requires s.clientID == Param(s.params, "client_id") && s.scopes == ScopesOf(s.params)
    ensures
      var req := Request(id, Rebuilt(s.params), c);
      && req.ClientID() == s.clientID
      && ScopesOf(req.params) == s.scopes
      && req.Query().Resource() == AskedBy(s).Resource()
      && Param(req.params, "max_age") == Param(s.params, "max_age")
      && Param(req.params, "code_challenge") == Param(s.params, "code_challenge")
  {
  }

  // The session can be used up by its own user now
  predicate Ready(clients: Clients, env: Env, s: Session, c: Caller) {
    && s.userID == Some(c.userID) && c.userID != "" && !Any(s.needs)
    && s.clientID in clients
    && UserAllowed(env, c.userID, clients[s.clientID])
    && ResolveGrant(env, s.clientID, AskedBy(s).Resource(), s.scopes).Ok?
  }

  lemma ReadySessionOpens(clients: Clients, env: Env, sessions: map<string, Session>, i: string, req: Request,
          now: Time)
    requires i != "" && GetSession(sessions, i, now).Some? && Ready(clients, env, sessions[i], req.caller)
    requires req.ClientID() == sessions[i].clientID && ScopesOf(req.params) == sessions[i].scopes
    requires req.Query().Resource() == AskedBy(sessions[i]).Resource()
    requires clients[sessions[i].clientID].requiresPkce ==> Param(req.params, "code_challenge") != ""
    ensures OpenAuthorize(clients, env, sessions, i, req, now) == Ok(Proceed(Some(sessions[i])))
  {
  }

  lemma ReadySessionIsGranted(clients: Clients, env: Env, t: Tables, i: string, req: Request, now: Time)
    requires i in t.sessions && Ready(clients, env, t.sessions[i], req.caller)
    requires req.ClientID() == t.sessions[i].clientID && ScopesOf(req.params) == t.sessions[i].scopes
    requires req.Query().Resource() == AskedBy(t.sessions[i]).Resource()
    requires Param(req.params, "max_age") == Param(t.sessions[i].params, "max_age") && MaxAgeParses(t.sessions[i].params)
    ensures
      var r := AuthorizeAuthenticated(clients, env, t, req, Some(Resumed(i, t.sessions[i])), now);
      var q := AskedBy(t.sessions[i]);
      && r.Ok? && !r.value.consumed && r.value.answer.Granted?
      && r.value.answer.resolved == Resolved(AudienceOf(q.clientID, q.Resource()), Dedup(q.scopes))
      && r.value.tables.sessions == t.sessions - {i}
  {
    assert MaxAgeParses(req.params);
    MaxAgeParsesForAll(req.params, req.caller.authenticatedAt, now);
    hide MaxAgeParses, DueByMaxAge, Fields;
  }

  // The first two steps of resuming change nothing but the call
  lemma ReadySessionIsBound(clients: Clients, env: Env, w: World, id: string, i: string, c: Caller)
    requires id != "" && id !in w.calls && i != "" && i in w.bindings
    requires GetSession(w.t.sessions, i, w.now).Some? && Ready(clients, env, w.t.sessions[i], c)
    requires w.t.sessions[i].clientID == Param(w.t.sessions[i].params, "client_id")
    requires w.t.sessions[i].scopes == ScopesOf(w.t.sessions[i].params)
    requires ClientOf(clients, w.t.sessions[i].clientID).requiresPkce ==> Param(w.t.sessions[i].params, "code_challenge") != ""
    ensures
      var s := w.t.sessions[i];
      var w1 := OpenStep(clients, w, id, i, map[], c);
      var w2 := BindStep(clients, w1, id, env);
      && w2.t == w.t && w2.now == w.now && w2.grants == w.grants && w2.serial == w.serial
      && id in w2.calls && w2.calls[id] == Bound(Request(id, Rebuilt(s.params), c), i, Some(s), w.bindings[i])
  {
    var s := w.t.sessions[i];
    RebuiltRequest(s, id, c);
    ReadySessionOpens(clients, env, w.t.sessions, i, Request(id, Rebuilt(s.params), c), w.now);
    hide Rebuilt, OpenAuthorize, Ready, ScopesOf, ResolveGrant, DueByMaxAge;
    assert s.clientID in clients by { assert Ready(clients, env, s, c) ==> s.clientID in clients; }
    assert OpenStep(clients, w, id, i, map[], c).calls[id] == Opened(Request(id, Rebuilt(s.params), c), i);
  }

  lemma CommittedGrant(clients: Clients, env: Env, w: World, id: string, o: Outcome)
    requires id in w.calls && w.calls[id].Bound? && w.calls[id].session.Some?
    requires !Switches(ResumedBy(w.calls[id]), w.calls[id].req.caller.userID)
    requires AuthorizeAuthenticated(clients, env, w.t, w.calls[id].req, ResumedBy(w.calls[id]), w.now) == Ok(o)
    requires o.answer.Granted?
    ensures
      var call := w.calls[id];
      var w' := CommitStep(clients, w, id, env);
      && w'.t == o.tables
      && w'.grants == w.grants + [Grant(call.interaction, call.binding, call.req.caller.userID, call.req,
                                        o.answer.resolved, o.answer.found, o.answer.authenticatedAt, w.now)]
  {
  }

  /**
   An interaction with nothing left to do ends in a grant: its own user resumes it and gets exactly the
   session's scopes, each once, and the session is gone.
   */
  lemma FinishedInteractionIsGranted(clients: Clients, env: Env, w: World, id: string, i: string, c: Caller)
    requires Inv(clients, w) && id != "" && id !in w.calls
    requires GetSession(w.t.sessions, i, w.now).Some? && Ready(clients, env, w.t.sessions[i], c)
    ensures
      var s := w.t.sessions[i];
      var w1 := OpenStep(clients, w, id, i, map[], c);
      var w2 := CommitStep(clients, BindStep(clients, w1, id, env), id, env);
      && |w2.grants| == |w.grants| + 1
      && w2.t.sessions == w.t.sessions - {i}
      && var g := Last(w2.grants);
        && g.ticket == i && g.userID == c.userID && g.binding == w.bindings[i]
        && g.resolved == Resolved(AudienceOf(s.clientID, AskedBy(s).Resource()), Dedup(s.scopes))
  {
    var s := w.t.sessions[i];
    assert SessionOk(clients, w, i, s, w.bindings[i]) && i != "";
    ReadySessionIsBound(clients, env, w, id, i, c);
    RebuiltRequest(s, id, c);
    var req := Request(id, Rebuilt(s.params), c);
    ReadySessionIsGranted(clients, env, w.t, i, req, w.now);
    var o := AuthorizeAuthenticated(clients, env, w.t, req, Some(Resumed(i, s)), w.now).value;
    assert s.userID == Some(c.userID);
    hide Inv, SessionOk, OpenStep, BindStep, AuthorizeAuthenticated, Ready, Rebuilt, ScopesOf, ResolveGrant,
      UserAllowed, CommitStep, AskedBy;
    CommittedGrant(clients, env, BindStep(clients, OpenStep(clients, w, id, i, map[], c), id, env), id, o);
  }
}
