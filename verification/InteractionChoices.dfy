/**
 What the user deselects stays out: a grant in a binding in which the user completed a consent step holds
 no scope that this step had narrowed away, whatever stale sessions are still in flight.
 */
module InteractionChoices {
  import opened Common
  import opened Lists
  import opened Text
  import opened Consent
  import opened Resource
  import opened Interaction
  import opened InteractionRuns
  import opened InteractionFrames
  import opened InteractionSteps
  import opened InteractionSafety
  import InteractionProgress

  // A user is bound who owes no consent, and if there was a choice, it is what the session asks for
  predicate Settled(s: Session) {
    s.userID.Some? && !s.needs.consent
  }

  ghost predicate Respects(w: World, i: string, binding: nat, scopes: seq<string>) {
    forall x :: x in w.choices && x.0 == i && x.1 == binding ==> forall scope :: scope in scopes ==> scope in x.2
  }

  ghost predicate NoChoice(w: World, i: string, binding: nat) {
    forall x :: x in w.choices ==> !(x.0 == i && x.1 == binding)
  }

  ghost predicate RowsRespect(w: World) {
    forall i :: i in w.t.sessions && i in w.bindings ==>
      && (Settled(w.t.sessions[i]) || NoChoice(w, i, w.bindings[i]))
      && Respects(w, i, w.bindings[i], w.t.sessions[i].scopes)
  }

  ghost predicate CallRespects(w: World, call: Call) {
    call.Bound? && call.session.Some? && Settled(call.session.value) ==>
      && Respects(w, call.interaction, call.binding, call.session.value.scopes)
      && (call.interaction in w.t.sessions && BindingOf(w, call.interaction) == call.binding ==>
            Settled(w.t.sessions[call.interaction]))
  }

  ghost predicate CallsRespect(w: World) {
    forall id :: id in w.calls ==> CallRespects(w, w.calls[id])
  }

  ghost predicate GrantsRespect(w: World) {
    forall n :: 0 <= n < |w.grants| ==>
      Respects(w, w.grants[n].ticket, w.grants[n].binding, ScopesOf(w.grants[n].req.params))
  }

  ghost predicate ChoicesOk(w: World) {
    && RowsRespect(w) && CallsRespect(w) && GrantsRespect(w)
    && (forall x :: x in w.choices ==> x.1 < w.serial)
  }

  // ---------------------------------------------------------------- steps that make no choice

  // Rows are as they were, gone, or under a new number; snapshots are as they were, or taken from a row
  ghost predicate NoNewChoice(w: World, w': World) {
    && w'.choices == w.choices && w.serial <= w'.serial
    && (forall i :: i in w'.t.sessions && i in w'.bindings ==>
          || (i in w.t.sessions && i in w.bindings && w'.t.sessions[i] == w.t.sessions[i] && w'.bindings[i] == w.bindings[i])
          || w'.bindings[i] >= w.serial)
    && (forall id :: id in w'.calls && w'.calls[id].Bound? && w'.calls[id].session.Some? ==>
          var c := w'.calls[id];
          && c.binding < w.serial
          && (|| (id in w.calls && w.calls[id] == c)
              || (c.interaction in w.t.sessions && c.interaction in w.bindings
                  && c.session == Some(w.t.sessions[c.interaction]) && c.binding == w.bindings[c.interaction])))
    && (forall i :: i in w'.t.sessions ==> i in w'.bindings)
  }

  lemma NoNewChoiceKeepsRows(w: World, w': World)
    requires ChoicesOk(w) && NoNewChoice(w, w')
    ensures RowsRespect(w')
  {
    hide CallsRespect, GrantsRespect, Settled;
  }

  lemma NoNewChoiceKeepsCalls(w: World, w': World)
    requires ChoicesOk(w) && NoNewChoice(w, w')
    ensures CallsRespect(w')
  {
    forall id | id in w'.calls ensures CallRespects(w', w'.calls[id]) {
      var c := w'.calls[id];
      if c.Bound? && c.session.Some? && Settled(c.session.value) {
        if id in w.calls && w.calls[id] == c {
          assert CallRespects(w, c);
        }
        hide Settled, GrantsRespect, CallsRespect;
      }
    }
  }

  lemma NoNewChoiceKeepsOk(w: World, w': World)
    requires ChoicesOk(w) && NoNewChoice(w, w') && w.grants <= w'.grants
    requires forall n :: |w.grants| <= n < |w'.grants| ==>
      Respects(w, w'.grants[n].ticket, w'.grants[n].binding, ScopesOf(w'.grants[n].req.params))
    ensures ChoicesOk(w')
  {
    NoNewChoiceKeepsRows(w, w');
    NoNewChoiceKeepsCalls(w, w');
    hide RowsRespect, CallsRespect, ScopesOf;
  }

  // What the main invariant says about numbers
  ghost predicate Numbered(w: World) {
    && (forall i :: i in w.t.sessions ==> i in w.bindings && w.bindings[i] < w.serial)
    && (forall id :: id in w.calls && w.calls[id].Bound? && w.calls[id].session.Some? ==> w.calls[id].binding < w.serial)
  }

  lemma InvIsNumbered(clients: Clients, w: World)
    requires Inv(clients, w)
    ensures Numbered(w)
  {
    hide GrantsOk, TicketsOk, NumbersOk;
    forall i | i in w.t.sessions ensures i in w.bindings && w.bindings[i] < w.serial {
      assert SessionOk(clients, w, i, w.t.sessions[i], w.bindings[i]);
    }
    forall id | id in w.calls && w.calls[id].Bound? && w.calls[id].session.Some? ensures w.calls[id].binding < w.serial {
      assert CallOk(clients, w, id, w.calls[id]);
    }
  }

  lemma QuietStepMakesNoChoice(clients: Clients, w: World, a: Action)
    requires Numbered(w) && (a.IssueToken? || a.Drop? || a.Advance?)
    ensures NoNewChoice(w, InteractionRuns.Step(clients, w, a)) && InteractionRuns.Step(clients, w, a).grants == w.grants
  {
    hide OpenStep, BindStep, CommitStep, CompleteInteraction;
  }

  lemma OpenMakesNoChoice(clients: Clients, w: World, id: string, interaction: string, params: Params, c: Caller)
    requires Numbered(w)
    ensures
      var w' := OpenStep(clients, w, id, interaction, params, c);
      NoNewChoice(w, w') && w'.grants == w.grants
  {
    hide Rebuilt, Param, GetSession;
  }

  lemma SetCallMakesNoChoice(w: World, id: string, call: Call)
    requires Numbered(w)
    requires call.Bound? && call.session.Some? ==>
      call.interaction in w.t.sessions && call.session == Some(w.t.sessions[call.interaction])
      && call.binding == BindingOf(w, call.interaction)
    ensures NoNewChoice(w, SetCall(w, id, call))
  {
  }

  lemma StoreMakesNoChoice(w: World, id: string, created: Session)
    requires Numbered(w)
    ensures NoNewChoice(w, Store(w, id, created))
  {
  }

  lemma BindMakesNoChoice(clients: Clients, w: World, id: string, env: Env)
    requires Numbered(w)
    ensures
      var w' := BindStep(clients, w, id, env);
      NoNewChoice(w, w') && w'.grants == w.grants
  {
    if id in w.calls && w.calls[id].Opened? {
      var Opened(req, i) := w.calls[id];
      var r := OpenAuthorize(clients, env, w.t.sessions, i, req, w.now);
      hide BoundSession, Preflight, Numbered, NoNewChoice;
      if r.Err? {
        SetCallMakesNoChoice(w, id, Closed);
      } else if r.value.Proceed? {
        BoundSessionIsStored(w.t.sessions, i, req, w.now);
        SetCallMakesNoChoice(w, id, Bound(req, i, r.value.session, BindingOf(w, i)));
      } else {
        StoreMakesNoChoice(w, id, r.value.created);
      }
    } else {
      hide Numbered;
      SameMakesNoChoice(w);
    }
  }

  lemma SameMakesNoChoice(w: World)
    requires Numbered(w)
    ensures NoNewChoice(w, w)
  {
  }

  lemma FinishedMakesNoChoice(w: World, id: string, call: Call, o: Outcome)
    requires Numbered(w) && Shaped(w, id, call, o)
    requires !Anew(call) && TicketOf(call) in o.tables.sessions ==>
      TicketOf(call) in w.t.sessions && o.tables.sessions[TicketOf(call)] == w.t.sessions[TicketOf(call)]
    ensures NoNewChoice(w, Finished(w, id, call, o)) && w.grants <= Finished(w, id, call, o).grants
  {
    hide Grows;
  }

  lemma CommitMakesNoChoice(clients: Clients, w: World, id: string, env: Env)
    requires Inv(clients, w) && Numbered(w)
    ensures NoNewChoice(w, CommitStep(clients, w, id, env)) && w.grants <= CommitStep(clients, w, id, env).grants
  {
    if id in w.calls && w.calls[id].Bound? {
      var call := w.calls[id];
      var r := AuthorizeAuthenticated(clients, env, w.t, call.req, ResumedBy(call), w.now);
      if r.Ok? {
        OutcomeIsShaped(clients, env, w, id);
        if call.session.Some? && TicketOf(call) in r.value.tables.sessions {
          assert !r.value.answer.Granted?;
          LeftRow(clients, env, w.t, call.req, ResumedBy(call).value, w.now, r.value);
        }
        hide Inv, AuthorizeAuthenticated, SwitchResumed, Shaped, Numbered, NoNewChoice;
        FinishedMakesNoChoice(w, id, call, r.value);
      } else {
        hide Inv, AuthorizeAuthenticated, Numbered;
        SetCallMakesNoChoice(w, id, Closed);
      }
    } else {
      hide Inv, Numbered, AuthorizeAuthenticated;
      SameMakesNoChoice(w);
    }
  }

  lemma CommittedGrant(clients: Clients, w: World, id: string, env: Env)
    requires id in w.calls && w.calls[id].Bound? && |CommitStep(clients, w, id, env).grants| > |w.grants|
    ensures
      var call := w.calls[id];
      var r := AuthorizeAuthenticated(clients, env, w.t, call.req, ResumedBy(call), w.now);
      var g := Last(CommitStep(clients, w, id, env).grants);
      && r.Ok? && r.value.answer.Granted?
      && |CommitStep(clients, w, id, env).grants| == |w.grants| + 1
      && g.ticket == TicketOf(call) && g.binding == BindingIn(w, call) && g.req == call.req
  {
    hide AuthorizeAuthenticated;
  }

  lemma UsedSessionRespects(clients: Clients, w: World, call: Call, env: Env)
    requires call.Bound? && !Anew(call) && CallOk(clients, w, call.req.id, call) && CallRespects(w, call)
    requires AuthorizeAuthenticated(clients, env, w.t, call.req, ResumedBy(call), w.now).Ok?
    requires AuthorizeAuthenticated(clients, env, w.t, call.req, ResumedBy(call), w.now).value.answer.Granted?
    ensures Respects(w, call.interaction, call.binding, ScopesOf(call.req.params))
  {
    var s := call.session.value;
    ResumedGrantPieces(clients, env, w.t, call.req, Resumed(call.interaction, s), w.now,
                       AuthorizeAuthenticated(clients, env, w.t, call.req, ResumedBy(call), w.now).value);
    NeedsAuthenticationIffUnbound(clients, w, call.interaction, s, call.binding);
    hide AuthorizeAuthenticated, SessionOk, RequestOk, ScopesOf;
    assert Settled(s);
  }

  lemma CommittedGrantRespects(clients: Clients, w: World, id: string, env: Env)
    requires Inv(clients, w) && ChoicesOk(w) && id in w.calls && w.calls[id].Bound?
    requires |CommitStep(clients, w, id, env).grants| > |w.grants|
    ensures
      var g := Last(CommitStep(clients, w, id, env).grants);
      Respects(w, g.ticket, g.binding, ScopesOf(g.req.params))
  {
    var call := w.calls[id];
    CommittedGrant(clients, w, id, env);
    assert CallOk(clients, w, id, call) && CallRespects(w, call);
    hide Inv, AuthorizeAuthenticated, RowsRespect, CallsRespect, GrantsRespect, CallRespects, ScopesOf, CommitStep, SessionOk;
    if !Anew(call) {
      UsedSessionRespects(clients, w, call, env);
    }
  }

  // ---------------------------------------------------------------- completing a step

  // What a step does to the scopes and the consent flag
  lemma AppliedScopes(clients: Clients, env: Env, t: Tables, s: Session, x: StepInput, now: Time)
    requires Current(s, x) && ApplyStep(clients, env, t, s, x, now).Ok?
    ensures
      var s' := ApplyStep(clients, env, t, s, x, now).value.session;
      && s'.userID.Some?
      && (x.step == GiveConsent ==> s.needs.consent && !s'.needs.consent)
      && (x.step == Reauthenticate ==> s'.scopes == s.scopes && s'.needs.consent == s.needs.consent)
      && (x.step == Authenticate ==> s.needs.authentication)
  {
    hide RequirementsFor, FirstUnrequested, KeepApproved, ResolveGrant, Record, KeysForGrant;
  }

  // Of an accepted step, before and after: the row, and the choice it makes
  ghost predicate RowChange(w: World, w': World, i: string, x: StepInput) {
    && i in w.t.sessions && i in w.bindings && i in w'.t.sessions && i in w'.bindings
    && var s, s', b := w.t.sessions[i], w'.t.sessions[i], w'.bindings[i];
      && w'.choices == (if x.step == GiveConsent then w.choices + {(i, b, s'.scopes)} else w.choices)
      && (x.step == GiveConsent ==> Settled(s'))
      && (if b == w.serial then true
          else
            && b == w.bindings[i]
            && (x.step == GiveConsent ==> !Settled(s))
            && (x.step == Reauthenticate ==> s'.scopes == s.scopes && Settled(s') == Settled(s))
            && (x.step == Authenticate ==> !Settled(s))
            && x.step != SelectAccount)
  }

  lemma CompleteChangesRow(clients: Clients, w: World, i: string, env: Env, x: StepInput)
    requires Accepts(clients, w, i, env, x) && i in w.bindings
    requires SessionOk(clients, w, i, w.t.sessions[i], w.bindings[i])
    ensures RowChange(w, CompleteInteraction(clients, w, i, env, x), i, x)
  {
    CompletedRow(clients, w, i, env, x);
    var stored := w.t.sessions[i];
    var s := SessionFor(clients, env, w.t, stored, x, w.now).value;
    NeedsAuthenticationIffUnbound(clients, w, i, stored, w.bindings[i]);
    SessionForIsCurrent(clients, env, w.t, stored, x, w.now);
    hide Accepts, CompleteInteraction, ApplyStep, SessionFor, SessionOk, RequiredSteps;
    AppliedScopes(clients, env, w.t, s, x, w.now);
  }

  lemma SessionForIsCurrent(clients: Clients, env: Env, t: Tables, stored: Session, x: StepInput, now: Time)
    requires SessionFor(clients, env, t, stored, x, now).Ok?
    ensures !IsOther(SessionFor(clients, env, t, stored, x, now).value, x.userID)
    ensures !IsOther(stored, x.userID) ==> SessionFor(clients, env, t, stored, x, now).value == stored
  {
    hide RequirementsFor;
  }

  // Everything but row i and its number is as it was
  ghost predicate OnlyRow(w: World, w': World, i: string) {
    && w'.calls == w.calls && w'.grants == w.grants && w'.serial == w.serial + 1
    && w'.t.sessions.Keys == w.t.sessions.Keys
    && (forall j :: j != i && j in w.t.sessions ==> w'.t.sessions[j] == w.t.sessions[j])
    && (forall j :: j != i ==> (j in w'.bindings <==> j in w.bindings) && BindingOf(w', j) == BindingOf(w, j))
    && i in w'.bindings && w'.bindings[i] < w'.serial
  }

  ghost predicate RowRespects(w: World, i: string)
    requires i in w.t.sessions && i in w.bindings
  {
    && (Settled(w.t.sessions[i]) || NoChoice(w, i, w.bindings[i]))
    && Respects(w, i, w.bindings[i], w.t.sessions[i].scopes)
  }

  lemma CompletedRowRespects(w: World, w': World, i: string, x: StepInput)
    requires ChoicesOk(w) && Numbered(w) && RowChange(w, w', i, x)
    ensures RowRespects(w', i)
  {
    hide CallsRespect, GrantsRespect, Settled;
  }

  lemma OtherRowRespects(w: World, w': World, i: string, x: StepInput, j: string)
    requires RowsRespect(w) && RowChange(w, w', i, x) && OnlyRow(w, w', i) && j != i
    requires j in w'.t.sessions && j in w'.bindings
    ensures RowRespects(w', j)
  {
    hide Settled;
  }

  lemma CompletedRowsRespect(w: World, w': World, i: string, x: StepInput)
    requires ChoicesOk(w) && Numbered(w) && RowChange(w, w', i, x) && OnlyRow(w, w', i)
    ensures RowsRespect(w')
  {
    forall j | j in w'.t.sessions && j in w'.bindings ensures RowRespects(w', j) {
      hide RowsRespect, RowRespects, CallsRespect, GrantsRespect, OnlyRow, Numbered;
      if j == i {
        CompletedRowRespects(w, w', i, x);
      } else {
        OtherRowRespects(w, w', i, x, j);
      }
    }
    hide CallsRespect, GrantsRespect, Settled, OnlyRow, RowChange, Numbered, Respects, NoChoice;
  }

  lemma CompletedCallRespects(w: World, w': World, i: string, x: StepInput, id: string)
    requires ChoicesOk(w) && Numbered(w) && RowChange(w, w', i, x) && OnlyRow(w, w', i) && id in w.calls
    ensures CallRespects(w', w.calls[id])
  {
    assert CallRespects(w, w.calls[id]);
    hide CallsRespect, GrantsRespect, RowsRespect, Settled;
  }

  lemma CompletedCallsRespect(w: World, w': World, i: string, x: StepInput)
    requires ChoicesOk(w) && Numbered(w) && RowChange(w, w', i, x) && OnlyRow(w, w', i)
    ensures CallsRespect(w')
  {
    forall id | id in w'.calls ensures CallRespects(w', w'.calls[id]) {
      CompletedCallRespects(w, w', i, x, id);
    }
  }

  // A choice is made while the session is there, so no grant used it up before
  lemma CompletedGrantsRespect(w: World, w': World, i: string, x: StepInput)
    requires ChoicesOk(w) && TicketsOk(w) && RowChange(w, w', i, x) && OnlyRow(w, w', i)
    ensures GrantsRespect(w')
  {
    hide CallsRespect, RowsRespect, Settled, ScopesOf;
    forall n | 0 <= n < |w'.grants|
      ensures Respects(w', w'.grants[n].ticket, w'.grants[n].binding, ScopesOf(w'.grants[n].req.params))
    {
      assert w.grants[n].ticket !in w.t.sessions;
      assert Respects(w, w.grants[n].ticket, w.grants[n].binding, ScopesOf(w.grants[n].req.params));
    }
  }

  lemma CompleteTouchesOnlyRow(clients: Clients, w: World, i: string, env: Env, x: StepInput)
    requires Accepts(clients, w, i, env, x) && i in w.bindings && w.bindings[i] < w.serial
    ensures OnlyRow(w, CompleteInteraction(clients, w, i, env, x), i)
  {
    AcceptedStep(clients, w, i, env, x);
    hide Accepts, CompleteStep, ApplyStep, SessionFor, RequiredSteps;
  }

  lemma CompleteKeepsChoices(clients: Clients, w: World, i: string, env: Env, x: StepInput)
    requires Inv(clients, w) && ChoicesOk(w) && Accepts(clients, w, i, env, x)
    ensures ChoicesOk(CompleteInteraction(clients, w, i, env, x))
  {
    var w' := CompleteInteraction(clients, w, i, env, x);
    AcceptedStep(clients, w, i, env, x);
    InvIsNumbered(clients, w);
    assert SessionOk(clients, w, i, w.t.sessions[i], w.bindings[i]);
    assert TicketsOk(w);
    hide Accepts, CompleteInteraction, Inv, SessionOk, RowsRespect, CallsRespect, GrantsRespect, TicketsOk, RequiredSteps, Settled;
    CompleteChangesRow(clients, w, i, env, x);
    CompleteTouchesOnlyRow(clients, w, i, env, x);
    CompletedRowsRespect(w, w', i, x);
    CompletedCallsRespect(w, w', i, x);
    CompletedGrantsRespect(w, w', i, x);
  }

  lemma NewGrantsRespect(clients: Clients, w: World, id: string, env: Env)
    requires Inv(clients, w) && ChoicesOk(w) && Numbered(w)
    ensures
      var w' := CommitStep(clients, w, id, env);
      forall n :: |w.grants| <= n < |w'.grants| ==>
        Respects(w, w'.grants[n].ticket, w'.grants[n].binding, ScopesOf(w'.grants[n].req.params))
  {
    hide CommitStep, Inv, ChoicesOk, AuthorizeAuthenticated, Respects, ScopesOf;
    var w' := CommitStep(clients, w, id, env);
    CommitMakesNoChoice(clients, w, id, env);
    InteractionProgress.UnboundCallIsIdle(clients, w, id, env);
    if |w'.grants| > |w.grants| {
      CommittedGrant(clients, w, id, env);
      CommittedGrantRespects(clients, w, id, env);
    }
  }

  lemma CommitKeepsChoices(clients: Clients, w: World, id: string, env: Env)
    requires Inv(clients, w) && ChoicesOk(w)
    ensures ChoicesOk(CommitStep(clients, w, id, env))
  {
    hide Inv, ChoicesOk, NoNewChoice, Numbered, CommitStep, Respects;
    InvIsNumbered(clients, w);
    CommitMakesNoChoice(clients, w, id, env);
    NewGrantsRespect(clients, w, id, env);
    NoNewChoiceKeepsOk(w, CommitStep(clients, w, id, env));
  }

  lemma StepKeepsChoices(clients: Clients, w: World, a: Action)
    requires Inv(clients, w) && ChoicesOk(w)
    ensures ChoicesOk(InteractionRuns.Step(clients, w, a))
  {
    InvIsNumbered(clients, w);
    hide Inv, ChoicesOk, Numbered, NoNewChoice, OpenStep, BindStep, CommitStep, CompleteInteraction, Accepts;
    match a
    case Open(id, i, params, caller) =>
      OpenMakesNoChoice(clients, w, id, i, params, caller);
      NoNewChoiceKeepsOk(w, OpenStep(clients, w, id, i, params, caller));
    case Bind(id, env) =>
      BindMakesNoChoice(clients, w, id, env);
      NoNewChoiceKeepsOk(w, BindStep(clients, w, id, env));
    case Commit(id, env) => CommitKeepsChoices(clients, w, id, env);
    case Complete(i, env, x) =>
      if Accepts(clients, w, i, env, x) {
        CompleteKeepsChoices(clients, w, i, env, x);
      } else {
        RefusedStepIsIdle(clients, w, i, env, x);
      }
    case _ =>
      QuietStepMakesNoChoice(clients, w, a);
      NoNewChoiceKeepsOk(w, InteractionRuns.Step(clients, w, a));
  }

  lemma RefusedStepIsIdle(clients: Clients, w: World, i: string, env: Env, x: StepInput)
    requires !Accepts(clients, w, i, env, x)
    ensures CompleteInteraction(clients, w, i, env, x) == w
  {
    hide Accepts;
  }

  lemma {:induction false} RunKeepsChoices(clients: Clients, w: World, actions: seq<Action>)
    requires Inv(clients, w) && ChoicesOk(w)
    ensures ChoicesOk(Run(clients, w, actions))
    decreases |actions|
  {
    if |actions| == 0 {
    } else {
      hide Inv, ChoicesOk, InteractionRuns.Step;
      StepKeepsInv(clients, w, actions[0]);
      StepKeepsChoices(clients, w, actions[0]);
      RunKeepsChoices(clients, InteractionRuns.Step(clients, w, actions[0]), actions[1..]);
    }
  }

  /**
   In every run, whatever a user left out in a completed consent step is not in a grant of that binding,
   not even when the granting call had read its parameters or its session before the step.
   */
  lemma DeselectedScopesAreNeverGranted(clients: Clients, now: Time, consents: Rows, actions: seq<Action>)
    ensures
      var w := Run(clients, Start(now, consents), actions);
      forall n, x :: 0 <= n < |w.grants| && x in w.choices && x.0 == w.grants[n].ticket && x.1 == w.grants[n].binding ==>
        forall scope :: scope in w.grants[n].resolved.scopes ==> scope in x.2
  {
    var w := Run(clients, Start(now, consents), actions);
    assert Inv(clients, Start(now, consents)) && ChoicesOk(Start(now, consents));
    RunKeepsChoices(clients, Start(now, consents), actions);
    EveryGrantIsJustified(clients, now, consents, actions);
    hide Inv, Run, Inherits, ScopesOf, RowsRespect, CallsRespect;
    forall n | 0 <= n < |w.grants|
      ensures forall scope :: scope in w.grants[n].resolved.scopes ==> scope in ScopesOf(w.grants[n].req.params)
      ensures Respects(w, w.grants[n].ticket, w.grants[n].binding, ScopesOf(w.grants[n].req.params))
    {
      assert Justified(clients, w, w.grants[n]);
    }
  }
}
