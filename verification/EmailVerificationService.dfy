/** The service calls around the actor, with everyone else's steps in between. */
module EmailVerificationService {
  import opened Common
  import opened EmailVerificationActor
  import opened EmailVerification

  datatype Outcome = Verified | InvalidToken | EmailInUse | DatabaseError

  // No one else works on this verification
  predicate LeavesAlone(actions: seq<Action>, f: nat) {
    forall a | a in actions :: a.Consume? || a.UpdateUser? || a.Restore? || a.GiveUp? ==> a.flight != f
  }

  ghost predicate Grew(w: World, w': World) {
    && w.updates <= w'.updates
    && (forall h :: h in w.mailed ==> h in w'.mailed && w'.mailed[h] == w.mailed[h])
  }

  // No update with token h was logged after position n
  ghost predicate NotAppliedSince(w: World, n: nat, h: string) {
    forall i :: n <= i < |w.updates| ==> w.updates[i].tokenHash != h
  }

  lemma StepGrows(w: World, a: Action)
    ensures Grew(w, Step(w, a))
  {
  }

  lemma {:induction false} RunGrows(w: World, actions: seq<Action>)
    ensures Grew(w, Run(w, actions))
    decreases |actions|
  {
    if actions == [] {
    } else {
      StepGrows(w, actions[0]);
      hide Step;
      RunGrows(Step(w, actions[0]), actions[1..]);
    }
  }

  lemma OneLeavesFlight(w: World, a: Action, f: nat)
    requires a.Consume? || a.UpdateUser? || a.Restore? || a.GiveUp? ==> a.flight != f
    ensures FlightOf(Step(w, a), f) == FlightOf(w, f) && (f in Step(w, a).flights <==> f in w.flights)
  {
  }

  lemma {:induction false} OthersLeaveFlight(w: World, actions: seq<Action>, f: nat)
    requires LeavesAlone(actions, f)
    ensures FlightOf(Run(w, actions), f) == FlightOf(w, f)
    ensures f in Run(w, actions).flights <==> f in w.flights
    ensures Grew(w, Run(w, actions))
    decreases |actions|
  {
    if actions == [] {
    } else {
      var w' := Step(w, actions[0]);
      StepGrows(w, actions[0]);
      OneLeavesFlight(w, actions[0], f);
      hide Step;
      OthersLeaveFlight(w', actions[1..], f);
    }
  }

  // While a verification holds the token nobody else can apply it
  lemma HeldIsNotApplied(w: World, f: nat, n: nat)
    requires Inv(w) && f in w.flights && w.flights[f] != Landed
    ensures NotAppliedSince(w, n, w.flights[f].state.tokenHash)
  {
    var h := w.flights[f].state.tokenHash;
    forall i | n <= i < |w.updates| ensures w.updates[i].tokenHash != h {
      assert At(w, InFlight(f), h) && Genuine(w, w.flights[f].userID, w.flights[f].state);
      assert At(w, Applied(i), w.updates[i].tokenHash);
    }
  }

  class Service {
    var world: World

    constructor (now: Time, accounts: map<string, Account>)
      ensures Inv(world) && world == Start(now, accounts)
    {
      world := Start(now, accounts);
    }

    method Interfere(actions: seq<Action>)
      requires Inv(world)
      modifies this
      ensures Inv(world) && world == Run(old(world), actions)
    {
      RunKeepsInv(world, actions);
      world := Run(world, actions);
    }

    method Take(a: Action)
      requires Inv(world)
      modifies this
      ensures Inv(world) && world == Step(old(world), a)
    {
      StepKeepsInv(world, a);
      world := Step(world, a);
    }

    /**
     Mail a link for the current address, or for a new one. When the mail fails its token is not left in the actor.
     */
    method Issue(u: string, h: string, newEmail: Option<string>, mailFails: bool, others: seq<Action>)
      returns (sent: bool)
      requires Inv(world) && h != "" && h !in world.mailed
      modifies this
      ensures Inv(world)
      ensures sent ==> !mailFails && u in old(world).accounts && old(world).accounts[u].email.Some?
      ensures sent ==>
        world == Run(Step(old(world), if newEmail.Some? then RequestChange(u, h, newEmail.value) else Send(u, h)), others)
      ensures sent ==>
        && h in world.mailed
        && var current := old(world).accounts[u].email.value;
           world.mailed[h] == if newEmail.Some? then Mail(u, newEmail.value, current) else Mail(u, current, "")
      ensures mailFails && u in old(world).accounts && old(world).accounts[u].email.Some? ==> !At(world, InActor(u), h)
    {
      if u !in world.accounts || world.accounts[u].email.None? {
        return false;
      }
      var current := world.accounts[u].email.value;
      if newEmail.Some? {
        RequestChangeIssues(world, u, h, current, newEmail.value);
      } else {
        SendIssues(world, u, h, current);
      }
      Take(if newEmail.Some? then RequestChange(u, h, newEmail.value) else Send(u, h));
      RunGrows(world, others);
      Interfere(others);
      if mailFails {
        Take(Action.Discard(u, h));
        return false;
      }
      sent := true;
    }

    // The update failed: others run, then the token goes back
    method HandBack(f: nat, restoreWorks: bool, beforeRestore: seq<Action>)
      requires Inv(world) && FlightOf(world, f).Restoring? && LeavesAlone(beforeRestore, f)
      modifies this
      ensures Inv(world) && Grew(old(world), world) && FlightOf(world, f) == Landed
      ensures
        var x := old(FlightOf(world, f));
        && NotAppliedSince(world, |old(world).updates|, x.state.tokenHash)
        && (restoreWorks ==> Slot(world, x.userID).tokenHash != "" || x.state.expiresAt <= world.now)
    {
      ghost var n := |world.updates|;
      ghost var x := FlightOf(world, f);
      OthersLeaveFlight(world, beforeRestore, f);
      Interfere(beforeRestore);
      HeldIsNotApplied(world, f, n);
      assert Genuine(world, x.userID, x.state);
      hide Inv;
      var last := if restoreWorks then Action.Restore(f) else GiveUp(f);
      StepGrows(world, last);
      Take(last);
    }

    /**
     Consume, update, and give the token back when the database fails. Success means exactly that this
     call logged the one update of the token, with the address it was mailed to.
     */
    method Verify(f: nat, u: string, h: string, db: DbOutcome, restoreWorks: bool,
                  whileHeld: seq<Action>, beforeRestore: seq<Action>)
      returns (outcome: Outcome)
      requires Inv(world) && f !in world.flights
      requires LeavesAlone(whileHeld, f) && LeavesAlone(beforeRestore, f)
      modifies this
      ensures Inv(world) && Grew(old(world), world) && FlightOf(world, f) == Landed
      ensures match outcome
        case Verified =>
          && h in world.mailed
          && var account := Account(Some(world.mailed[h].email), true);
             && u in world.accounts && world.accounts[u] == account
             && |world.updates| > |old(world).updates|
             && world.updates[|world.updates| - 1] == Update(u, h, account)
        case _ => NotAppliedSince(world, |old(world).updates|, h)
      // After a failed update the user can retry, unless the link expired or another one is live
      ensures outcome == DatabaseError && restoreWorks ==>
        Slot(world, u).tokenHash != "" || old(Slot(world, u)).expiresAt <= world.now
    {
      hide Inv;
      ghost var n := |world.updates|;
      var s := Slot(world, u);
      if !Usable(s, h, world.now) {
        return InvalidToken;
      }
      Take(Action.Consume(f, u, h));
      OthersLeaveFlight(world, whileHeld, f);
      Interfere(whileHeld);
      HeldIsNotApplied(world, f, n);
      if db == Fails {
        StepGrows(world, UpdateUser(f, db));
        Take(UpdateUser(f, db));
        HandBack(f, restoreWorks, beforeRestore);
        return DatabaseError;
      }
      hide Step;
      outcome := UpdateHeld(f, u, s);
    }

    // The user row is updated in place, unless it changed since the mail was sent or the address is taken
    method UpdateHeld(f: nat, u: string, s: State) returns (outcome: Outcome)
      requires Inv(world) && FlightOf(world, f) == Holding(u, s)
      modifies this
      ensures Inv(world) && Grew(old(world), world) && FlightOf(world, f) == Landed
      ensures outcome.Verified? || outcome.EmailInUse? || outcome.InvalidToken?
      ensures !outcome.Verified? ==> world.updates == old(world).updates
      ensures outcome.Verified? ==>
        && s.tokenHash in world.mailed
        && var account := Account(Some(world.mailed[s.tokenHash].email), true);
           && u in world.accounts && world.accounts[u] == account
           && world.updates == old(world).updates + [Update(u, s.tokenHash, account)]
    {
      UpdateWritesOneRow(world, f, Works);
      StepGrows(world, UpdateUser(f, Works));
      hide Inv;
      var matches := u in world.accounts && world.accounts[u].email == Some(ExpectedEmail(s));
      var duplicate := matches && s.replacesEmail != "" && EmailTaken(world, u, s.email);
      Take(UpdateUser(f, Works));
      if duplicate {
        return EmailInUse;
      }
      outcome := if matches then Verified else InvalidToken;
    }
  }
}
