/** What a device and a deciding user can count on: when a request is accepted, what polls answer, and that no is no. */
module DeviceLoginOutcomes {
  import opened Common
  import opened DeviceLoginActor
  import opened DeviceLogin

  // A request that has not expired
  predicate IsLive(w: World, id: string) {
    id in w.actors && w.actors[id].code != "" && w.now < w.actors[id].expiresAt
  }

  // What a poll that sees the present state answers
  function Answer(w: World, id: string, h: string): Reply {
    PollReply(StateOf(w, id), h, w.now)
  }

  /**
   A fresh request is stored exactly when its code and token are not empty and no live request has the code; a live
   one is never replaced. It is pending, for five minutes give or take half a second.
   */
  lemma CreatedExactlyWhen(w: World, input: CreateInput)
    requires input.deviceTokenHash !in w.deadlines
    ensures
      var w', id := Step(w, Create(input)), input.code;
      if id != "" && input.deviceTokenHash != "" && !IsLive(w, id) then
        var s := StateOf(w', id);
        && s == RequestState(id, input.deviceTokenHash, Pending, s.expiresAt, input.ipAddress, input.userAgent, "")
        && w.now + 299_500_000_000 <= s.expiresAt <= w.now + 300_500_000_000
        && input.deviceTokenHash in w'.deadlines && w'.deadlines[input.deviceTokenHash] == s.expiresAt
        && (forall other :: other != id ==> StateOf(w', other) == StateOf(w, other))
      else w' == w
  {
  }

  /** Only the device that holds the token is told anything, and only while the request lives. */
  lemma StrangersLearnNothing(w: World, id: string, h: string)
    requires !IsLive(w, id) || w.actors[id].deviceTokenHash != h
    ensures Answer(w, id, h).code == Invalid && Answer(w, id, h).userID == ""
  {
  }

  /**
   A poll of the present state keeps an exchange waiting exactly while its request is live and pending, lets it go on
   with the approving user exactly when it is live and approved, and ends it otherwise.
   */
  lemma PolledExactly(w: World, e: nat)
    requires ExchangeOf(w, e).Polling?
    ensures
      var Polling(id, h) := ExchangeOf(w, e);
      var w' := Step(w, Poll(e, StateOf(w, id)));
      ExchangeOf(w', e) ==
        if IsLive(w, id) && w.actors[id].deviceTokenHash == h && w.actors[id].status == Pending then Polling(id, h)
        else if IsLive(w, id) && w.actors[id].deviceTokenHash == h && w.actors[id].status == Approved
                && w.actors[id].userID != "" then Chosen(id, h, w.actors[id].userID)
        else Finished
  {
  }

  // ---------------------------------------------------------------- denials

  // The request with token hash h was denied: nobody approved it and nobody holds it undecided
  ghost predicate DeniedRequest(w: World, h: string) {
    && h != "" && h in w.deadlines && h !in w.approvals
    && (forall id :: id in w.actors && w.actors[id].deviceTokenHash == h ==> w.actors[id].status == Denied)
  }

  // Until it expires the actor keeps the denied state
  predicate Keeps(w: World, id: string, s: RequestState) {
    w.now < s.expiresAt ==> StateOf(w, id) == s
  }

  lemma DecideKeepsDenial(w: World, call: nat, id: string, decision: string, userID: string, h: string)
    requires Inv(w) && DeniedRequest(w, h)
    ensures DeniedRequest(DecideStep(w, call, id, decision, userID), h)
  {
    assert StateOf(w, id).status == Pending ==> StateOf(w, id).deviceTokenHash != h;
    hide Inv;
  }

  lemma StepKeepsDenial(w: World, a: Action, h: string)
    requires Inv(w) && DeniedRequest(w, h)
    ensures DeniedRequest(Step(w, a), h)
  {
    if a.Decide? {
      hide Inv, DecideStep;
      DecideKeepsDenial(w, a.call, a.id, a.decision, a.userID, h);
    } else {
      hide Inv, UseToken, PollReply, DecideStep;
    }
  }

  lemma StepKeepsState(w: World, a: Action, id: string, s: RequestState)
    requires Inv(w) && Keeps(w, id, s) && s.code != "" && s.status == Denied
    ensures Keeps(Step(w, a), id, s)
  {
    hide Inv, UseToken;
  }

  lemma {:induction false} RunKeepsDenial(w: World, actions: seq<Action>, id: string, s: RequestState)
    requires Inv(w) && DeniedRequest(w, s.deviceTokenHash) && Keeps(w, id, s) && s.code != "" && s.status == Denied
    ensures
      var w' := Run(w, actions);
      Inv(w') && DeniedRequest(w', s.deviceTokenHash) && Keeps(w', id, s)
    decreases |actions|
  {
    if actions == [] {
    } else {
      hide Inv, DeniedRequest, Keeps, Step;
      StepKeepsInv(w, actions[0]);
      StepKeepsDenial(w, actions[0], s.deviceTokenHash);
      StepKeepsState(w, actions[0], id, s);
      RunKeepsDenial(Step(w, actions[0]), actions[1..], id, s);
    }
  }

  lemma DenialIsStored(w: World, call: nat, id: string, userID: string)
    requires Inv(w) && IsLive(w, id) && w.actors[id].status == Pending
    ensures
      var s := w.actors[id].(status := Denied);
      var w' := Step(w, Decide(call, id, "deny", userID));
      && StateOf(w', id) == s && w'.now == w.now && w'.signIns == w.signIns && w'.approvals == w.approvals
      && DeniedRequest(w', s.deviceTokenHash)
  {
    assert CurrentOk(w, id, w.actors[id]) && PastOk(w, w.actors[id]);
  }

  /**
   No is no. Once a live pending request is denied, by whomever, no run signs its device in, nobody can decide it any
   more, and until it expires every poll of the present state by its device is answered with the denial.
   */
  lemma DeniedForEver(w: World, call: nat, id: string, userID: string, actions: seq<Action>)
    requires Inv(w) && IsLive(w, id) && w.actors[id].status == Pending
    ensures
      var s := w.actors[id];
      var w' := Run(Step(w, Decide(call, id, "deny", userID)), actions);
      && s.deviceTokenHash !in w'.approvals
      && (forall i :: 0 <= i < |w'.signIns| ==> w'.signIns[i].tokenHash != s.deviceTokenHash)
      && (forall other, decision, u :: StateOf(w', other).deviceTokenHash == s.deviceTokenHash ==>
            DecideTurn(StateOf(w', other), decision, u, w'.now) == Turn(StateOf(w', other), Refuse(Invalid)))
      && (w'.now < s.expiresAt ==> Answer(w', id, s.deviceTokenHash) == Reply(WasDenied, Denied, s.expiresAt, ""))
  {
    var s := w.actors[id];
    var w1 := Step(w, Decide(call, id, "deny", userID));
    var w' := Run(w1, actions);
    DenialIsStored(w, call, id, userID);
    StepKeepsInv(w, Decide(call, id, "deny", userID));
    RunKeepsDenial(w1, actions, id, s.(status := Denied));
    hide Step, Run;
    forall i | 0 <= i < |w'.signIns| ensures w'.signIns[i].tokenHash != s.deviceTokenHash {
      assert Justified(w', w'.signIns[i]);
    }
    hide Inv;
  }
}
