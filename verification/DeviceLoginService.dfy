/**
 The service side of remote sign-in: the retry loop that creates a request and the long-polling loop
 that exchanges it. Both run against a world that other requests change between any two actor turns.
 */
module DeviceLoginService {
  import opened Common
  import opened DeviceLoginActor
  import opened DeviceLogin

  const CREATE_ATTEMPTS := 3

  datatype CreateError = InvalidRequest | NoUniqueCode

  datatype Outcome =
    | SignedIn(userID: string)
    | Refused              // invalid, expired or denied
    | UserUnusable         // the approved user is gone or disabled
    | StillPending         // the long poll ran out

  datatype DecideOutcome = Decided | NotDecided | ReauthenticationRequired

  // What happens around one round of the polling loop, chosen by the environment
  datatype Round = Round(before: seq<Action>, cached: RequestState, userUsable: bool, between: seq<Action>)

  // Nobody else can drive this exchange
  predicate LeavesAlone(actions: seq<Action>, e: nat) {
    forall a | a in actions ::
      && (a.Begin? || a.Poll? || a.Abort? || a.Consume? ==> a.exchange != e)
  }

  // Nobody else can guess this fresh token hash
  predicate NeverCreates(actions: seq<Action>, tokenHash: string) {
    forall a | a in actions :: a.Create? ==> a.input.deviceTokenHash != tokenHash
  }

  // No session was minted by exchange e after position n of the log
  ghost predicate NoneSince(w: World, n: nat, e: nat) {
    forall i :: n <= i < |w.signIns| ==> w.signIns[i].exchange != e
  }

  // The log gained a session of exchange e for the approver, or none at all
  ghost predicate Reported(w: World, w': World, outcome: Outcome, e: nat, tokenHash: string) {
    match outcome
    case SignedIn(userID) =>
      var last := |w'.signIns| - 1;
      && last >= |w.signIns|
      && w'.signIns[last] == SignIn(tokenHash, userID, w'.now, e)
      && tokenHash in w'.approvals && w'.approvals[tokenHash].userID == userID
      && (forall i :: |w.signIns| <= i < last ==> w'.signIns[i].exchange != e)
    case _ => NoneSince(w', |w.signIns|, e)
  }

  lemma OneLeavesExchange(w: World, a: Action, e: nat, n: nat)
    requires LeavesAlone([a], e) && NoneSince(w, n, e)
    ensures e in w.exchanges <==> e in Step(w, a).exchanges
    ensures ExchangeOf(Step(w, a), e) == ExchangeOf(w, e)
    ensures NoneSince(Step(w, a), n, e)
  {
    assert a in [a];
    hide CreateTurn, DecideTurn, PollReply, ConsumeTurn, UseToken;
  }

  lemma {:induction false} OthersLeaveExchange(w: World, actions: seq<Action>, e: nat, n: nat)
    requires LeavesAlone(actions, e) && NoneSince(w, n, e)
    ensures e in w.exchanges <==> e in Run(w, actions).exchanges
    ensures ExchangeOf(Run(w, actions), e) == ExchangeOf(w, e)
    ensures NoneSince(Run(w, actions), n, e)
    decreases |actions|
  {
    if actions == [] {
    } else {
      OneLeavesExchange(w, actions[0], e, n);
      hide Step;
      OthersLeaveExchange(Step(w, actions[0]), actions[1..], e, n);
    }
  }

  lemma {:induction false} OthersNeverCreate(w: World, actions: seq<Action>, tokenHash: string)
    requires NeverCreates(actions, tokenHash) && tokenHash !in w.deadlines
    ensures tokenHash !in Run(w, actions).deadlines
    decreases |actions|
  {
    if actions == [] {
    } else {
      OthersNeverCreate(Step(w, actions[0]), actions[1..], tokenHash);
    }
  }

  // Nobody else decides through this call
  predicate LeavesCall(actions: seq<Action>, call: nat) {
    forall a | a in actions :: (a.Prove? || a.Decide?) ==> a.call != call
  }

  lemma OneLeavesDecider(w: World, a: Action, call: nat)
    requires (a.Prove? || a.Decide? ==> a.call != call) && call in w.desk.deciders && w.desk.deciders[call] in w.desk.proofs
    requires w.desk.tokens.Keys !! w.desk.proofs.Keys
    ensures
      var d, d' := w.desk, Step(w, a).desk;
      call in d'.deciders && d'.deciders[call] == d.deciders[call] && d'.deciders[call] in d'.proofs
      && d'.proofs[d'.deciders[call]] == d.proofs[d.deciders[call]]
  {
    if a.Decide? {
      ActorDecidesApproves(w, a.id, a.decision, a.userID, "");
      if call != a.call && HasProven(w.desk, a.call, a.userID) {
        ActorDecidesApproves(w.(desk := w.desk.(deciders := w.desk.deciders - {a.call})), a.id, a.decision, a.userID,
                             w.desk.deciders[a.call]);
      }
      hide ActorDecides;
    } else if !a.IssueToken? && !a.Prove? {
      hide Step;
      DeskLeftAlone(w, a);
    }
  }

  lemma {:induction false} OthersLeaveDecider(w: World, actions: seq<Action>, call: nat, userID: string)
    requires LeavesCall(actions, call) && ProofsOk(w) && HasProven(w.desk, call, userID)
    ensures HasProven(Run(w, actions).desk, call, userID)
    ensures Run(w, actions).desk.deciders[call] == w.desk.deciders[call]
    decreases |actions|
  {
    if actions == [] {
    } else {
      OneLeavesDecider(w, actions[0], call);
      StepKeepsProofs(w, actions[0]);
      hide ProofsOk, Step;
      OthersLeaveDecider(Step(w, actions[0]), actions[1..], call, userID);
    }
  }

  // What one exchange's own turns do, seen from that exchange

  lemma PollEffect(w: World, e: nat, seen: RequestState)
    requires ExchangeOf(w, e).Polling? && CanSee(w, ExchangeOf(w, e).requestID, seen) && e in w.exchanges
    ensures
      var x := ExchangeOf(w, e);
      var reply := PollReply(seen, x.tokenHash, w.now);
      var w' := Step(w, Poll(e, seen));
      && reply.Reply? && w'.signIns == w.signIns && e in w'.exchanges
      && ExchangeOf(w', e) ==
         if reply.code != Accepted then Finished
         else if reply.status == Approved then Chosen(x.requestID, x.tokenHash, reply.userID)
         else x
  {
  }

  lemma OwnStepEffect(w: World, e: nat, id: string, h: string)
    ensures e !in w.exchanges ==>
      var w' := Step(w, Begin(e, id, h));
      e in w'.exchanges && ExchangeOf(w', e) == Polling(id, h) && w'.signIns == w.signIns
    ensures ExchangeOf(Step(w, Abort(e)), e) == Finished && Step(w, Abort(e)).signIns == w.signIns
  {
  }

  lemma ConsumeEffect(w: World, e: nat)
    requires Inv(w) && ExchangeOf(w, e).Chosen?
    ensures
      var x := ExchangeOf(w, e);
      var reply := ConsumeTurn(StateOf(w, x.requestID), x.tokenHash, w.now).reply;
      var w' := Step(w, Action.Consume(e));
      && reply.Reply? && ExchangeOf(w', e) == Finished
      && x.tokenHash in w'.approvals && w'.approvals[x.tokenHash].userID == x.userID
      && w'.now == w.now
      && w'.signIns == w.signIns + if reply.code == Accepted then [SignIn(x.tokenHash, x.userID, w.now, e)] else []
  {
  }

  lemma HistoryIsItself(w: World)
    ensures HistoryKept(w, w)
  {
  }

  predicate IsAccepted(reply: Reply) {
    reply.Reply? && reply.code == Accepted
  }

  lemma DecideEffect(w: World, call: nat, id: string, decision: string, userID: string)
    ensures
      var s, w' := StateOf(w, id), Step(w, Action.Decide(call, id, decision, userID));
      var accepted := IsAccepted(DecideTurn(s, decision, userID, w.now).reply);
      && w'.now == w.now
      && (decision == "deny" ==>
            if s.code != "" && w.now < s.expiresAt && s.status == Pending then
              accepted && StateOf(w', id) == s.(status := Denied)
            else !accepted && w' == w)
      && (decision != "approve" ==> w'.desk == w.desk)
      && (decision == "approve" && HasProven(w.desk, call, userID) ==>
            && call !in w'.desk.deciders
            && (accepted ==> s.deviceTokenHash in w'.approvals
                             && w'.approvals[s.deviceTokenHash] == Approval(userID, w.now, w.desk.deciders[call])))
  {
  }

  class Service {
    var world: World

    constructor (now: Time)
      ensures Inv(world) && world == Start(now)
    {
      world := Start(now);
    }

    // Everyone else's turns, before this call takes its next one
    method Interfere(actions: seq<Action>)
      requires Inv(world)
      modifies this
      ensures world == Run(old(world), actions)
      ensures Inv(world) && HistoryKept(old(world), world)
    {
      RunKeepsInv(world, actions);
      RunKeepsHistory(world, actions);
      world := Run(world, actions);
    }

    method Take(a: Action)
      requires Inv(world)
      modifies this
      ensures world == Step(old(world), a)
      ensures Inv(world) && HistoryKept(old(world), world)
    {
      StepKeepsInv(world, a);
      StepKeepsHistory(world, a);
      world := Step(world, a);
    }

    /** Either a pending request now waits under one of the three codes, or the token was never used. */
    method CreateRequest(codes: seq<string>, tokenHash: string, ipAddress: string, userAgent: string,
                         others: seq<seq<Action>>)
      returns (r: Result<string, CreateError>)
      requires Inv(world) && tokenHash !in world.deadlines
      requires |codes| == |others| == CREATE_ATTEMPTS
      requires forall i :: 0 <= i < |others| ==> NeverCreates(others[i], tokenHash)
      modifies this
      ensures Inv(world) && HistoryKept(old(world), world)
      ensures r.Ok? ==>
        && r.value in codes
        && var s := StateOf(world, r.value);
           s == RequestState(r.value, tokenHash, Pending, s.expiresAt, ipAddress, userAgent, "") && Live(s, world.now)
      ensures r.Ok? ==> tokenHash !in world.approvals
      ensures r.Err? ==> tokenHash !in world.deadlines
      ensures r == Err(InvalidRequest) <==> tokenHash == "" || (r.Err? && "" in codes)
    {
      hide Inv, DecideStep, PollStep, ConsumeStep;
      for i := 0 to CREATE_ATTEMPTS
        invariant Inv(world) && HistoryKept(old(world), world)
        invariant tokenHash !in world.deadlines
        invariant "" !in codes[..i] && (i > 0 ==> tokenHash != "")
      {
        OthersNeverCreate(world, others[i], tokenHash);
        Interfere(others[i]);
        var input := CreateInput(codes[i], tokenHash, ipAddress, userAgent);
        var t := CreateTurn(StateOf(world, codes[i]), input, world.now);
        Take(Action.Create(input));
        if t.reply.code == Collision {
          continue;
        }
        if t.reply.code == Invalid {
          return Err(InvalidRequest);
        }
        return Ok(codes[i]);
      }
      r := Err(NoUniqueCode);
    }

    /**
     A decision. An approval uses up a proof first, in a transaction of its own, so the proof is spent even
     when the actor refuses; without a usable proof nothing happens at all.
     */
    method Decide(call: nat, id: string, decision: string, userID: string, token: string, others: seq<Action>)
      returns (r: DecideOutcome)
      requires Inv(world) && ProofsOk(world) && call !in world.desk.deciders && LeavesCall(others, call)
      modifies this
      ensures Inv(world) && ProofsOk(world) && HistoryKept(old(world), world)
      ensures r == ReauthenticationRequired <==>
        decision == "approve" && !UsableToken(old(world).desk, old(world).now, token, userID)
      ensures r == ReauthenticationRequired ==> world == old(world)
      ensures r == Decided && decision == "approve" ==>
        exists h :: h in world.approvals && world.approvals[h] == Approval(userID, world.now, token)
      ensures call !in world.desk.deciders || r == ReauthenticationRequired
      ensures decision == "deny" ==>
        var s := old(StateOf(world, id));
        if s.code != "" && old(world).now < s.expiresAt && s.status == Pending then
          r == Decided && StateOf(world, id) == s.(status := Denied)
        else r == NotDecided && world == old(world)
    {
      hide Inv, ProofsOk;
      if decision == "approve" {
        var proven := SpendProof(call, userID, token, others);
        if !proven {
          return ReauthenticationRequired;
        }
      }
      DecideEffect(world, call, id, decision, userID);
      var t := DecideTurn(StateOf(world, id), decision, userID, world.now);
      hide Step, DecideTurn;
      StepKeepsProofs(world, Action.Decide(call, id, decision, userID));
      Take(Action.Decide(call, id, decision, userID));
      r := if IsAccepted(t.reply) then Decided else NotDecided;
    }

    // Uses up the proof for this call, and others run before its decision
    method SpendProof(call: nat, userID: string, token: string, others: seq<Action>) returns (proven: bool)
      requires Inv(world) && ProofsOk(world) && call !in world.desk.deciders && LeavesCall(others, call)
      modifies this
      ensures Inv(world) && ProofsOk(world) && HistoryKept(old(world), world)
      ensures proven <==> UsableToken(old(world).desk, old(world).now, token, userID)
      ensures if proven then HasProven(world.desk, call, userID) && world.desk.deciders[call] == token else world == old(world)
    {
      ProvesExactlyWhen(world, call, token, userID);
      hide Inv, ProofsOk, Step, UseToken, UsableToken, HasProven, Run, HistoryKept, LeavesCall;
      HistoryIsItself(world);
      ghost var start := world;
      if UseToken(world.desk, world.now, call, token, userID) == world.desk {
        return false;
      }
      StepKeepsProofs(world, Prove(call, token, userID));
      Take(Prove(call, token, userID));
      OthersLeaveDecider(world, others, call, userID);
      RunKeepsProofs(world, others);
      ghost var spent := world;
      Interfere(others);
      HistoryIsTransitive(start, spent, world);
      proven := true;
    }

    // The exchange has polled an approval: load the user, let others run, then consume
    method Redeem(e: nat, round: Round) returns (outcome: Outcome)
      requires Inv(world) && e in world.exchanges && ExchangeOf(world, e).Chosen?
      requires LeavesAlone(round.between, e)
      requires NoneSince(world, |world.signIns|, e)
      modifies this
      ensures Inv(world) && HistoryKept(old(world), world) && ExchangeOf(world, e) == Finished
      ensures !outcome.StillPending?
      ensures Reported(old(world), world, outcome, e, old(ExchangeOf(world, e).tokenHash))
    {
      hide Inv;
      ghost var n := |world.signIns|;
      if !round.userUsable {
        Take(Abort(e));
        return UserUnusable;
      }
      OthersLeaveExchange(world, round.between, e, n);
      Interfere(round.between);
      var x := ExchangeOf(world, e);
      ConsumeEffect(world, e);
      var consume := ConsumeTurn(StateOf(world, x.requestID), x.tokenHash, world.now);
      Take(Action.Consume(e));
      if consume.reply.code != Accepted {
        return Refused;
      }
      outcome := SignedIn(x.userID);
    }

    /**
     The long poll. A session is minted exactly when the outcome says so, for the user who approved the
     request, whatever ran in between and however stale the polled states were.
     */
    method Exchange(e: nat, id: string, tokenHash: string, wellFormed: bool, rounds: seq<Round>)
      returns (outcome: Outcome)
      requires Inv(world) && e !in world.exchanges
      requires forall i :: 0 <= i < |rounds| ==> LeavesAlone(rounds[i].before, e) && LeavesAlone(rounds[i].between, e)
      modifies this
      ensures Inv(world) && HistoryKept(old(world), world)
      ensures ExchangeOf(world, e) == Finished
      ensures Reported(old(world), world, outcome, e, tokenHash)
    {
      hide Inv, Step, PollReply;
      ghost var n := |world.signIns|;
      if id == "" || !wellFormed {
        return Refused;
      }
      OwnStepEffect(world, e, id, tokenHash);
      Take(Begin(e, id, tokenHash));
      for k := 0 to |rounds|
        invariant Inv(world) && HistoryKept(old(world), world)
        invariant e in world.exchanges && ExchangeOf(world, e) == Polling(id, tokenHash)
        invariant NoneSince(world, n, e)
      {
        var round := rounds[k];
        OthersLeaveExchange(world, round.before, e, n);
        Interfere(round.before);
        var seen := if (id, round.cached) in world.past then round.cached else StateOf(world, id);
        var reply := PollReply(seen, tokenHash, world.now);
        PollEffect(world, e, seen);
        Take(Poll(e, seen));
        if reply.code != Accepted {
          return Refused;
        }
        if reply.status == Approved {
          outcome := Redeem(e, round);
          return;
        }
      }
      OwnStepEffect(world, e, id, tokenHash);
      Take(Abort(e));
      outcome := StillPending;
    }
  }
}
