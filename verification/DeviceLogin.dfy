/**
 Remote sign-in: a waiting device creates a request, a signed-in user decides it, and any number of
 concurrent exchanges poll it and try to consume it. Every actor turn is one step of the protocol and
 everything else may happen between two turns. A poll may see any state the actor ever held, because
 peeks are answered from an activation cache.
 */
module DeviceLogin {
  import opened Common
  import opened DeviceLoginActor

  datatype Exchange =
    | Polling(requestID: string, tokenHash: string)
    | Chosen(requestID: string, tokenHash: string, userID: string)  // polled and user loaded, not consumed yet
    | Finished

  datatype Approval = Approval(userID: string, at: Time, token: string)

  const PROOF_LIFETIME: Time := 180 * SECOND
  const PROOF_MAX_AGE: Time := 60 * SECOND

  // A passkey proof that can still be used, and the record of one that was
  datatype Token = Token(userID: string, createdAt: Time)
  datatype Proof = Proof(userID: string, createdAt: Time, usedAt: Time)

  datatype Desk = Desk(
    tokens: map<string, Token>,
    proofs: map<string, Proof>,  // every token that was used up
    deciders: map<nat, string>,  // deciding calls that used up a token, and which
    issued: map<string, Token>   // every token there ever was, to whom and when it was issued
  )

  // A minted session, for the user taken from the poll
  datatype SignIn = SignIn(tokenHash: string, userID: string, at: Time, exchange: nat)

  datatype World = World(
    now: Time,
    actors: map<string, RequestState>,
    past: set<(string, RequestState)>,   // every state an actor ever held
    exchanges: map<nat, Exchange>,
    desk: Desk,
    deadlines: map<string, Time>,        // per created request, its public expiry
    approvals: map<string, Approval>,    // per request, who approved it and when
    signIns: seq<SignIn>
  )

  datatype Action =
    | Create(input: CreateInput)
    | IssueToken(token: string, userID: string)
    | Prove(call: nat, token: string, userID: string)   // before an approval, outside the actor
    | Decide(call: nat, id: string, decision: string, userID: string)
    | Begin(exchange: nat, id: string, tokenHash: string)
    | Poll(exchange: nat, seen: RequestState)
    | Abort(exchange: nat)
    | Consume(exchange: nat)
    | Evict(id: string)      // the state's time to live ran out
    | Advance(elapsed: nat)

  function StateOf(w: World, id: string): RequestState {
    if id in w.actors then w.actors[id] else NO_STATE
  }

  function Put(w: World, id: string, s: RequestState): World {
    w.(actors := w.actors[id := s], past := w.past + {(id, s)})
  }

  function ExchangeOf(w: World, e: nat): Exchange {
    if e in w.exchanges then w.exchanges[e] else Finished
  }

  function SetExchange(w: World, e: nat, x: Exchange): World {
    w.(exchanges := w.exchanges[e := x])
  }

  // Device tokens are fresh random secrets, so no two created requests share a token hash.
  function CreateStep(w: World, input: CreateInput): World {
    var t := CreateTurn(StateOf(w, input.code), input, w.now);
    if input.deviceTokenHash in w.deadlines || t.reply.Failed? || t.reply.code != Accepted then w
    else Put(w, input.code, t.state).(deadlines := w.deadlines[input.deviceTokenHash := t.state.expiresAt])
  }

  // A token is used up by its own user, before it expires and within a minute of its creation
  function UseToken(d: Desk, now: Time, call: nat, token: string, userID: string): Desk {
    if call in d.deciders || token == "" || token !in d.tokens || d.tokens[token].userID != userID
       || d.tokens[token].createdAt + PROOF_LIFETIME <= now || now - d.tokens[token].createdAt > PROOF_MAX_AGE then d
    else
      d.(tokens := d.tokens - {token}, proofs := d.proofs[token := Proof(userID, d.tokens[token].createdAt, now)],
         deciders := d.deciders[call := token])
  }

  function Issue(d: Desk, token: string, t: Token): Desk {
    d.(tokens := d.tokens[token := t], issued := d.issued[token := t])
  }

  predicate HasProven(d: Desk, call: nat, userID: string) {
    call in d.deciders && d.deciders[call] in d.proofs && d.proofs[d.deciders[call]].userID == userID
  }

  function ActorDecides(w: World, id: string, decision: string, userID: string, token: string): World {
    var s := StateOf(w, id);
    var t := DecideTurn(s, decision, userID, w.now);
    if t.reply.Failed? || t.reply.code != Accepted then w
    else if t.state.status == Approved then
      Put(w, id, t.state).(approvals := w.approvals[s.deviceTokenHash := Approval(userID, w.now, token)])
    else Put(w, id, t.state)
  }

  // An approval without a proof never reaches the actor, and a proof is good for one decision
  function DecideStep(w: World, call: nat, id: string, decision: string, userID: string): World {
    if decision != "approve" then ActorDecides(w, id, decision, userID, "")
    else if !HasProven(w.desk, call, userID) then w
    else
      ActorDecides(w.(desk := w.desk.(deciders := w.desk.deciders - {call})), id, decision, userID, w.desk.deciders[call])
  }

  predicate CanSee(w: World, id: string, seen: RequestState) {
    seen == StateOf(w, id) || (id, seen) in w.past
  }

  function PollStep(w: World, e: nat, seen: RequestState): World {
    match ExchangeOf(w, e)
    case Polling(id, h) =>
      var reply := PollReply(seen, h, w.now);
      if !CanSee(w, id, seen) || reply.Failed? then w
      else if reply.code != Accepted then SetExchange(w, e, Finished)
      else if reply.status == Approved then SetExchange(w, e, Chosen(id, h, reply.userID))
      else w
    case _ => w
  }

  // The exchange mints its session for the user it polled earlier: the consume reply names nobody.
  function ConsumeStep(w: World, e: nat): World {
    match ExchangeOf(w, e)
    case Chosen(id, h, userID) =>
      var t := ConsumeTurn(StateOf(w, id), h, w.now);
      var w' := SetExchange(w, e, Finished).(actors := w.actors[id := t.state]);
      if t.reply.Failed? || t.reply.code != Accepted then w'
      // A consume that finds the request still pending is not an error either: the session is minted all the same
      else w'.(signIns := w.signIns + [SignIn(h, userID, w.now, e)])
    case _ => w
  }

  function Step(w: World, a: Action): World {
    match a
    case Create(input) => CreateStep(w, input)
    case IssueToken(token, userID) =>
      // Tokens are fresh random values
      if token in w.desk.issued then w else w.(desk := Issue(w.desk, token, Token(userID, w.now)))
    case Prove(call, token, userID) => w.(desk := UseToken(w.desk, w.now, call, token, userID))
    case Decide(call, id, decision, userID) => DecideStep(w, call, id, decision, userID)
    case Begin(e, id, h) => if e in w.exchanges then w else SetExchange(w, e, Polling(id, h))
    case Poll(e, seen) => PollStep(w, e, seen)
    case Abort(e) => if e in w.exchanges then SetExchange(w, e, Finished) else w
    case Consume(e) => ConsumeStep(w, e)
    case Evict(id) => if StateOf(w, id).expiresAt <= w.now then w.(actors := w.actors[id := NO_STATE]) else w
    case Advance(elapsed) => w.(now := w.now + elapsed)
  }

  function Run(w: World, actions: seq<Action>): World
    decreases |actions|
  {
    if actions == [] then w else Run(Step(w, actions[0]), actions[1..])
  }

  // ---------------------------------------------------------------- safety

  // The facts that hold of a sign-in for ever after it was recorded
  ghost predicate Justified(w: World, s: SignIn) {
    && s.tokenHash in w.approvals && s.tokenHash in w.deadlines
    && s.userID == w.approvals[s.tokenHash].userID
    && s.userID != ""
    && w.approvals[s.tokenHash].at <= s.at < w.deadlines[s.tokenHash]
    && s.at <= w.now
  }

  /** Each request signs in at most one device, only for the user who approved it, after the approval, before expiry. */
  ghost predicate Safe(w: World) {
    && (forall i :: 0 <= i < |w.signIns| ==> Justified(w, w.signIns[i]))
    && (forall i, j :: 0 <= i < j < |w.signIns| ==> w.signIns[i].tokenHash != w.signIns[j].tokenHash)
  }

  ghost predicate PastOk(w: World, s: RequestState) {
    && s.code != "" && s.deviceTokenHash != ""
    && s.deviceTokenHash in w.deadlines && s.expiresAt == w.deadlines[s.deviceTokenHash]
    && (s.status == Approved ==>
          s.deviceTokenHash in w.approvals && w.approvals[s.deviceTokenHash].userID == s.userID)
  }

  // What an actor holds now
  ghost predicate CurrentOk(w: World, id: string, s: RequestState) {
    s != NO_STATE ==>
      && (id, s) in w.past
      && (s.status == Pending ==> s.deviceTokenHash !in w.approvals)
      && (forall i :: 0 <= i < |w.signIns| ==> w.signIns[i].tokenHash != s.deviceTokenHash)
  }

  ghost predicate ExchangeOk(w: World, x: Exchange) {
    x.Chosen? ==>
      && x.userID != "" && x.tokenHash in w.deadlines && x.tokenHash in w.approvals
      && w.approvals[x.tokenHash].userID == x.userID
  }

  ghost predicate Inv(w: World) {
    && Safe(w)
    && (forall p :: p in w.past ==> PastOk(w, p.1))
    && (forall id :: id in w.actors ==> CurrentOk(w, id, w.actors[id]))
    // A device token hash is held by one actor at most
    && (forall id, id' | id in w.actors && id' in w.actors && w.actors[id] != NO_STATE ::
          w.actors[id'].deviceTokenHash == w.actors[id].deviceTokenHash ==> id == id')
    && (forall e :: e in w.exchanges ==> ExchangeOk(w, w.exchanges[e]))
    && (forall h :: h in w.approvals ==> h in w.deadlines && w.approvals[h].at <= w.now)
  }

  lemma CreateKeepsInv(w: World, input: CreateInput)
    requires Inv(w)
    ensures Inv(CreateStep(w, input))
  {
    var t := CreateTurn(StateOf(w, input.code), input, w.now);
    if input.deviceTokenHash !in w.deadlines && t.reply.code == Accepted {
      CreatedKeepsInv(w, input.code, t.state);
    }
    hide Inv;
  }

  lemma CreatedKeepsInv(w: World, id: string, s: RequestState)
    requires Inv(w) && s.status == Pending && s.code != "" && s.deviceTokenHash != "" && s.deviceTokenHash !in w.deadlines
    ensures Inv(Put(w, id, s).(deadlines := w.deadlines[s.deviceTokenHash := s.expiresAt]))
  {
  }

  lemma ActorDecidesKeepsInv(w: World, id: string, decision: string, userID: string, token: string)
    requires Inv(w)
    ensures Inv(ActorDecides(w, id, decision, userID, token))
  {
    var s, t := StateOf(w, id), DecideTurn(StateOf(w, id), decision, userID, w.now);
    if t.reply.Reply? && t.reply.code == Accepted {
      assert s.status == Pending && s.deviceTokenHash !in w.approvals;
      assert t.state.deviceTokenHash == s.deviceTokenHash && t.state.expiresAt == s.expiresAt;
      assert t.state.status == Approved ==> t.state.userID == userID;
      hide DecideTurn;
      if t.state.status == Approved {
        ApprovedKeepsInv(w, id, t.state, Approval(userID, w.now, token));
      } else {
        DecidedKeepsInv(w, id, t.state);
      }
    }
    hide DecideTurn, Inv;
  }

  // The actor's pending request is decided
  lemma DecidedKeepsInv(w: World, id: string, s: RequestState)
    requires Inv(w) && StateOf(w, id).status == Pending && s.code != "" && s.status != Approved && s.status != Pending
    requires s.deviceTokenHash == StateOf(w, id).deviceTokenHash && s.expiresAt == StateOf(w, id).expiresAt
    ensures Inv(Put(w, id, s))
  {
  }

  lemma ApprovedKeepsInv(w: World, id: string, s: RequestState, approval: Approval)
    requires Inv(w) && StateOf(w, id).status == Pending && s.code != "" && s.status == Approved
    requires s.deviceTokenHash == StateOf(w, id).deviceTokenHash && s.expiresAt == StateOf(w, id).expiresAt
    requires approval.userID == s.userID && approval.at == w.now && s.deviceTokenHash !in w.approvals
    ensures Inv(Put(w, id, s).(approvals := w.approvals[s.deviceTokenHash := approval]))
  {
  }

  // The invariant says nothing about the proofs
  lemma DeskDoesNotMatter(w: World, d: Desk)
    requires Inv(w)
    ensures Inv(w.(desk := d))
  {
  }

  lemma DecideKeepsInv(w: World, call: nat, id: string, decision: string, userID: string)
    requires Inv(w)
    ensures Inv(DecideStep(w, call, id, decision, userID))
  {
    hide Inv, ActorDecides;
    if decision != "approve" {
      ActorDecidesKeepsInv(w, id, decision, userID, "");
    } else if HasProven(w.desk, call, userID) {
      var w1 := w.(desk := w.desk.(deciders := w.desk.deciders - {call}));
      DeskDoesNotMatter(w, w1.desk);
      ActorDecidesKeepsInv(w1, id, decision, userID, w.desk.deciders[call]);
    }
  }

  lemma PollKeepsInv(w: World, e: nat, seen: RequestState)
    requires Inv(w)
    ensures Inv(PollStep(w, e, seen))
  {
  }

  lemma ConsumeKeepsInv(w: World, e: nat)
    requires Inv(w)
    ensures Inv(ConsumeStep(w, e))
  {
    var x := ExchangeOf(w, e);
    if x.Chosen? {
      var s, t := StateOf(w, x.requestID), ConsumeTurn(StateOf(w, x.requestID), x.tokenHash, w.now);
      assert ExchangeOk(w, x) && (s != NO_STATE ==> CurrentOk(w, x.requestID, s));
      if t.reply.code == Accepted {
        assert s.status == Approved && s.deviceTokenHash == x.tokenHash && s.expiresAt > w.now;
        RedeemedKeepsInv(w, e, x.requestID, x.tokenHash, x.userID);
      } else {
        UnredeemedKeepsInv(w, e, x.requestID);
      }
    }
    hide Inv;
  }

  // The turn that reports the session deletes the request
  lemma RedeemedKeepsInv(w: World, e: nat, id: string, h: string, userID: string)
    requires Inv(w) && ExchangeOf(w, e) == Chosen(id, h, userID)
    requires StateOf(w, id) != NO_STATE && StateOf(w, id).deviceTokenHash == h && StateOf(w, id).expiresAt > w.now
    ensures Inv(SetExchange(w, e, Finished).(actors := w.actors[id := NO_STATE],
                                             signIns := w.signIns + [SignIn(h, userID, w.now, e)]))
  {
  }

  lemma UnredeemedKeepsInv(w: World, e: nat, id: string)
    requires Inv(w)
    ensures Inv(SetExchange(w, e, Finished).(actors := w.actors[id := StateOf(w, id)]))
  {
  }

  lemma EvictKeepsInv(w: World, id: string)
    requires Inv(w) && StateOf(w, id).expiresAt <= w.now
    ensures Inv(w.(actors := w.actors[id := NO_STATE]))
  {
  }

  lemma SetExchangeKeepsInv(w: World, e: nat, x: Exchange)
    requires Inv(w) && ExchangeOk(w, x)
    ensures Inv(SetExchange(w, e, x))
  {
  }

  lemma LaterKeepsInv(w: World, elapsed: nat)
    requires Inv(w)
    ensures Inv(w.(now := w.now + elapsed))
  {
  }

  lemma StepKeepsInv(w: World, a: Action)
    requires Inv(w)
    ensures Inv(Step(w, a))
  {
    hide Inv, CreateStep, DecideStep, PollStep, ConsumeStep, UseToken, SetExchange;
    match a
    case Create(input) => CreateKeepsInv(w, input);
    case IssueToken(token, userID) => DeskDoesNotMatter(w, Step(w, a).desk);
    case Prove(call, token, userID) => DeskDoesNotMatter(w, Step(w, a).desk);
    case Decide(call, id, decision, userID) => DecideKeepsInv(w, call, id, decision, userID);
    case Begin(e, id, h) => SetExchangeKeepsInv(w, e, Polling(id, h));
    case Poll(e, seen) => PollKeepsInv(w, e, seen);
    case Abort(e) => SetExchangeKeepsInv(w, e, Finished);
    case Consume(e) => ConsumeKeepsInv(w, e);
    case Evict(id) =>
      if StateOf(w, id).expiresAt <= w.now {
        EvictKeepsInv(w, id);
      }
    case Advance(elapsed) => LaterKeepsInv(w, elapsed);
  }

  lemma {:induction false} RunKeepsInv(w: World, actions: seq<Action>)
    requires Inv(w)
    ensures Inv(Run(w, actions))
    decreases |actions|
  {
    if actions == [] {
    } else {
      StepKeepsInv(w, actions[0]);
      RunKeepsInv(Step(w, actions[0]), actions[1..]);
    }
  }

  function Start(now: Time): World {
    World(now, map[], {}, map[], Desk(map[], map[], map[], map[]), map[], map[], [])
  }

  /** Every interleaving of creates, decisions, polls, consumes, evictions and the clock is safe. */
  lemma EveryRunIsSafe(now: Time, actions: seq<Action>)
    ensures Safe(Run(Start(now), actions))
  {
    RunKeepsInv(Start(now), actions);
  }

  // ---------------------------------------------------------------- proofs

  // A token that was issued to this very user and used up by them within a minute
  ghost predicate Proven(d: Desk, token: string, userID: string, until: Time) {
    && token in d.proofs && token in d.issued
    && var p, t := d.proofs[token], d.issued[token];
      && p.userID == userID && t.userID == userID && p.createdAt == t.createdAt
      && p.usedAt <= until && 0 <= p.usedAt - t.createdAt <= 60_000_000_000
  }

  ghost predicate DeskOk(d: Desk, approvals: map<string, Approval>, now: Time) {
    && (forall h :: h in approvals ==> Proven(d, approvals[h].token, approvals[h].userID, approvals[h].at))
    && (forall h, k | h in approvals && k in approvals :: approvals[h].token == approvals[k].token ==> h == k)
    && (forall c :: c in d.deciders ==>
          d.deciders[c] in d.proofs && Proven(d, d.deciders[c], d.proofs[d.deciders[c]].userID, now))
    && (forall c, e | c in d.deciders && e in d.deciders :: d.deciders[c] == d.deciders[e] ==> c == e)
    && (forall c, h | c in d.deciders && h in approvals :: d.deciders[c] != approvals[h].token)
    && d.tokens.Keys !! d.proofs.Keys
    && (forall token :: token in d.tokens ==>
          token in d.issued && d.issued[token] == d.tokens[token] && d.tokens[token].createdAt <= now)
    && (forall token :: token in d.proofs ==> token in d.issued)
  }

  ghost predicate ProofsOk(w: World) {
    DeskOk(w.desk, w.approvals, w.now)
  }

  lemma UseTokenKeepsDesk(d: Desk, approvals: map<string, Approval>, now: Time, call: nat, token: string,
          userID: string)
    requires DeskOk(d, approvals, now)
    ensures DeskOk(UseToken(d, now, call, token, userID), approvals, now)
  {
  }

  // Only an approval writes the approvals, with the token it was given
  lemma ActorDecidesApproves(w: World, id: string, decision: string, userID: string, token: string)
    ensures
      var w' := ActorDecides(w, id, decision, userID, token);
      && w'.desk == w.desk && w'.now == w.now
      && (w'.approvals == w.approvals
          || (&& decision == "approve"
              && w'.approvals == w.approvals[StateOf(w, id).deviceTokenHash := Approval(userID, w.now, token)]))
  {
  }

  lemma ApprovingKeepsDesk(d: Desk, approvals: map<string, Approval>, now: Time, call: nat, h: string, userID: string)
    requires DeskOk(d, approvals, now) && HasProven(d, call, userID)
    ensures
      var d' := d.(deciders := d.deciders - {call});
      DeskOk(d', approvals, now) && DeskOk(d', approvals[h := Approval(userID, now, d.deciders[call])], now)
  {
  }

  lemma DecideKeepsProofs(w: World, call: nat, id: string, decision: string, userID: string)
    requires ProofsOk(w)
    ensures ProofsOk(DecideStep(w, call, id, decision, userID))
  {
    hide DeskOk, ActorDecides;
    if decision != "approve" {
      ActorDecidesApproves(w, id, decision, userID, "");
    } else if HasProven(w.desk, call, userID) {
      ApprovingKeepsDesk(w.desk, w.approvals, w.now, call, StateOf(w, id).deviceTokenHash, userID);
      var w1 := w.(desk := w.desk.(deciders := w.desk.deciders - {call}));
      ActorDecidesApproves(w1, id, decision, userID, w.desk.deciders[call]);
    }
  }

  // What the other actions leave alone
  lemma DeskLeftAlone(w: World, a: Action)
    requires !a.Decide? && !a.IssueToken? && !a.Prove?
    ensures Step(w, a).desk == w.desk && Step(w, a).approvals == w.approvals && Step(w, a).now >= w.now
  {
  }

  lemma LaterDesk(d: Desk, approvals: map<string, Approval>, now: Time, later: Time)
    requires DeskOk(d, approvals, now) && now <= later
    ensures DeskOk(d, approvals, later)
  {
  }

  lemma IssueKeepsDesk(d: Desk, approvals: map<string, Approval>, now: Time, token: string, userID: string)
    requires DeskOk(d, approvals, now) && token !in d.issued
    ensures DeskOk(Issue(d, token, Token(userID, now)), approvals, now)
  {
  }

  lemma StepKeepsProofs(w: World, a: Action)
    requires ProofsOk(w)
    ensures ProofsOk(Step(w, a))
  {
    if a.Decide? {
      hide DeskOk, DecideStep;
      DecideKeepsProofs(w, a.call, a.id, a.decision, a.userID);
    } else if a.Prove? {
      hide DeskOk, UseToken;
      UseTokenKeepsDesk(w.desk, w.approvals, w.now, a.call, a.token, a.userID);
    } else if a.IssueToken? {
      hide DeskOk;
      if a.token !in w.desk.issued {
        IssueKeepsDesk(w.desk, w.approvals, w.now, a.token, a.userID);
      }
    } else {
      hide DeskOk, Step;
      DeskLeftAlone(w, a);
      LaterDesk(w.desk, w.approvals, w.now, Step(w, a).now);
    }
  }

  lemma {:induction false} RunKeepsProofs(w: World, actions: seq<Action>)
    requires ProofsOk(w)
    ensures ProofsOk(Run(w, actions))
    decreases |actions|
  {
    if actions == [] {
    } else {
      StepKeepsProofs(w, actions[0]);
      RunKeepsProofs(Step(w, actions[0]), actions[1..]);
    }
  }

  /**
   Behind every sign-in of every run stands a passkey proof that was issued to the user who approved it, at most a
   minute old when that user used it up and used up before the approval, and no proof stands behind two requests.
   */
  lemma EverySignInIsProven(now: Time, actions: seq<Action>)
    ensures
      var w := Run(Start(now), actions);
      && (forall i :: 0 <= i < |w.signIns| ==>
            && w.signIns[i].tokenHash in w.approvals
            && Proven(w.desk, w.approvals[w.signIns[i].tokenHash].token, w.signIns[i].userID, w.signIns[i].at))
      && (forall h, k | h in w.approvals && k in w.approvals :: w.approvals[h].token == w.approvals[k].token ==> h == k)
  {
    RunKeepsInv(Start(now), actions);
    RunKeepsProofs(Start(now), actions);
    var w := Run(Start(now), actions);
    forall i | 0 <= i < |w.signIns|
      ensures w.signIns[i].tokenHash in w.approvals
      ensures Proven(w.desk, w.approvals[w.signIns[i].tokenHash].token, w.signIns[i].userID, w.signIns[i].at)
    {
      assert Justified(w, w.signIns[i]);
    }
  }

  // A passkey proof that approving takes: the user's own, issued at most a minute ago and not used up
  predicate UsableToken(d: Desk, now: Time, token: string, userID: string) {
    && token != "" && token in d.tokens && d.tokens[token].userID == userID
    && now - d.tokens[token].createdAt <= 60_000_000_000
  }

  /** A proof is used up exactly when it is the user's own and at most a minute old; it is gone afterwards. */
  lemma ProvesExactlyWhen(w: World, call: nat, token: string, userID: string)
    requires ProofsOk(w) && call !in w.desk.deciders
    ensures
      var d, d' := w.desk, Step(w, Prove(call, token, userID)).desk;
      if UsableToken(d, w.now, token, userID) then
        && d'.tokens == d.tokens - {token} && call in d'.deciders && d'.deciders[call] == token
        && HasProven(d', call, userID)
      else d' == d
    ensures Step(w, Prove(call, token, userID)).desk == UseToken(w.desk, w.now, call, token, userID)
    ensures UsableToken(w.desk, w.now, token, userID) <==> UseToken(w.desk, w.now, call, token, userID) != w.desk
  {
  }

  // The two histories only grow: who approved a request, and when, is settled once
  ghost predicate HistoryKept(w: World, w': World) {
    && (forall h :: h in w.approvals ==> h in w'.approvals && w'.approvals[h] == w.approvals[h])
    && w.signIns <= w'.signIns
    && w.now <= w'.now
  }

  lemma HistoryIsTransitive(u: World, v: World, w: World)
    requires HistoryKept(u, v) && HistoryKept(v, w)
    ensures HistoryKept(u, w)
  {
  }

  lemma StepKeepsHistory(w: World, a: Action)
    requires Inv(w)
    ensures HistoryKept(w, Step(w, a))
  {
    hide CreateTurn, ConsumeTurn, PollReply, UseToken, DecideStep;
    if a.Decide? {
      DecideKeepsHistory(w, a.call, a.id, a.decision, a.userID);
    }
    hide Inv;
  }

  // Only a pending request is decided, and so no approval is replaced
  lemma DecideKeepsHistory(w: World, call: nat, id: string, decision: string, userID: string)
    requires Inv(w)
    ensures HistoryKept(w, DecideStep(w, call, id, decision, userID))
  {
    assert StateOf(w, id).status == Pending ==> StateOf(w, id).deviceTokenHash !in w.approvals;
    hide Inv;
  }

  /** An approval, once recorded, names the same user at the same time for the rest of the run. */
  lemma {:induction false} RunKeepsHistory(w: World, actions: seq<Action>)
    requires Inv(w)
    ensures HistoryKept(w, Run(w, actions))
    decreases |actions|
  {
    if actions == [] {
    } else {
      StepKeepsInv(w, actions[0]);
      StepKeepsHistory(w, actions[0]);
      RunKeepsHistory(Step(w, actions[0]), actions[1..]);
    }
  }

  lemma ApprovalIsStored(w: World, id: string, call: nat, userID: string)
    requires HasProven(w.desk, call, userID) && Live(StateOf(w, id), w.now) && StateOf(w, id).status == Pending
    ensures
      var w' := Step(w, Decide(call, id, "approve", userID));
      && StateOf(w', id) == StateOf(w, id).(status := Approved, userID := userID)
      && w'.now == w.now && w'.exchanges == w.exchanges && w'.signIns == w.signIns
  {
  }

  // An exchange that polls and consumes without anybody in between
  lemma ApprovedRequestIsRedeemed(w: World, e: nat, id: string)
    requires e !in w.exchanges && Live(StateOf(w, id), w.now)
    requires StateOf(w, id).status == Approved && StateOf(w, id).userID != ""
    ensures
      var s := StateOf(w, id);
      var w1 := Step(w, Begin(e, id, s.deviceTokenHash));
      var w2 := Step(Step(w1, Poll(e, StateOf(w1, id))), Consume(e));
      w2.signIns == w.signIns + [SignIn(s.deviceTokenHash, s.userID, w.now, e)] && StateOf(w2, id) == NO_STATE
  {
  }

  /**
   A pending live request that a user approves signs that user in on the device: no later step can be
   missing for it, whatever the earlier run was.
   */
  lemma ApprovalLeadsToSignIn(w: World, e: nat, id: string, call: nat, userID: string)
    requires HasProven(w.desk, call, userID)
    requires Live(StateOf(w, id), w.now) && StateOf(w, id).status == Pending
    requires e !in w.exchanges && userID != ""
    ensures
      var h := StateOf(w, id).deviceTokenHash;
      var w1 := Step(Step(w, Decide(call, id, "approve", userID)), Begin(e, id, h));
      var w2 := Step(Step(w1, Poll(e, StateOf(w1, id))), Consume(e));
      w2.signIns == w.signIns + [SignIn(h, userID, w.now, e)] && StateOf(w2, id) == NO_STATE
  {
    var w' := Step(w, Decide(call, id, "approve", userID));
    ApprovalIsStored(w, id, call, userID);
    hide Step;
    ApprovedRequestIsRedeemed(w', e, id);
  }
}
