/**
 Email verification. Verifying is two-phase: the actor gives the token up, then the user row is
 updated, and on a database failure the token is handed back. Issues, discards, cancellations and
 other verifications may run between any two of these steps.
 */
module EmailVerification {
  import opened Common
  import opened EmailVerificationActor

  const TOKEN_LIFETIME: Time := 24 * 3600 * 1_000_000_000

  datatype Account = Account(email: Option<string>, verified: bool)

  datatype Flight =
    | Holding(userID: string, state: State)   // consumed, the user row is not updated yet
    | Restoring(userID: string, state: State) // the update failed, the token is on its way back
    | Landed

  // What a token was mailed for
  datatype Mail = Mail(userID: string, email: string, replacesEmail: string)

  datatype Update = Update(userID: string, tokenHash: string, account: Account)

  datatype World = World(
    now: Time,
    slots: map<string, State>,       // the actor of each user
    accounts: map<string, Account>,
    flights: map<nat, Flight>,
    mailed: map<string, Mail>,       // per issued token
    newest: map<string, string>,     // per user, the token issued last
    updates: seq<Update>             // successful verifications, in order
  )

  datatype DbOutcome = Works | Fails

  datatype Action =
    | Send(userID: string, tokenHash: string)
    | RequestChange(userID: string, tokenHash: string, newEmail: string)
    | Discard(userID: string, tokenHash: string)  // mail delivery failed
    | CancelChange(userID: string)
    | Consume(flight: nat, userID: string, tokenHash: string)
    | UpdateUser(flight: nat, db: DbOutcome)
    | Restore(flight: nat)
    | GiveUp(flight: nat)                         // the restore call itself failed
    | Evict(userID: string)
    | SetAccount(userID: string, account: Account) // any other edit of the user row
    | Advance(elapsed: nat)

  function Slot(w: World, userID: string): State {
    if userID in w.slots then w.slots[userID] else NO_STATE
  }

  function FlightOf(w: World, f: nat): Flight {
    if f in w.flights then w.flights[f] else Landed
  }

  predicate EmailTaken(w: World, userID: string, email: string) {
    exists other :: other in w.accounts && other != userID && w.accounts[other].email == Some(email)
  }

  // Tokens are fresh random values
  function IssueStep(w: World, userID: string, tokenHash: string, email: string, replaced: string): World {
    if tokenHash == "" || tokenHash in w.mailed then w
    else
      var s := State(tokenHash, email, replaced, w.now + TOKEN_LIFETIME);
      w.(slots := w.slots[userID := Stored(Slot(w, userID), s, w.now)],
         mailed := w.mailed[tokenHash := Mail(userID, email, replaced)],
         newest := w.newest[userID := tokenHash])
  }

  function ConsumeStep(w: World, f: nat, userID: string, tokenHash: string): World {
    if f in w.flights || !Usable(Slot(w, userID), tokenHash, w.now) then w
    else w.(slots := w.slots[userID := NO_STATE], flights := w.flights[f := Holding(userID, Slot(w, userID))])
  }

  // The address the row must still hold for the update to match it
  function ExpectedEmail(s: State): string {
    if s.replacesEmail != "" then s.replacesEmail else s.email
  }

  function UpdateStep(w: World, f: nat, db: DbOutcome): World {
    match FlightOf(w, f)
    case Holding(userID, s) =>
      var done := w.(flights := w.flights[f := Landed]);
      var matches := userID in w.accounts && w.accounts[userID].email == Some(ExpectedEmail(s));
      var isChange := s.replacesEmail != "";
      if db == Fails then w.(flights := w.flights[f := Restoring(userID, s)])
      else if !matches || (isChange && EmailTaken(w, userID, s.email)) then done
      else
        var account := Account(if isChange then Some(s.email) else w.accounts[userID].email, true);
        done.(accounts := w.accounts[userID := account],
              updates := w.updates + [Update(userID, s.tokenHash, account)])
    case _ => w
  }

  function RestoreStep(w: World, f: nat): World {
    match FlightOf(w, f)
    case Restoring(userID, s) =>
      w.(flights := w.flights[f := Landed], slots := w.slots[userID := Restored(Slot(w, userID), s, w.now)])
    case _ => w
  }

  function Step(w: World, a: Action): World {
    match a
    case Send(u, h) =>
      if u in w.accounts && w.accounts[u].email.Some? then IssueStep(w, u, h, w.accounts[u].email.value, "") else w
    case RequestChange(u, h, newEmail) =>
      if u in w.accounts && w.accounts[u].email.Some? then IssueStep(w, u, h, newEmail, w.accounts[u].email.value)
      else w
    case Discard(u, h) => w.(slots := w.slots[u := Discarded(Slot(w, u), h)])
    case CancelChange(u) => w.(slots := w.slots[u := Cancelled(Slot(w, u))])
    case Consume(f, u, h) => ConsumeStep(w, f, u, h)
    case UpdateUser(f, db) => UpdateStep(w, f, db)
    case Restore(f) => RestoreStep(w, f)
    case GiveUp(f) => if FlightOf(w, f).Restoring? then w.(flights := w.flights[f := Landed]) else w
    case Evict(u) => if Slot(w, u).expiresAt <= w.now then w.(slots := w.slots[u := NO_STATE]) else w
    case SetAccount(u, account) =>
      // The email column is unique
      if account.email.Some? && EmailTaken(w, u, account.email.value) then w
      else w.(accounts := w.accounts[u := account])
    case Advance(elapsed) => w.(now := w.now + elapsed)
  }

  function Run(w: World, actions: seq<Action>): World
    decreases |actions|
  {
    if actions == [] then w else Run(Step(w, actions[0]), actions[1..])
  }

  function Start(now: Time, accounts: map<string, Account>): World {
    World(now, map[], accounts, map[], map[], map[], [])
  }

  // ---------------------------------------------------------------- one place per token

  datatype Place = InActor(userID: string) | InFlight(flight: nat) | Applied(position: nat)

  // Token h is at place p
  ghost predicate At(w: World, p: Place, h: string) {
    match p
    case InActor(u) => u in w.slots && w.slots[u].tokenHash == h
    case InFlight(f) => f in w.flights && w.flights[f] != Landed && w.flights[f].state.tokenHash == h
    case Applied(i) => i < |w.updates| && w.updates[i].tokenHash == h
  }

  // A held or live token is still the one that was mailed, and only its user's
  ghost predicate Genuine(w: World, u: string, s: State) {
    && s.tokenHash != "" && s.tokenHash in w.mailed
    && w.mailed[s.tokenHash] == Mail(u, s.email, s.replacesEmail)
  }

  ghost predicate UpdateOk(w: World, up: Update) {
    && up.tokenHash != "" && up.tokenHash in w.mailed
    && w.mailed[up.tokenHash].userID == up.userID
    && up.account == Account(Some(w.mailed[up.tokenHash].email), true)
  }

  ghost predicate OnePlace(w: World) {
    forall p, q, h | h != "" && At(w, p, h) && At(w, q, h) :: p == q
  }

  ghost predicate Inv(w: World) {
    && OnePlace(w)
    && (forall u :: u in w.slots && w.slots[u] != NO_STATE ==> Genuine(w, u, w.slots[u]))
    && (forall f :: f in w.flights && w.flights[f] != Landed ==> Genuine(w, w.flights[f].userID, w.flights[f].state))
    && (forall i :: 0 <= i < |w.updates| ==> UpdateOk(w, w.updates[i]))
    && (forall h :: h in w.mailed ==> w.mailed[h].userID in w.newest)
  }

  // An issued token that is nowhere
  ghost predicate Dead(w: World, h: string) {
    h != "" && h in w.mailed && forall p :: !At(w, p, h)
  }

  ghost predicate KeepsDead(w: World, w': World) {
    forall h | Dead(w, h) :: Dead(w', h)
  }

  // From w to w', token h arrived at dst and every other token stayed where it was or vanished
  ghost predicate Arrived(w: World, w': World, h: string, dst: Place) {
    forall p, k | k != "" && At(w', p, k) :: (p == dst && k == h) || At(w, p, k)
  }

  ghost predicate MailKept(w: World, w': World) {
    w.mailed.Keys <= w'.mailed.Keys
  }

  lemma FreshTokenKeepsOnePlace(w: World, w': World, h: string, dst: Place)
    requires OnePlace(w) && MailKept(w, w') && Arrived(w, w', h, dst)
    requires h !in w.mailed && forall p :: !At(w, p, h)
    ensures OnePlace(w') && KeepsDead(w, w')
  {
  }

  lemma MovedTokenKeepsOnePlace(w: World, w': World, h: string, src: Place, dst: Place)
    requires OnePlace(w) && MailKept(w, w') && Arrived(w, w', h, dst)
    requires At(w, src, h) && !At(w', src, h)
    ensures OnePlace(w') && KeepsDead(w, w')
  {
  }

  lemma NothingArrivedKeepsOnePlace(w: World, w': World)
    requires OnePlace(w) && MailKept(w, w')
    requires forall p, k | k != "" && At(w', p, k) :: At(w, p, k)
    ensures OnePlace(w') && KeepsDead(w, w')
  {
  }

  lemma IssueKeepsInv(w: World, u: string, h: string, email: string, replaced: string)
    requires Inv(w)
    ensures Inv(IssueStep(w, u, h, email, replaced)) && KeepsDead(w, IssueStep(w, u, h, email, replaced))
  {
    if h != "" && h !in w.mailed {
      FreshTokenKeepsOnePlace(w, IssueStep(w, u, h, email, replaced), h, InActor(u));
    }
  }

  lemma ConsumeKeepsInv(w: World, f: nat, u: string, h: string)
    requires Inv(w)
    ensures Inv(ConsumeStep(w, f, u, h)) && KeepsDead(w, ConsumeStep(w, f, u, h))
  {
    if f !in w.flights && Usable(Slot(w, u), h, w.now) {
      MovedTokenKeepsOnePlace(w, ConsumeStep(w, f, u, h), h, InActor(u), InFlight(f));
    }
  }

  lemma UpdateKeepsInv(w: World, f: nat, db: DbOutcome)
    requires Inv(w)
    ensures Inv(UpdateStep(w, f, db)) && KeepsDead(w, UpdateStep(w, f, db))
  {
    var w' := UpdateStep(w, f, db);
    if w'.updates != w.updates {
      MovedTokenKeepsOnePlace(w, w', w.flights[f].state.tokenHash, InFlight(f), Applied(|w.updates|));
    } else {
      NothingArrivedKeepsOnePlace(w, w');
    }
  }

  lemma RestoreKeepsInv(w: World, f: nat)
    requires Inv(w)
    ensures Inv(RestoreStep(w, f)) && KeepsDead(w, RestoreStep(w, f))
  {
    var x, w' := FlightOf(w, f), RestoreStep(w, f);
    if x.Restoring? && w'.slots[x.userID] == x.state {
      MovedTokenKeepsOnePlace(w, w', x.state.tokenHash, InFlight(f), InActor(x.userID));
    } else {
      NothingArrivedKeepsOnePlace(w, w');
    }
  }

  lemma RemovalRemoves(w: World, a: Action)
    requires a.Discard? || a.CancelChange? || a.GiveUp? || a.Evict? || a.SetAccount? || a.Advance?
    ensures
      var w' := Step(w, a);
      && w'.mailed == w.mailed && w'.newest == w.newest && w'.updates == w.updates
      && (forall u :: u in w'.slots && w'.slots[u] != NO_STATE ==> u in w.slots && w'.slots[u] == w.slots[u])
      && (forall f :: f in w'.flights && w'.flights[f] != Landed ==> f in w.flights && w'.flights[f] == w.flights[f])
  {
    hide IssueStep, ConsumeStep, UpdateStep, RestoreStep, EmailTaken;
  }

  lemma RemovalKeepsInv(w: World, a: Action)
    requires Inv(w)
    requires a.Discard? || a.CancelChange? || a.GiveUp? || a.Evict? || a.SetAccount? || a.Advance?
    ensures Inv(Step(w, a)) && KeepsDead(w, Step(w, a))
  {
    RemovalRemoves(w, a);
    hide Step;
    NothingArrivedKeepsOnePlace(w, Step(w, a));
    hide OnePlace, KeepsDead, At;
  }

  lemma StepKeepsInv(w: World, a: Action)
    requires Inv(w)
    ensures Inv(Step(w, a)) && KeepsDead(w, Step(w, a))
  {
    match a
    case Send(u, h) =>
      if u in w.accounts && w.accounts[u].email.Some? {
        IssueKeepsInv(w, u, h, w.accounts[u].email.value, "");
      }
    case RequestChange(u, h, newEmail) =>
      if u in w.accounts && w.accounts[u].email.Some? {
        IssueKeepsInv(w, u, h, newEmail, w.accounts[u].email.value);
      }
    case Consume(f, u, h) => ConsumeKeepsInv(w, f, u, h);
    case UpdateUser(f, db) => UpdateKeepsInv(w, f, db);
    case Restore(f) => RestoreKeepsInv(w, f);
    case _ => RemovalKeepsInv(w, a);
  }

  lemma {:induction false} RunKeepsInv(w: World, actions: seq<Action>)
    requires Inv(w)
    ensures Inv(Run(w, actions))
    decreases |actions|
  {
    if actions == [] {
    } else {
      StepKeepsInv(w, actions[0]);
      RunKeepsInv(Step(w, actions[0]), actions[1..]);
    }
  }

  /**
   Over every interleaving a token is in one place at most: live in the actor, held by one verification,
   or applied. So it causes one successful update at most, of the user it was mailed to, and that update
   left the row verified and holding the address it was mailed to.
   */
  lemma EveryTokenWorksOnce(now: Time, accounts: map<string, Account>, actions: seq<Action>)
    ensures
      var w := Run(Start(now, accounts), actions);
      && OnePlace(w)
      && (forall i :: 0 <= i < |w.updates| ==> UpdateOk(w, w.updates[i]))
      && (forall i, j :: 0 <= i < j < |w.updates| ==> w.updates[i].tokenHash != w.updates[j].tokenHash)
  {
    RunKeepsInv(Start(now, accounts), actions);
    var w := Run(Start(now, accounts), actions);
    forall i, j | 0 <= i < j < |w.updates|
      ensures w.updates[i].tokenHash != w.updates[j].tokenHash
    {
      assert UpdateOk(w, w.updates[i]);
      assert At(w, Applied(i), w.updates[i].tokenHash) && At(w, Applied(j), w.updates[j].tokenHash);
    }
  }

  /**
   An update that is logged is the row the user now has, and no other row changed. A change needs the row to
   hold the address it replaces and gives it the new one; a verification needs and keeps the address it was sent to.
   */
  lemma UpdateWritesOneRow(w: World, f: nat, db: DbOutcome)
    requires Inv(w)
    ensures
      var w' := UpdateStep(w, f, db);
      if w'.updates == w.updates then w'.accounts == w.accounts
      else
        var up, s := w'.updates[|w.updates|], w.flights[f].state;
        && |w'.updates| == |w.updates| + 1
        && w'.accounts == w.accounts[up.userID := up.account]
        && up.userID in w.accounts
        && w.accounts[up.userID].email == Some(if s.replacesEmail != "" then s.replacesEmail else s.email)
        && up.tokenHash in w'.mailed
        && up.account == Account(Some(w'.mailed[up.tokenHash].email), true)
  {
  }

  // ---------------------------------------------------------------- dead tokens

  /** A superseded, discarded, cancelled, evicted or lost token never works again. */
  lemma {:induction false} DeadForEver(w: World, actions: seq<Action>, h: string)
    requires Inv(w) && Dead(w, h)
    ensures Dead(Run(w, actions), h)
    decreases |actions|
  {
    if actions == [] {
    } else {
      StepKeepsInv(w, actions[0]);
      DeadForEver(Step(w, actions[0]), actions[1..], h);
    }
  }

  /**
   Cancelling kills the link of a pending change for good exactly when no verification holds its token
   at that moment; a held token may still be applied, or restored.
   */
  lemma CancelKillsUnheldChange(w: World, u: string, h: string)
    requires Inv(w)
    requires h != "" && h in w.mailed && w.mailed[h].userID == u && w.mailed[h].replacesEmail != ""
    requires forall i :: !At(w, Applied(i), h)
    ensures Dead(Step(w, CancelChange(u)), h) <==> forall f :: !At(w, InFlight(f), h)
  {
    var w' := Step(w, CancelChange(u));
    if forall f :: !At(w, InFlight(f), h) {
      forall p ensures !At(w', p, h) {
        match p
        case InActor(v) => assert At(w', InActor(v), h) ==> v in w.slots && At(w, InActor(v), h);
        case InFlight(f) => assert !At(w, InFlight(f), h);
        case Applied(i) => assert !At(w, Applied(i), h);
      }
    } else {
      var f :| At(w, InFlight(f), h);
      assert At(w', InFlight(f), h);
    }
  }

  // ---------------------------------------------------------------- the newest token

  // The claim that issuing leaves only the most recent link working
  ghost predicate OnlyNewestLive(w: World, u: string) {
    Slot(w, u).tokenHash != "" ==> u in w.newest && Slot(w, u).tokenHash == w.newest[u]
  }

  // The branch that breaks it: a failed update hands back an older token while the actor is empty
  predicate RevivesOlder(w: World, a: Action, u: string) {
    && a.Restore?
    && var x := FlightOf(w, a.flight);
       && x.Restoring? && x.userID == u && Slot(w, u).tokenHash == ""
       && x.state.expiresAt > w.now
       && !(u in w.newest && w.newest[u] == x.state.tokenHash)
  }

  /** A step keeps the claim exactly when it does not restore an older token into an empty actor. */
  lemma NewestStaysAloneExactlyWhen(w: World, a: Action, u: string)
    requires Inv(w) && OnlyNewestLive(w, u)
    ensures OnlyNewestLive(Step(w, a), u) <==> !RevivesOlder(w, a, u)
  {
  }

  /**
   The claim is not an invariant: the first link is being verified while a second one is issued and
   discarded, the database fails, and the first link works again.
   */
  lemma AnOlderTokenCanWorkAgain()
    ensures
      var w := Start(0, map["u" := Account(Some("a@x"), false)]);
      var w1 := Step(Step(Step(w, Send("u", "old")), Consume(0, "u", "old")), UpdateUser(0, Fails));
      var w2 := Step(Step(Step(w1, Send("u", "new")), Discard("u", "new")), Restore(0));
      !OnlyNewestLive(w2, "u") && Usable(Slot(w2, "u"), "old", w2.now)
  {
    FirstLinkIsHeld();
    var w := Start(0, map["u" := Account(Some("a@x"), false)]);
    var w1 := Step(Step(Step(w, Send("u", "old")), Consume(0, "u", "old")), UpdateUser(0, Fails));
    hide Step, Start;
    SecondLinkIsDiscarded(w1);
    var w2 := Step(Step(w1, Send("u", "new")), Discard("u", "new"));
    FirstLinkIsRestored(w2);
  }

  const OLD := State("old", "a@x", "", TOKEN_LIFETIME)

  // The first link failed to verify and has not been handed back yet
  ghost predicate OldIsHeld(w: World) {
    w.now == 0 && FlightOf(w, 0) == Restoring("u", OLD) && Slot(w, "u") == NO_STATE
  }

  lemma FirstLinkIsHeld()
    ensures
      var w := Start(0, map["u" := Account(Some("a@x"), false)]);
      var w1 := Step(Step(Step(w, Send("u", "old")), Consume(0, "u", "old")), UpdateUser(0, Fails));
      OldIsHeld(w1) && w1.accounts == w.accounts && w1.mailed.Keys == {"old"}
  {
  }

  lemma SecondLinkIsDiscarded(w: World)
    requires OldIsHeld(w) && w.accounts == map["u" := Account(Some("a@x"), false)] && w.mailed.Keys == {"old"}
    ensures
      var w' := Step(Step(w, Send("u", "new")), Discard("u", "new"));
      OldIsHeld(w') && "u" in w'.newest && w'.newest["u"] == "new"
  {
  }

  lemma FirstLinkIsRestored(w: World)
    requires OldIsHeld(w) && "u" in w.newest && w.newest["u"] == "new"
    ensures
      var w' := Step(w, Restore(0));
      !OnlyNewestLive(w', "u") && Usable(Slot(w', "u"), "old", w'.now)
  {
  }

  // ---------------------------------------------------------------- addresses and success

  ghost predicate EmailsUnique(w: World) {
    forall u, v | u in w.accounts && v in w.accounts && w.accounts[u].email.Some? ::
      w.accounts[v].email == w.accounts[u].email ==> u == v
  }

  lemma StepKeepsEmailsUnique(w: World, a: Action)
    requires EmailsUnique(w)
    ensures EmailsUnique(Step(w, a))
  {
  }

  lemma {:induction false} RunKeepsEmailsUnique(w: World, actions: seq<Action>)
    requires EmailsUnique(w)
    ensures EmailsUnique(Run(w, actions))
    decreases |actions|
  {
    if actions == [] {
    } else {
      StepKeepsEmailsUnique(w, actions[0]);
      RunKeepsEmailsUnique(Step(w, actions[0]), actions[1..]);
    }
  }

  // Nobody else has the address
  ghost predicate IsFree(w: World, u: string, email: string) {
    forall other :: other in w.accounts && other != u ==> w.accounts[other].email != Some(email)
  }

  /**
   An uninterrupted verification updates the row exactly when the user's actor holds this very token, unexpired, the
   row still holds the address it was issued for, and a new address is free.
   */
  lemma VerifySucceedsExactlyWhen(w: World, f: nat, u: string, h: string)
    requires Inv(w) && f !in w.flights
    ensures
      var s := Slot(w, u);
      var w' := Step(Step(w, Consume(f, u, h)), UpdateUser(f, Works));
      (w'.updates != w.updates <==>
        && h != "" && s.tokenHash == h && w.now <= s.expiresAt
        && u in w.accounts
        && (if s.replacesEmail != "" then w.accounts[u].email == Some(s.replacesEmail) && IsFree(w, u, s.email)
            else w.accounts[u].email == Some(s.email)))
  {
  }

  // ---------------------------------------------------------------- from the request to the row

  // A fresh token for u whose row holds address a
  ghost predicate CanIssue(w: World, u: string, h: string, a: string) {
    h != "" && h !in w.mailed && u in w.accounts && w.accounts[u].email == Some(a)
  }

  /** A request for a new address leaves one live link, mailed to the new address and bound to the old one, for a day. */
  lemma RequestChangeIssues(w: World, u: string, h: string, a: string, b: string)
    requires CanIssue(w, u, h, a)
    ensures
      var w' := Step(w, RequestChange(u, h, b));
      && Slot(w', u) == State(h, b, a, w.now + 86_400_000_000_000)
      && w'.mailed == w.mailed[h := Mail(u, b, a)] && w'.newest == w.newest[u := h]
      && w'.accounts == w.accounts && w'.flights == w.flights && w'.updates == w.updates && w'.now == w.now
      && (forall v :: v != u ==> Slot(w', v) == Slot(w, v))
  {
  }

  /** A request to verify leaves one live link, mailed to the current address. */
  lemma SendIssues(w: World, u: string, h: string, a: string)
    requires CanIssue(w, u, h, a)
    ensures
      var w' := Step(w, Send(u, h));
      && Slot(w', u) == State(h, a, "", w.now + 86_400_000_000_000)
      && w'.mailed == w.mailed[h := Mail(u, a, "")] && w'.newest == w.newest[u := h]
      && w'.accounts == w.accounts && w'.flights == w.flights && w'.updates == w.updates && w'.now == w.now
      && (forall v :: v != u ==> Slot(w', v) == Slot(w, v))
  {
  }

  // The link is opened some time after it was issued, and nobody interferes
  function Opened(w: World, f: nat, u: string, h: string, elapsed: nat): World {
    Step(Step(Step(w, Advance(elapsed)), Consume(f, u, h)), UpdateUser(f, Works))
  }

  lemma OpenedLink(w: World, f: nat, u: string, s: State, elapsed: nat)
    requires f !in w.flights && s.tokenHash != "" && Slot(w, u) == s && u in w.accounts
    requires w.accounts[u].email == Some(if s.replacesEmail != "" then s.replacesEmail else s.email)
    ensures
      var w' := Opened(w, f, u, s.tokenHash, elapsed);
      if w.now + elapsed <= s.expiresAt && (s.replacesEmail != "" ==> IsFree(w, u, s.email)) then
        && w'.accounts == w.accounts[u := Account(Some(s.email), true)]
        && w'.updates == w.updates + [Update(u, s.tokenHash, Account(Some(s.email), true))]
      else w'.accounts == w.accounts && w'.updates == w.updates
  {
  }

  /**
   An account with address a that asks for b and opens the link, with nobody in between, ends up verified with b
   exactly when the link is opened within a day and b is free; otherwise nothing changes.
   */
  lemma RequestedChangeIsApplied(w: World, f: nat, u: string, h: string, a: string, b: string, elapsed: nat)
    requires CanIssue(w, u, h, a) && a != "" && f !in w.flights
    ensures
      var w' := Opened(Step(w, RequestChange(u, h, b)), f, u, h, elapsed);
      if elapsed <= 86_400_000_000_000 && IsFree(w, u, b) then
        w'.accounts == w.accounts[u := Account(Some(b), true)] && |w'.updates| == |w.updates| + 1
      else w'.accounts == w.accounts && w'.updates == w.updates
  {
    RequestChangeIssues(w, u, h, a, b);
    var w1 := Step(w, RequestChange(u, h, b));
    hide Step, Opened;
    OpenedLink(w1, f, u, Slot(w1, u), elapsed);
  }

  /** An account that asks to verify its address a and opens the link within a day is verified, with a. */
  lemma SentLinkVerifies(w: World, f: nat, u: string, h: string, a: string, elapsed: nat)
    requires CanIssue(w, u, h, a) && f !in w.flights
    ensures
      var w' := Opened(Step(w, Send(u, h)), f, u, h, elapsed);
      if elapsed <= 86_400_000_000_000 then
        w'.accounts == w.accounts[u := Account(Some(a), true)] && |w'.updates| == |w.updates| + 1
      else w'.accounts == w.accounts && w'.updates == w.updates
  {
    SendIssues(w, u, h, a);
    var w1 := Step(w, Send(u, h));
    hide Step, Opened;
    OpenedLink(w1, f, u, Slot(w1, u), elapsed);
  }

  /**
   The case that is left: the address replaced marks a change, so with an empty stored address the link is taken for
   a verification of the new one, and fails unless that is empty too.
   */
  lemma ChangeFromAnEmptyAddress(w: World, f: nat, u: string, h: string, b: string, elapsed: nat)
    requires CanIssue(w, u, h, "") && f !in w.flights
    ensures
      var w' := Opened(Step(w, RequestChange(u, h, b)), f, u, h, elapsed);
      w'.updates != w.updates <==> elapsed <= 86_400_000_000_000 && b == ""
  {
    RequestChangeIssues(w, u, h, "", b);
  }

  /** Discarding drops this very token and no other, and a token handed back is live again unless it expired or another is. */
  lemma DiscardAndRestoreExactly(w: World, u: string, h: string, f: nat)
    ensures h != "" ==>
      var w' := Step(w, Discard(u, h));
      && Slot(w', u) == (if Slot(w, u).tokenHash == h then NO_STATE else Slot(w, u))
      && (forall v :: v != u ==> Slot(w', v) == Slot(w, v))
    ensures FlightOf(w, f).Restoring? ==>
      var x, w' := FlightOf(w, f), Step(w, Restore(f));
      && Slot(w', x.userID) ==
           (if Slot(w, x.userID).tokenHash == "" && w.now < x.state.expiresAt then x.state else Slot(w, x.userID))
      && (forall v :: v != x.userID ==> Slot(w', v) == Slot(w, v)) && FlightOf(w', f) == Landed
  {
  }

  /** Cancelling drops a pending change and leaves a plain verification as it was. */
  lemma CancelDropsChangesOnly(w: World, u: string)
    ensures
      var w' := Step(w, CancelChange(u));
      && Slot(w', u) == (if Slot(w, u).replacesEmail != "" then NO_STATE else Slot(w, u))
      && (forall v :: v != u ==> Slot(w', v) == Slot(w, v))
  {
  }
}
